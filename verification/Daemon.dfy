/** Daemon startup: any number of starters and daemon processes share a lock file, a probe, an
    unlink and a bind. A starter lends its lock to the daemon it spawns, through an environment
    variable that whatever that daemon runs inherits. */
module Daemon {
  import opened Wrappers

  type Pid = nat

  /** Where a starter (`ensure_daemon_running`) is. */
  datatype StarterPhase = First | WantsLock | HoldsLock | Spawning | Waiting(child: Pid)

  /** Where a daemon (`run_daemon_server`, `bind_daemon_listener`) is. */
  datatype DaemonPhase = Unlocked | Probing | Checking | Removing | Binding | Bound | Serving

  /** How a daemon comes by the lock: it takes it, its starter lends it, or it merely inherits the
      variable and goes ahead although nobody lends it anything. */
  datatype Claim = Own | LentBy(lender: Pid) | Inherited

  datatype Process =
    | Starter(starter: StarterPhase)
    | Server(claim: Claim, server: DaemonPhase)
    | Gone

  /** The lock's holder, the process that bound the socket file, the pid file and every process so far. */
  datatype World = World(lock: Option<Pid>, socket: Option<Pid>, pidFile: Option<Pid>, procs: map<Pid, Process>)

  datatype Step =
    | Start(p: Pid)
    | Serve(p: Pid)
    | Inherit(p: Pid)
    | ProbeFirst(p: Pid)
    | TakeLock(p: Pid)
    | ProbeAgain(p: Pid)
    | Spawn(p: Pid, child: Pid)
    | Poll(p: Pid)
    | Probe(p: Pid)
    | Check(p: Pid)
    | Remove(p: Pid)
    | Bind(p: Pid)
    | WritePid(p: Pid)
    | Dies(p: Pid)

  predicate IsStarter(w: World, p: Pid, phase: StarterPhase) {
    p in w.procs && w.procs[p] == Starter(phase)
  }

  predicate IsServer(w: World, p: Pid, phase: DaemonPhase) {
    p in w.procs && w.procs[p].Server? && w.procs[p].server == phase
  }

  predicate Alive(w: World, p: Pid) {
    p in w.procs && !w.procs[p].Gone?
  }

  /** The process has a listening socket. */
  predicate Listening(w: World, p: Pid) {
    IsServer(w, p, Bound) || IsServer(w, p, Serving)
  }

  /** The probe: a connection to the socket file succeeds. */
  predicate Ready(w: World) {
    w.socket.Some? && Listening(w, w.socket.value)
  }

  /** `inspect_daemon` reports a running daemon. */
  predicate Running(w: World) {
    Ready(w) && w.pidFile.Some? && Alive(w, w.pidFile.value)
  }

  /** The daemon has not bound yet and has not exited. */
  predicate Pending(w: World, p: Pid) {
    p in w.procs && w.procs[p].Server? && !w.procs[p].server.Bound? && !w.procs[p].server.Serving?
  }

  // ---------------------------------------------------------------- steps

  function Release(w: World, p: Pid): World {
    if w.lock == Some(p) then w.(lock := None) else w
  }

  function Exit(w: World, p: Pid): World {
    Release(w.(procs := w.procs[p := Gone]), p)
  }

  function Advance(w: World, p: Pid, phase: DaemonPhase): World
    requires p in w.procs && w.procs[p].Server?
  {
    w.(procs := w.procs[p := w.procs[p].(server := phase)])
  }

  /** `Inherit` is a daemon started from a descendant of a spawned one, its starter's variable still in
      the environment. `Dies` covers crashes, errors and a starter's timeout. */
  predicate Enabled(w: World, step: Step) {
    match step
    case Start(p) => p !in w.procs
    case Serve(p) => p !in w.procs
    case Inherit(p) => p !in w.procs
    case ProbeFirst(p) => IsStarter(w, p, First)
    case TakeLock(p) => w.lock.None? && (IsStarter(w, p, WantsLock) || (IsServer(w, p, Unlocked) && w.procs[p].claim == Own))
    case ProbeAgain(p) => IsStarter(w, p, HoldsLock)
    case Spawn(p, child) => IsStarter(w, p, Spawning) && child !in w.procs
    case Poll(p) => p in w.procs && w.procs[p].Starter? && w.procs[p].starter.Waiting?
    case Probe(p) => IsServer(w, p, Probing)
    case Check(p) => IsServer(w, p, Checking)
    case Remove(p) => IsServer(w, p, Removing)
    case Bind(p) => IsServer(w, p, Binding)
    case WritePid(p) => IsServer(w, p, Bound)
    case Dies(p) => Alive(w, p)
  }

  function Take(w: World, step: Step): World
    requires Enabled(w, step)
  {
    match step
    case Start(p) => w.(procs := w.procs[p := Starter(First)])
    case Serve(p) => w.(procs := w.procs[p := Server(Own, Unlocked)])
    case Inherit(p) => w.(procs := w.procs[p := Server(Inherited, Probing)])
    case ProbeFirst(p) => if Ready(w) then Exit(w, p) else w.(procs := w.procs[p := Starter(WantsLock)])
    case TakeLock(p) =>
      if w.procs[p].Starter? then w.(lock := Some(p), procs := w.procs[p := Starter(HoldsLock)])
      else Advance(w, p, Probing).(lock := Some(p))
    case ProbeAgain(p) => if Ready(w) then Exit(w, p) else w.(procs := w.procs[p := Starter(Spawning)])
    case Spawn(p, child) => w.(procs := w.procs[p := Starter(Waiting(child))][child := Server(LentBy(p), Probing)])
    case Poll(p) =>
      var child := w.procs[p].starter.child;
      if Running(w) || !Alive(w, child) then Exit(w, p) else w
    case Probe(p) => if Ready(w) then Exit(w, p) else Advance(w, p, Checking)
    case Check(p) => Advance(w, p, if w.socket.Some? then Removing else Binding)
    case Remove(p) => if w.socket.None? then Exit(w, p) else Advance(w, p, Binding).(socket := None)
    case Bind(p) => if w.socket.Some? then Exit(w, p) else Advance(w, p, Bound).(socket := Some(p))
    case WritePid(p) => Release(Advance(w, p, Serving).(pidFile := Some(p)), p)
    case Dies(p) => Exit(w, p)
  }

  function Next(w: World, step: Step): World {
    if Enabled(w, step) then Take(w, step) else w
  }

  /** No process yet; files of an earlier daemon may be left over. */
  predicate Fresh(w: World) {
    w.lock.None? && w.procs == map[]
  }

  /** A starter neither dies nor times out between spawning its daemon and that daemon's bind or exit. */
  predicate Patient(w: World, step: Step) {
    step.Dies? && step.p in w.procs && w.procs[step.p].Starter? && w.procs[step.p].starter.Waiting? ==>
      !Pending(w, w.procs[step.p].starter.child)
  }

  /** A daemon that merely inherited the variable finds somebody listening. */
  predicate Answered(w: World, step: Step) {
    step.Probe? && step.p in w.procs && w.procs[step.p].Server? && w.procs[step.p].claim == Inherited ==> Ready(w)
  }

  predicate Careful(w: World, step: Step) {
    Patient(w, step) && Answered(w, step)
  }

  /** A run of careful steps, and every state it passes through. */
  ghost predicate CarefulRun(w: World, steps: seq<Step>, states: seq<World>) {
    && |states| == |steps| + 1 && states[0] == w
    && forall i {:trigger steps[i]} :: 0 <= i < |steps| ==> Careful(states[i], steps[i]) && states[i + 1] == Next(states[i], steps[i])
  }

  // ---------------------------------------------------------------- the invariant

  /** Who is allowed to probe, unlink and bind: the lock's holder, or the daemon it waits for. */
  predicate Entitled(w: World, p: Pid)
    requires p in w.procs && w.procs[p].Server?
  {
    match w.procs[p].claim
    case Own => w.lock == Some(p)
    case LentBy(s) => w.lock == Some(s) && IsStarter(w, s, Waiting(p))
    case Inherited => false
  }

  /** What a process in each phase can rely on. */
  predicate ProcessOk(w: World, p: Pid)
    requires p in w.procs
  {
    match w.procs[p]
    case Starter(phase) =>
      (match phase
       case First => true
       case WantsLock => true
       case HoldsLock => w.lock == Some(p)
       case Spawning => w.lock == Some(p) && !Ready(w)
       case Waiting(c) =>
         && w.lock == Some(p) && c in w.procs && c != p
         && (w.procs[c].Gone? || (w.procs[c].Server? && w.procs[c].claim == LentBy(p) && !w.procs[c].server.Unlocked?))
         && (Pending(w, c) ==> !Ready(w)))
    case Server(claim, phase) =>
      (match phase
       case Unlocked => claim == Own
       case Probing => claim == Inherited || Entitled(w, p)
       case Checking => Entitled(w, p) && !Ready(w)
       case Removing => Entitled(w, p) && !Ready(w) && w.socket.Some?
       case Binding => Entitled(w, p) && w.socket.None?
       case Bound => w.socket == Some(p) && (claim == Own ==> w.lock == Some(p))
       case Serving => w.socket == Some(p) && w.pidFile == Some(p))
    case Gone => true
  }

  /** Only a starter past its first probe or a daemon before it serves holds the lock; merely inheriting
      the variable is not holding it. */
  predicate Holder(w: World, p: Pid) {
    && Alive(w, p)
    && match w.procs[p]
       case Starter(phase) => !phase.First? && !phase.WantsLock?
       case Server(claim, phase) => claim == Own && !phase.Unlocked? && !phase.Serving?
       case Gone => false
  }

  ghost predicate Inv(w: World) {
    && (w.lock.Some? ==> Holder(w, w.lock.value))
    && (forall p: Pid :: p in w.procs ==> ProcessOk(w, p))
  }

  lemma StarterStep(w: World, step: Step)
    requires Inv(w) && Enabled(w, step) && (step.Start? || step.ProbeFirst? || step.ProbeAgain? || step.Poll?)
    ensures Inv(Take(w, step))
  {
    var w' := Take(w, step);
    forall q: Pid | q in w'.procs ensures ProcessOk(w', q) {
      if q in w.procs { assert ProcessOk(w, q); }
      assert step.p in w.procs ==> ProcessOk(w, step.p);
    }
  }

  lemma SpawnStep(w: World, step: Step)
    requires Inv(w) && Enabled(w, step) && step.Spawn?
    ensures Inv(Take(w, step))
  {
    var w' := Take(w, step);
    forall q: Pid | q in w'.procs ensures ProcessOk(w', q) {
      if q in w.procs { assert ProcessOk(w, q); }
      assert ProcessOk(w, step.p);
    }
  }

  lemma LockStep(w: World, step: Step)
    requires Inv(w) && Enabled(w, step) && (step.TakeLock? || step.Serve? || step.Inherit?)
    ensures Inv(Take(w, step))
  {
    var w' := Take(w, step);
    forall q: Pid | q in w'.procs ensures ProcessOk(w', q) {
      if q in w.procs { assert ProcessOk(w, q); }
    }
  }

  lemma ProbeStep(w: World, step: Step)
    requires Inv(w) && Enabled(w, step) && (step.Probe? || step.Check?) && Answered(w, step)
    ensures Inv(Take(w, step))
  {
    var w' := Take(w, step);
    forall q: Pid | q in w'.procs ensures ProcessOk(w', q) {
      assert ProcessOk(w, q) && ProcessOk(w, step.p);
    }
  }

  lemma UnlinkStep(w: World, step: Step)
    requires Inv(w) && Enabled(w, step) && step.Remove?
    ensures Inv(Take(w, step))
  {
    var w' := Take(w, step);
    forall q: Pid | q in w'.procs ensures ProcessOk(w', q) {
      assert ProcessOk(w, q) && ProcessOk(w, step.p);
    }
  }

  lemma BindStep(w: World, step: Step)
    requires Inv(w) && Enabled(w, step) && (step.Bind? || step.WritePid?)
    ensures Inv(Take(w, step))
  {
    var w' := Take(w, step);
    forall q: Pid | q in w'.procs ensures ProcessOk(w', q) {
      assert ProcessOk(w, q) && ProcessOk(w, step.p);
    }
  }

  lemma DeathStep(w: World, step: Step)
    requires Inv(w) && Enabled(w, step) && step.Dies? && Patient(w, step)
    ensures Inv(Take(w, step))
  {
    var w' := Take(w, step);
    forall q: Pid | q in w'.procs ensures ProcessOk(w', q) {
      assert ProcessOk(w, q) && ProcessOk(w, step.p);
    }
  }

  lemma StepInv(w: World, step: Step)
    requires Inv(w) && Enabled(w, step) && Careful(w, step)
    ensures Inv(Take(w, step))
  {
    match step
    case Start(_) => StarterStep(w, step);
    case Serve(_) => LockStep(w, step);
    case Inherit(_) => LockStep(w, step);
    case ProbeFirst(_) => StarterStep(w, step);
    case TakeLock(_) => LockStep(w, step);
    case ProbeAgain(_) => StarterStep(w, step);
    case Spawn(_, _) => SpawnStep(w, step);
    case Poll(_) => StarterStep(w, step);
    case Probe(_) => ProbeStep(w, step);
    case Check(_) => ProbeStep(w, step);
    case Remove(_) => UnlinkStep(w, step);
    case Bind(_) => BindStep(w, step);
    case WritePid(_) => BindStep(w, step);
    case Dies(_) => DeathStep(w, step);
  }

  // ---------------------------------------------------------------- runs

  lemma {:induction false} InvKept(w: World, steps: seq<Step>, states: seq<World>, n: nat)
    requires Inv(w) && CarefulRun(w, steps, states) && n <= |steps|
    ensures Inv(states[n])
  {
    if n > 0 {
      InvKept(w, steps, states, n - 1);
      assert states[n] == Next(states[n - 1], steps[n - 1]);
      if Enabled(states[n - 1], steps[n - 1]) { StepInv(states[n - 1], steps[n - 1]); }
    }
  }

  lemma RunInv(w: World, steps: seq<Step>, states: seq<World>, n: nat)
    requires Fresh(w) && CarefulRun(w, steps, states) && n <= |steps|
    ensures Inv(states[n])
  {
    InvKept(w, steps, states, n);
  }

  /** Mutual exclusion. For any number of starters and daemon processes, however their steps interleave
      and whoever crashes, at most one live process has a listening socket, and the socket file is its. */
  lemma AtMostOneListener(w: World, steps: seq<Step>, states: seq<World>, n: nat, p: Pid, q: Pid)
    requires Fresh(w) && CarefulRun(w, steps, states) && n <= |steps|
    requires Listening(states[n], p) && Listening(states[n], q)
    ensures p == q && states[n].socket == Some(p)
  {
    RunInv(w, steps, states, n);
    assert ProcessOk(states[n], p) && ProcessOk(states[n], q);
  }

  /** Nobody unlinks a socket that is being listened on: no process that is about to unlink shares the
      world with a listener. */
  lemma LiveSocketNeverUnlinked(w: World, steps: seq<Step>, states: seq<World>, n: nat, p: Pid, q: Pid)
    requires Fresh(w) && CarefulRun(w, steps, states) && n <= |steps| && Enabled(states[n], Remove(p))
    ensures !Ready(states[n]) && !Listening(states[n], q)
  {
    RunInv(w, steps, states, n);
    assert ProcessOk(states[n], p);
    if q in states[n].procs { assert ProcessOk(states[n], q); }
  }

  // ---------------------------------------------------------------- nobody waits in vain

  /** A starter goes away by itself only with a daemon listening, or with its own daemon gone. */
  lemma StarterReturns(w: World, steps: seq<Step>, states: seq<World>, n: nat, step: Step, p: Pid)
    requires Fresh(w) && CarefulRun(w, steps, states) && n <= |steps| && Enabled(states[n], step) && !step.Dies?
    requires p in states[n].procs && states[n].procs[p].Starter? && !Take(states[n], step).procs[p].Starter?
    ensures var before, after := states[n], Take(states[n], step);
            && after.procs[p].Gone? && after.lock != Some(p)
            && ((exists d: Pid :: Listening(before, d) && Listening(after, d) && after.socket == Some(d))
                || exists c: Pid :: IsStarter(before, p, Waiting(c)) && !Alive(before, c))
  {
    RunInv(w, steps, states, n);
    assert ProcessOk(states[n], p);
    if Ready(states[n]) {
      var d := states[n].socket.value;
      assert Listening(states[n], d) && Listening(Take(states[n], step), d);
    }
  }

  /** A step that only lets the processes at hand, and the daemons they spawn, go on. */
  predicate Undisturbed(step: Step) {
    !step.Dies? && !step.Start? && !step.Serve? && !step.Inherit?
  }

  ghost predicate Leads(w: World, w': World) {
    exists steps, states :: CarefulRun(w, steps, states) && (forall i :: 0 <= i < |steps| ==> Undisturbed(steps[i])) && states[|steps|] == w'
  }

  lemma LeadsThen(a: World, b: World, c: World)
    requires Leads(a, b) && Leads(b, c)
    ensures Leads(a, c)
  {
    var s1, t1 :| CarefulRun(a, s1, t1) && (forall i :: 0 <= i < |s1| ==> Undisturbed(s1[i])) && t1[|s1|] == b;
    var s2, t2 :| CarefulRun(b, s2, t2) && (forall i :: 0 <= i < |s2| ==> Undisturbed(s2[i])) && t2[|s2|] == c;
    var steps, states := s1 + s2, t1 + t2[1..];
    forall i | 0 <= i < |steps| ensures Careful(states[i], steps[i]) && states[i + 1] == Next(states[i], steps[i]) && Undisturbed(steps[i]) {
      if i < |s1| { assert steps[i] == s1[i]; } else { assert steps[i] == s2[i - |s1|]; }
    }
    assert CarefulRun(a, steps, states) && states[|steps|] == c;
  }

  lemma LeadsOne(w: World, step: Step) returns (w': World)
    requires Inv(w) && Enabled(w, step) && Careful(w, step) && Undisturbed(step)
    ensures w' == Take(w, step) && Leads(w, w') && Inv(w')
  {
    w' := Take(w, step);
    StepInv(w, step);
    var steps, states := [step], [w, w'];
    assert CarefulRun(w, steps, states) && states[|steps|] == w';
  }

  lemma LeadsMore(w: World, w1: World, step: Step) returns (w': World)
    requires Leads(w, w1) && Inv(w1) && Enabled(w1, step) && Careful(w1, step) && Undisturbed(step)
    ensures w' == Take(w1, step) && Leads(w, w') && Inv(w')
  {
    w' := LeadsOne(w1, step);
    LeadsThen(w, w1, w');
  }

  /** A daemon that is allowed to bind gets there if nobody listens yet. */
  lemma DaemonBinds(w: World, d: Pid) returns (w': World)
    requires Inv(w) && !Ready(w) && WillBind(w, d)
    ensures Leads(w, w') && Inv(w') && Ready(w') && w'.lock == w.lock && w'.procs == w.procs[d := Server(w.procs[d].claim, Bound)]
    decreases StepsToBind(w.procs[d].server)
  {
    match w.procs[d].server
    case Binding => w' := LeadsOne(w, Bind(d));
    case Removing =>
      var w1 := LeadsOne(w, Remove(d));
      w' := DaemonBinds(w1, d);
      LeadsThen(w, w1, w');
    case Checking =>
      var w1 := LeadsOne(w, Check(d));
      w' := DaemonBinds(w1, d);
      LeadsThen(w, w1, w');
    case Probing =>
      var w1 := LeadsOne(w, Probe(d));
      w' := DaemonBinds(w1, d);
      LeadsThen(w, w1, w');
  }

  /** The starters other than `h` are where they were. */
  ghost predicate OthersWait(w: World, w': World, h: Pid) {
    forall q: Pid :: q in w.procs && w.procs[q].Starter? && q != h ==> q in w'.procs && w'.procs[q] == w.procs[q]
  }

  /** A waiting starter returns once somebody listens or its daemon is gone, and frees the lock. */
  lemma WaiterReturns(w: World, s: Pid, c: Pid) returns (w': World)
    requires Inv(w) && IsStarter(w, s, Waiting(c)) && (Ready(w) || !Alive(w, c))
    ensures Leads(w, w') && Inv(w') && w'.lock.None? && s in w'.procs && w'.procs[s].Gone? && OthersWait(w, w', s)
    ensures Ready(w) <==> Ready(w')
  {
    assert ProcessOk(w, s) && ProcessOk(w, c);
    if IsServer(w, c, Bound) {
      var w1 := LeadsOne(w, WritePid(c));
      w' := LeadsMore(w, w1, Poll(s));
    } else {
      w' := LeadsOne(w, Poll(s));
    }
  }

  /** While somebody listens, the lock's holder goes on and frees it. */
  lemma HolderFinishes(w: World, h: Pid) returns (w': World)
    requires Inv(w) && Ready(w) && w.lock == Some(h)
    ensures Leads(w, w') && Inv(w') && Ready(w') && w'.lock.None? && OthersWait(w, w', h)
  {
    assert ProcessOk(w, h);
    match w.procs[h]
    case Starter(HoldsLock) => w' := LeadsOne(w, ProbeAgain(h));
    case Starter(Waiting(c)) => w' := WaiterReturns(w, h, c);
    case Server(_, Probing) => w' := LeadsOne(w, Probe(h));
    case Server(_, Bound) => w' := LeadsOne(w, WritePid(h));
  }

  /** The starter is done, and a daemon listens. */
  ghost predicate Served(w: World, p: Pid) {
    exists w' :: Leads(w, w') && Ready(w') && p in w'.procs && w'.procs[p].Gone?
  }

  lemma ServedLater(w: World, w': World, p: Pid)
    requires Leads(w, w') && Served(w', p)
    ensures Served(w, p)
  {
    var w2 :| Leads(w', w2) && Ready(w2) && p in w2.procs && w2.procs[p].Gone?;
    LeadsThen(w, w', w2);
  }

  lemma ServedWhenReady(w: World, p: Pid)
    requires Inv(w) && Ready(w) && p in w.procs && w.procs[p].Starter?
    ensures Served(w, p)
  {
    assert ProcessOk(w, p);
    var w': World;
    match w.procs[p].starter
    case First => w' := LeadsOne(w, ProbeFirst(p));
    case HoldsLock => w' := LeadsOne(w, ProbeAgain(p));
    case Waiting(c) => w' := WaiterReturns(w, p, c);
    case WantsLock =>
      if w.lock.Some? {
        var h := w.lock.value;
        var w1 := HolderFinishes(w, h);
        var w2 := LeadsMore(w, w1, TakeLock(p));
        w' := LeadsMore(w, w2, ProbeAgain(p));
      } else {
        var w1 := LeadsOne(w, TakeLock(p));
        w' := LeadsMore(w, w1, ProbeAgain(p));
      }
  }

  /** While nobody listens, the lock's holder gets a daemon to listen, unless it waits for one that is gone:
      then it returns and frees the lock. */
  lemma HolderServes(w: World, h: Pid) returns (w': World)
    requires Inv(w) && !Ready(w) && w.lock == Some(h)
    ensures Leads(w, w') && Inv(w') && OthersWait(w, w', h)
    ensures if exists c :: IsStarter(w, h, Waiting(c)) && !Alive(w, c) then !Ready(w') && w'.lock.None?
            else Ready(w') && (w.procs[h].Starter? ==> h in w'.procs && w'.procs[h].Starter?)
    decreases if h in w.procs && IsStarter(w, h, HoldsLock) then 1 else 0
  {
    assert ProcessOk(w, h);
    match w.procs[h]
    case Starter(HoldsLock) =>
      var w1 := LeadsOne(w, ProbeAgain(h));
      w' := HolderServes(w1, h);
      LeadsThen(w, w1, w');
    case Starter(Spawning) =>
      var c := Below(w.procs.Keys);
      var w1 := LeadsOne(w, Spawn(h, c));
      w' := DaemonBinds(w1, c);
      LeadsThen(w, w1, w');
    case Starter(Waiting(c)) =>
      assert ProcessOk(w, c);
      if !Alive(w, c) { w' := WaiterReturns(w, h, c); } else { w' := DaemonBinds(w, c); }
    case Server(_, _) =>
      w' := DaemonBinds(w, h);
  }

  lemma ServedOnceFree(w: World, p: Pid)
    requires Inv(w) && !Ready(w) && w.lock.None? && p in w.procs && w.procs[p].Starter?
    ensures Served(w, p)
  {
    assert ProcessOk(w, p);
    if IsStarter(w, p, First) {
      var w1 := LeadsOne(w, ProbeFirst(p));
      ServedWithLock(w1, p);
      ServedLater(w, w1, p);
    } else {
      ServedWithLock(w, p);
    }
  }

  lemma ServedWithLock(w: World, p: Pid)
    requires Inv(w) && !Ready(w) && w.lock.None? && IsStarter(w, p, WantsLock)
    ensures Served(w, p)
  {
    var w1 := LeadsOne(w, TakeLock(p));
    var w2 := HolderServes(w1, p);
    ServedWhenReady(w2, p);
    ServedLater(w1, w2, p);
    ServedLater(w, w1, p);
  }

  /** Startup never gets stuck: at any point of a careful run, every starter whose own daemon has not exited
      can still return with a daemon listening, by steps of the processes at hand and the daemons they
      spawn, without anybody dying. */
  lemma StarterServed(w: World, steps: seq<Step>, states: seq<World>, n: nat, p: Pid)
    requires Fresh(w) && CarefulRun(w, steps, states) && n <= |steps|
    requires p in states[n].procs && states[n].procs[p].Starter?
    requires forall c :: IsStarter(states[n], p, Waiting(c)) ==> Alive(states[n], c)
    ensures Served(states[n], p)
  {
    var now := states[n];
    RunInv(w, steps, states, n);
    if Ready(now) {
      ServedWhenReady(now, p);
    } else if now.lock.Some? {
      var h := now.lock.value;
      var later := HolderServes(now, h);
      if Ready(later) { ServedWhenReady(later, p); } else { ServedOnceFree(later, p); }
      ServedLater(now, later, p);
    } else {
      ServedOnceFree(now, p);
    }
  }

  // ---------------------------------------------------------------- why every step must be careful

  ghost predicate TwoListen(w: World) {
    exists p, q :: p != q && Listening(w, p) && Listening(w, q)
  }

  /** However the run goes on, as long as its steps are careful, at most one process listens. */
  ghost predicate Exclusive(w: World) {
    forall steps, states :: CarefulRun(w, steps, states) ==> !TwoListen(states[|steps|])
  }

  /** A careful step to a world that can go wrong. */
  lemma Onwards(w: World, step: Step)
    requires Careful(w, step) && !Exclusive(Next(w, step))
    ensures !Exclusive(w)
  {
    var steps, states :| CarefulRun(Next(w, step), steps, states) && TwoListen(states[|steps|]);
    var more, passed := [step] + steps, [w] + states;
    forall i | 0 <= i < |more| ensures Careful(passed[i], more[i]) && passed[i + 1] == Next(passed[i], more[i]) {
      if i > 0 { assert steps[i - 1] == more[i]; }
    }
    assert CarefulRun(w, more, passed) && passed[|more|] == states[|steps|];
  }

  lemma AlreadyTwo(w: World, p: Pid, q: Pid)
    requires p != q && Listening(w, p) && Listening(w, q)
    ensures !Exclusive(w)
  {
    var steps: seq<Step>, states := [], [w];
    assert CarefulRun(w, steps, states) && TwoListen(states[|steps|]);
  }

  /** A daemon that has probed and seen nobody unlinks whatever socket it finds, and binds. */
  lemma Overtakes(w: World, slow: Pid, fast: Pid)
    requires IsServer(w, slow, Checking) && IsServer(w, fast, Bound) && w.socket == Some(fast)
    ensures !Exclusive(w)
  {
    var w1 := Next(w, Check(slow));
    var w2 := Next(w1, Remove(slow));
    var w3 := Next(w2, Bind(slow));
    assert Listening(w3, slow) && Listening(w3, fast);
    AlreadyTwo(w3, slow, fast);
    Onwards(w2, Bind(slow));
    Onwards(w1, Remove(slow));
    Onwards(w, Check(slow));
  }

  /** A daemon that may probe, is about to bind and can. */
  predicate WillBind(w: World, p: Pid) {
    && p in w.procs && w.procs[p].Server? && w.procs[p].claim != Inherited
    && match w.procs[p].server
       case Probing => !Ready(w)
       case Checking => true
       case Removing => w.socket.Some?
       case Binding => w.socket.None?
       case _ => false
  }

  function StepsToBind(phase: DaemonPhase): nat {
    match phase
    case Probing => 3
    case Checking => 2
    case Removing => 1
    case _ => 0
  }

  /** Two daemons past their probes are one too many. */
  lemma Races(w: World, slow: Pid, fast: Pid)
    requires slow != fast && IsServer(w, slow, Checking) && WillBind(w, fast)
    ensures !Exclusive(w)
    decreases StepsToBind(w.procs[fast].server)
  {
    match w.procs[fast].server
    case Probing =>
      Races(Next(w, Probe(fast)), slow, fast);
      Onwards(w, Probe(fast));
    case Checking =>
      Races(Next(w, Check(fast)), slow, fast);
      Onwards(w, Check(fast));
    case Removing =>
      Races(Next(w, Remove(fast)), slow, fast);
      Onwards(w, Remove(fast));
    case Binding =>
      Overtakes(Next(w, Bind(fast)), slow, fast);
      Onwards(w, Bind(fast));
  }

  lemma {:induction false} Below(pids: set<Pid>) returns (bound: Pid)
    ensures forall p :: p in pids ==> p < bound
  {
    bound := 0;
    if pids != {} {
      var p :| p in pids;
      var rest := Below(pids - {p});
      bound := if rest > p then rest else p + 1;
      forall q | q in pids ensures q < bound {
        if q != p { assert q in pids - {p}; }
      }
    }
  }

  /** A new daemon, once the lock is free, gets to probe. */
  lemma Newcomer(w: World) returns (d: Pid, w': World)
    requires w.lock.None?
    ensures d !in w.procs && w' == World(Some(d), w.socket, w.pidFile, w.procs[d := Server(Own, Probing)])
    ensures !Exclusive(w') ==> !Exclusive(w)
  {
    d := Below(w.procs.Keys);
    var w1 := Next(w, Serve(d));
    w' := Next(w1, TakeLock(d));
    if !Exclusive(w') {
      Onwards(w1, TakeLock(d));
      Onwards(w, Serve(d));
    }
  }

  /** A starter that leaves its unbound daemon behind frees the lock: a second daemon probes, and sees
      nobody, before the first one binds. */
  lemma AbandonedDaemon(w: World, s: Pid)
    requires Inv(w) && Enabled(w, Dies(s)) && !Patient(w, Dies(s))
    ensures !Exclusive(Next(w, Dies(s)))
  {
    var c := w.procs[s].starter.child;
    assert ProcessOk(w, s) && ProcessOk(w, c);
    var w0 := Next(w, Dies(s));
    var d, w1 := Newcomer(w0);
    assert !Ready(w1);
    var w2 := Next(w1, Probe(d));
    assert WillBind(w2, c);
    Races(w2, d, c);
    Onwards(w1, Probe(d));
  }

  /** Somebody holds the lock and nobody listens: the holder's daemon, if it has one, and then the
      holder can exit, which frees the lock. */
  lemma LockFreed(w: World, p: Pid) returns (w': World)
    requires Inv(w) && IsServer(w, p, Probing) && w.procs[p].claim == Inherited && !Ready(w)
    ensures w'.lock.None? && w'.socket == w.socket && IsServer(w', p, Checking) && !Ready(w')
    ensures !Exclusive(w') ==> !Exclusive(Next(w, Probe(p)))
  {
    w' := Next(w, Probe(p));
    if w.lock.Some? {
      var w0 := w';
      var h := w.lock.value;
      assert ProcessOk(w, h);
      if w.procs[h].Starter? && w.procs[h].starter.Waiting? && Pending(w, w.procs[h].starter.child) {
        var c := w.procs[h].starter.child;
        var w1 := Next(w0, Dies(c));
        w' := Next(w1, Dies(h));
        if !Exclusive(w') {
          Onwards(w1, Dies(h));
          Onwards(w0, Dies(c));
        }
      } else {
        w' := Next(w0, Dies(h));
        if !Exclusive(w') { Onwards(w0, Dies(h)); }
      }
    }
  }

  /** A daemon that goes past its probe without the lock can be overtaken by one that has it. */
  lemma UnlentDaemon(w: World, p: Pid)
    requires Inv(w) && Enabled(w, Probe(p)) && !Answered(w, Probe(p))
    ensures !Exclusive(Next(w, Probe(p)))
  {
    var w0 := LockFreed(w, p);
    var d, w1 := Newcomer(w0);
    assert WillBind(w1, d);
    Races(w1, p, d);
  }

  lemma CarefulMeansExclusive(w: World, step: Step)
    requires Inv(w) && Enabled(w, step) && Careful(w, step)
    ensures Exclusive(Next(w, step))
  {
    StepInv(w, step);
    forall steps, states | CarefulRun(Next(w, step), steps, states) ensures !TwoListen(states[|steps|]) {
      InvKept(Next(w, step), steps, states, |steps|);
      var last := states[|steps|];
      forall p, q | Listening(last, p) && Listening(last, q) ensures p == q {
        assert ProcessOk(last, p) && ProcessOk(last, q);
      }
    }
  }

  /** Exactly when exclusion survives. At any point of a careful run, a step leaves every careful
      continuation with at most one listener if and only if the step is itself careful: no starter
      abandons a daemon that has yet to bind, and no daemon that merely inherited the variable goes past
      its probe. */
  lemma ExclusionIffCareful(w: World, steps: seq<Step>, states: seq<World>, n: nat, step: Step)
    requires Fresh(w) && CarefulRun(w, steps, states) && n <= |steps| && Enabled(states[n], step)
    ensures Exclusive(Next(states[n], step)) <==> Careful(states[n], step)
  {
    RunInv(w, steps, states, n);
    if Careful(states[n], step) {
      CarefulMeansExclusive(states[n], step);
    } else if !Patient(states[n], step) {
      AbandonedDaemon(states[n], step.p);
    } else {
      UnlentDaemon(states[n], step.p);
    }
  }

  // ---------------------------------------------------------------- careless steps do occur

  const NOBODY := World(None, None, None, map[])

  /** One more step of a careful run. */
  lemma Further(steps: seq<Step>, states: seq<World>, step: Step, w: World) returns (more: seq<Step>, passed: seq<World>)
    requires CarefulRun(NOBODY, steps, states) && Careful(states[|steps|], step) && w == Next(states[|steps|], step)
    ensures CarefulRun(NOBODY, more, passed) && passed[|more|] == w
  {
    more, passed := steps + [step], states + [w];
    forall i | 0 <= i < |more| ensures Careful(passed[i], more[i]) && passed[i + 1] == Next(passed[i], more[i]) {
      if i < |steps| { assert steps[i] == more[i]; }
    }
  }

  function OneStarter(lock: Option<Pid>, phase: StarterPhase): World {
    World(lock, None, None, map[0 := Starter(phase)])
  }

  function WithDaemon(phase: DaemonPhase): World {
    World(Some(0), None, None, map[0 := Starter(Waiting(1)), 1 := Server(LentBy(0), phase)])
  }

  lemma StarterLocks() returns (steps: seq<Step>, states: seq<World>)
    ensures CarefulRun(NOBODY, steps, states) && states[|steps|] == OneStarter(None, WantsLock)
  {
    steps, states := [], [NOBODY];
    steps, states := Further(steps, states, Start(0), OneStarter(None, First));
    steps, states := Further(steps, states, ProbeFirst(0), OneStarter(None, WantsLock));
  }

  lemma StarterSpawns() returns (steps: seq<Step>, states: seq<World>)
    ensures CarefulRun(NOBODY, steps, states) && states[|steps|] == OneStarter(Some(0), Spawning)
  {
    steps, states := StarterLocks();
    steps, states := Further(steps, states, TakeLock(0), OneStarter(Some(0), HoldsLock));
    steps, states := Further(steps, states, ProbeAgain(0), OneStarter(Some(0), Spawning));
  }

  /** A starter that times out on a daemon that has probed but not bound. */
  lemma StarterGivesUp() returns (steps: seq<Step>, states: seq<World>)
    ensures CarefulRun(NOBODY, steps, states) && states[|steps|] == WithDaemon(Checking)
    ensures Enabled(states[|steps|], Dies(0)) && !Exclusive(Next(states[|steps|], Dies(0)))
  {
    steps, states := StarterSpawns();
    steps, states := Further(steps, states, Spawn(0, 1), WithDaemon(Probing));
    steps, states := Further(steps, states, Probe(1), WithDaemon(Checking));
    ExclusionIffCareful(NOBODY, steps, states, |steps|, Dies(0));
  }

  function Inheriting(phase: DaemonPhase): World {
    World(Some(0), None, None, map[0 := Starter(Waiting(1)), 1 := Server(LentBy(0), phase), 2 := Server(Inherited, Probing)])
  }

  /** With a patient starter: a daemon that inherited the variable probes while the spawned one has yet to bind. */
  lemma InheritorProbes() returns (steps: seq<Step>, states: seq<World>)
    ensures CarefulRun(NOBODY, steps, states) && states[|steps|] == Inheriting(Checking)
    ensures Enabled(states[|steps|], Probe(2)) && !Exclusive(Next(states[|steps|], Probe(2)))
  {
    steps, states := StarterGivesUp();
    steps, states := Further(steps, states, Inherit(2), Inheriting(Checking));
    ExclusionIffCareful(NOBODY, steps, states, |steps|, Probe(2));
  }
}
