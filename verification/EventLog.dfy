/** The append-only event log: targeted, cursor-driven reads and what a reader
    that feeds `next_cursor` back is guaranteed to see. */
module EventLog {
  import opened Types
  import opened Vocabulary
  import opened Wrappers

  /** Pages are capped at this many rows before any type filter. */
  const PAGE_CAP: nat := 500

  ghost predicate Ascending(log: seq<Event>) {
    forall i, j :: 0 <= i < j < |log| ==> log[i].serverSeq < log[j].serverSeq
  }

  function LastSeq(log: seq<Event>): int {
    if log == [] then 0 else log[|log| - 1].serverSeq
  }

  /** The autoincrement key of the next row. */
  function Numbered(log: seq<Event>, e: Event): Event {
    e.(serverSeq := LastSeq(log) + 1)
  }

  /** What a step added to the log. */
  function Added(log: seq<Event>, log': seq<Event>): seq<Event> {
    if |log| <= |log'| then log'[|log|..] else []
  }

  predicate Targets(e: Event, target: Option<Uri>) {
    target.None? || e.resource == target.value || e.parent == target
  }

  predicate Wanted(e: Event, types: seq<EventType>) {
    types == [] || e.eventType in types
  }

  function Min(a: nat, b: nat): nat { if a < b then a else b }

  /** Reference reading: every event with `lo < serverSeq <= hi` that concerns the
      target and has a wanted type, in log order. */
  function Window(log: seq<Event>, target: Option<Uri>, types: seq<EventType>, lo: int, hi: int): seq<Event> {
    if log == [] then []
    else
      var e := log[|log| - 1];
      var rest := Window(log[..|log| - 1], target, types, lo, hi);
      if lo < e.serverSeq <= hi && Targets(e, target) && Wanted(e, types) then rest + [e] else rest
  }

  /** The rows the SQL query would deliver without its LIMIT. */
  function After(log: seq<Event>, target: Option<Uri>, cursor: int): seq<Event> {
    Window(log, target, [], cursor, if LastSeq(log) < cursor then cursor else LastSeq(log))
  }

  function OfType(events: seq<Event>, types: seq<EventType>): seq<Event> {
    if events == [] then []
    else
      var e := events[|events| - 1];
      var rest := OfType(events[..|events| - 1], types);
      if Wanted(e, types) then rest + [e] else rest
  }

  /** `Store::read_events`: LIMIT first, type filter afterwards. */
  function Page(log: seq<Event>, target: Option<Uri>, cursor: int, limit: nat, types: seq<EventType>): seq<Event> {
    var rows := After(log, target, cursor);
    OfType(rows[..Min(Min(limit, PAGE_CAP), |rows|)], types)
  }

  /** `next_cursor` of the reply. */
  function NextCursor(page: seq<Event>, cursor: int): int {
    if page == [] then cursor else LastSeq(page)
  }

  // ---------------------------------------------------------------- windows

  /** The reference window holds exactly the events its bounds describe. */
  lemma {:induction false} WindowMembers(log: seq<Event>, target: Option<Uri>, types: seq<EventType>, lo: int, hi: int, e: Event)
    ensures e in Window(log, target, types, lo, hi) <==>
            e in log && lo < e.serverSeq <= hi && About(e, target) && OfTypes(e, types)
  {
    if log != [] {
      var front := log[..|log| - 1];
      WindowMembers(front, target, types, lo, hi, e);
      assert log == front + [log[|log| - 1]];
    }
  }

  /** ... in log order. */
  lemma {:induction false} WindowAscending(log: seq<Event>, target: Option<Uri>, types: seq<EventType>, lo: int, hi: int)
    requires Ascending(log)
    ensures Ascending(Window(log, target, types, lo, hi))
  {
    if log != [] {
      var front := log[..|log| - 1];
      WindowAscending(front, target, types, lo, hi);
      var w := Window(front, target, types, lo, hi);
      forall x | x in w ensures x.serverSeq < log[|log| - 1].serverSeq {
        WindowMembers(front, target, types, lo, hi, x);
      }
    }
  }

  /** Appending changes a window only when the new event itself belongs to it. */
  lemma WindowAppend(log: seq<Event>, e: Event, target: Option<Uri>, types: seq<EventType>, lo: int, hi: int)
    ensures Window(log + [e], target, types, lo, hi) ==
            Window(log, target, types, lo, hi) +
            (if lo < e.serverSeq <= hi && Targets(e, target) && Wanted(e, types) then [e] else [])
  {
    assert (log + [e])[..|log|] == log;
  }

  lemma {:induction false} WindowConcat(a: seq<Event>, b: seq<Event>, target: Option<Uri>, types: seq<EventType>, lo: int, hi: int)
    ensures Window(a + b, target, types, lo, hi) == Window(a, target, types, lo, hi) + Window(b, target, types, lo, hi)
  {
    if b == [] {
      assert a + b == a;
    } else {
      var front := b[..|b| - 1];
      WindowConcat(a, front, target, types, lo, hi);
      assert (a + b)[..|a + b| - 1] == a + front;
    }
  }

  /** A type filter commutes with the window. */
  lemma {:induction false} WindowOfType(log: seq<Event>, target: Option<Uri>, types: seq<EventType>, lo: int, hi: int)
    ensures OfType(Window(log, target, [], lo, hi), types) == Window(log, target, types, lo, hi)
  {
    if log != [] {
      var front, e := log[..|log| - 1], log[|log| - 1];
      WindowOfType(front, target, types, lo, hi);
      var w := Window(front, target, [], lo, hi);
      assert (w + [e])[..|w|] == w;
    }
  }

  /** Windows over adjacent ranges concatenate. */
  lemma {:induction false} WindowSplit(log: seq<Event>, target: Option<Uri>, types: seq<EventType>, lo: int, mid: int, hi: int)
    requires Ascending(log) && lo <= mid <= hi
    ensures Window(log, target, types, lo, mid) + Window(log, target, types, mid, hi) == Window(log, target, types, lo, hi)
  {
    if log != [] {
      var front, e := log[..|log| - 1], log[|log| - 1];
      WindowSplit(front, target, types, lo, mid, hi);
      if e.serverSeq <= mid {
        WindowEmpty(log, target, types, mid, hi);
        WindowEmpty(front, target, types, mid, hi);
      }
    }
  }

  lemma {:induction false} WindowEmpty(log: seq<Event>, target: Option<Uri>, types: seq<EventType>, lo: int, hi: int)
    requires forall i :: 0 <= i < |log| ==> log[i].serverSeq <= lo || hi < log[i].serverSeq
    ensures Window(log, target, types, lo, hi) == []
  {
    if log != [] {
      WindowEmpty(log[..|log| - 1], target, types, lo, hi);
    }
  }

  /** The upper bound is immaterial once it covers the whole log. */
  lemma {:induction false} WindowWiden(log: seq<Event>, target: Option<Uri>, types: seq<EventType>, lo: int, hi: int, hi': int)
    requires forall i :: 0 <= i < |log| ==> log[i].serverSeq <= hi && log[i].serverSeq <= hi'
    ensures Window(log, target, types, lo, hi) == Window(log, target, types, lo, hi')
  {
    if log != [] {
      WindowWiden(log[..|log| - 1], target, types, lo, hi, hi');
    }
  }

  /** Cutting an unfiltered window at one of its own events yields the prefix up to that event. */
  lemma WindowPrefix(log: seq<Event>, target: Option<Uri>, lo: int, hi: int, m: nat)
    requires Ascending(log)
    requires m < |Window(log, target, [], lo, hi)|
    ensures var w := Window(log, target, [], lo, hi);
            Window(log, target, [], lo, w[m].serverSeq) == w[..m + 1] &&
            Window(log, target, [], w[m].serverSeq, hi) == w[m + 1..]
  {
    var w := Window(log, target, [], lo, hi);
    var cut := w[m].serverSeq;
    assert w[m] in w;
    WindowMembers(log, target, [], lo, hi, w[m]);
    WindowSplit(log, target, [], lo, cut, hi);
    WindowAscending(log, target, [], lo, hi);
    var a, b := Window(log, target, [], lo, cut), Window(log, target, [], cut, hi);
    assert w == a + b;
    if |a| <= m {
      assert w[m] == b[m - |a|];
      WindowMembers(log, target, [], cut, hi, w[m]);
    } else if |a| > m + 1 {
      assert a[m + 1] in a && a[m + 1] == w[m + 1];
      WindowMembers(log, target, [], lo, cut, a[m + 1]);
    }
  }

  /** The last wanted event of a prefix closes the filtered prefix: later rows of the page add nothing. */
  lemma {:induction false} OfTypeLast(rows: seq<Event>, types: seq<EventType>) returns (m: nat)
    requires OfType(rows, types) != []
    ensures m < |rows|
    ensures OfType(rows, types) == OfType(rows[..m + 1], types)
    ensures LastSeq(OfType(rows, types)) == rows[m].serverSeq
  {
    var front, e := rows[..|rows| - 1], rows[|rows| - 1];
    if Wanted(e, types) {
      m := |rows| - 1;
      assert rows[..m + 1] == rows;
    } else {
      m := OfTypeLast(front, types);
      assert rows[..m + 1] == front[..m + 1];
    }
  }

  // ---------------------------------------------------------------- one poll

  /** One poll delivers exactly the wanted events between the old and the new cursor. */
  lemma PollIsWindow(log: seq<Event>, target: Option<Uri>, cursor: int, limit: nat, types: seq<EventType>)
    requires Ascending(log)
    ensures var page := Page(log, target, cursor, limit, types);
            var next := NextCursor(page, cursor);
            && cursor <= next
            && (page == [] <==> next == cursor)
            && page == Window(log, target, types, cursor, next)
            && (page != [] ==> next <= LastSeq(log))
  {
    var hi := if LastSeq(log) < cursor then cursor else LastSeq(log);
    var rows := After(log, target, cursor);
    var k := Min(Min(limit, PAGE_CAP), |rows|);
    var page := Page(log, target, cursor, limit, types);
    if page == [] {
      WindowEmpty(log, target, types, cursor, cursor);
    } else {
      var m := OfTypeLast(rows[..k], types);
      assert rows[..k][..m + 1] == rows[..m + 1];
      WindowPrefix(log, target, cursor, hi, m);
      var next := rows[m].serverSeq;
      WindowOfType(log, target, types, cursor, next);
      assert rows[m] in rows;
      WindowMembers(log, target, [], cursor, hi, rows[m]);
    }
  }

  // ---------------------------------------------------------------- interleavings

  datatype ReaderStep = Appended(e: Event) | Polled(limit: nat)

  datatype Reader = Reader(log: seq<Event>, cursor: int, seen: seq<Event>)

  function ReaderNext(r: Reader, step: ReaderStep, target: Option<Uri>, types: seq<EventType>): Reader {
    match step
    case Appended(e) => r.(log := r.log + [Numbered(r.log, e)])
    case Polled(limit) =>
      var page := Page(r.log, target, r.cursor, limit, types);
      r.(cursor := NextCursor(page, r.cursor), seen := r.seen + page)
  }

  function ReaderRun(r: Reader, steps: seq<ReaderStep>, target: Option<Uri>, types: seq<EventType>): Reader {
    if steps == [] then r
    else ReaderNext(ReaderRun(r, steps[..|steps| - 1], target, types), steps[|steps| - 1], target, types)
  }

  lemma AscendingAppend(log: seq<Event>, e: Event)
    requires Ascending(log)
    ensures Ascending(log + [Numbered(log, e)])
  {}

  /** Exactly once: however appends and polls interleave, the accumulated pages are the
      ascending sequence of all wanted events between the first and the current cursor. */
  lemma {:induction false} ReaderExactlyOnce(log: seq<Event>, start: int, steps: seq<ReaderStep>, target: Option<Uri>, types: seq<EventType>)
    requires Ascending(log)
    ensures var r := ReaderRun(Reader(log, start, []), steps, target, types);
            && Ascending(r.log) && log <= r.log
            && start <= r.cursor && (r.cursor == start || r.cursor <= LastSeq(r.log))
            && Ascending(r.seen)
            && r.seen == Window(r.log, target, types, start, r.cursor)
  {
    var r0 := Reader(log, start, []);
    if steps == [] {
      WindowEmpty(log, target, types, start, start);
    } else {
      var front, step := steps[..|steps| - 1], steps[|steps| - 1];
      ReaderExactlyOnce(log, start, front, target, types);
      var r := ReaderRun(r0, front, target, types);
      match step
      case Appended(e) =>
        AscendingAppend(r.log, e);
        WindowAppend(r.log, Numbered(r.log, e), target, types, start, r.cursor);
      case Polled(limit) =>
        PollIsWindow(r.log, target, r.cursor, limit, types);
        var next := NextCursor(Page(r.log, target, r.cursor, limit, types), r.cursor);
        WindowSplit(r.log, target, types, start, r.cursor, next);
        WindowAscending(r.log, target, types, start, next);
    }
  }

  /** Nothing lost, in terms of single events: a wanted event at or below the cursor was delivered,
      at exactly one position. */
  lemma ReaderDelivers(log: seq<Event>, start: int, steps: seq<ReaderStep>, target: Option<Uri>, types: seq<EventType>, e: Event)
    requires Ascending(log)
    ensures var r := ReaderRun(Reader(log, start, []), steps, target, types);
            && (e in r.seen <==> e in r.log && start < e.serverSeq <= r.cursor && About(e, target) && OfTypes(e, types))
            && (forall i, j :: 0 <= i < |r.seen| && 0 <= j < |r.seen| && r.seen[i].serverSeq == r.seen[j].serverSeq ==> i == j)
  {
    ReaderExactlyOnce(log, start, steps, target, types);
    var r := ReaderRun(Reader(log, start, []), steps, target, types);
    WindowMembers(r.log, target, types, start, r.cursor, e);
  }

  // ---------------------------------------------------------------- draining a quiescent log

  function CeilDiv(n: nat, k: nat): nat
    requires k > 0
  {
    (n + k - 1) / k
  }

  /** An unfiltered non-empty poll consumes exactly one page of what is left. */
  lemma UnfilteredPoll(log: seq<Event>, target: Option<Uri>, cursor: int, limit: nat)
    requires Ascending(log) && limit > 0
    ensures var rows := After(log, target, cursor);
            var page := Page(log, target, cursor, limit, []);
            var k := Min(Min(limit, 500), |rows|);
            && page == rows[..k]
            && (rows == [] ==> NextCursor(page, cursor) == cursor)
            && After(log, target, NextCursor(page, cursor)) == rows[k..]
  {
    var rows := After(log, target, cursor);
    var k := Min(Min(limit, PAGE_CAP), |rows|);
    var page := Page(log, target, cursor, limit, []);
    OfTypeAll(rows[..k]);
    if rows != [] {
      var hi := if LastSeq(log) < cursor then cursor else LastSeq(log);
      WindowPrefix(log, target, cursor, hi, k - 1);
      assert rows[k - 1] in rows;
      WindowMembers(log, target, [], cursor, hi, rows[k - 1]);
    } else {
      assert rows[k..] == rows;
    }
  }

  lemma {:induction false} OfTypeAll(events: seq<Event>)
    ensures OfType(events, []) == events
  {
    if events != [] {
      OfTypeAll(events[..|events| - 1]);
      assert events == events[..|events| - 1] + [events[|events| - 1]];
    }
  }

  /** Number of non-empty polls a client makes before its first empty one. */
  ghost function PollsToDrain(log: seq<Event>, target: Option<Uri>, cursor: int, limit: nat): nat
    requires Ascending(log) && limit > 0
    decreases |After(log, target, cursor)|
  {
    var page := Page(log, target, cursor, limit, []);
    if page == [] then 0
    else
      UnfilteredPoll(log, target, cursor, limit);
      1 + PollsToDrain(log, target, NextCursor(page, cursor), limit)
  }

  lemma QuotientUnique(x: int, k: int, q: int, r: int)
    requires k > 0 && x == q * k + r && 0 <= r < k
    ensures x / k == q
  {
    var d := x / k - q;
    assert x / k * k == q * k + d * k;
    assert d >= 1 ==> d * k >= k;
    assert d <= -1 ==> d * k <= -k;
  }

  lemma CeilDivStep(n: nat, k: nat)
    requires 0 < k && 0 < n
    ensures CeilDiv(n, k) == if n <= k then 1 else 1 + CeilDiv(n - k, k)
  {
    if n <= k {
      QuotientUnique(n + k - 1, k, 1, n - 1);
    } else {
      var x := n - k + k - 1;
      QuotientUnique(x + k, k, x / k + 1, x % k);
    }
  }

  lemma CeilDivZero(k: nat)
    requires 0 < k
    ensures CeilDiv(0, k) == 0
  {
    QuotientUnique(k - 1, k, 0, k - 1);
  }

  /** Draining takes exactly ceil(n / min(limit, 500)) non-empty polls. */
  lemma {:induction false} DrainCount(log: seq<Event>, target: Option<Uri>, cursor: int, limit: nat)
    requires Ascending(log) && limit > 0
    ensures PollsToDrain(log, target, cursor, limit) ==
            CeilDiv(|After(log, target, cursor)|, Min(limit, 500))
    decreases |After(log, target, cursor)|
  {
    var rows := After(log, target, cursor);
    var page := Page(log, target, cursor, limit, []);
    var k := Min(limit, PAGE_CAP);
    UnfilteredPoll(log, target, cursor, limit);
    if rows == [] {
      CeilDivZero(k);
    } else {
      DrainCount(log, target, NextCursor(page, cursor), limit);
      CeilDivStep(|rows|, k);
      CeilDivZero(k);
    }
  }

  // ---------------------------------------------------------------- stalling

  /** A filtered poll advances exactly when one of the first min(limit, 500) target events
      after the cursor has a requested type; otherwise the client polls the same page forever. */
  lemma StallCondition(log: seq<Event>, target: Option<Uri>, cursor: int, limit: nat, types: seq<EventType>)
    requires Ascending(log)
    ensures var rows := After(log, target, cursor);
            NextCursor(Page(log, target, cursor, limit, types), cursor) > cursor <==>
            exists i :: 0 <= i < Min(Min(limit, 500), |rows|) && OfTypes(rows[i], types)
  {
    var rows := After(log, target, cursor);
    var k := Min(Min(limit, PAGE_CAP), |rows|);
    PollIsWindow(log, target, cursor, limit, types);
    OfTypeNonEmpty(rows[..k], types);
    if i :| 0 <= i < k && Wanted(rows[i], types) {
      assert rows[..k][i] == rows[i];
    }
  }

  lemma {:induction false} OfTypeNonEmpty(rows: seq<Event>, types: seq<EventType>)
    ensures OfType(rows, types) != [] <==> exists i :: 0 <= i < |rows| && Wanted(rows[i], types)
  {
    if rows != [] {
      OfTypeNonEmpty(rows[..|rows| - 1], types);
    }
  }

  // ---------------------------------------------------------------- recent window

  /** `Store::read_recent_events_for_resource`: the last `min(limit, 500)` events of the target's view. */
  function Recent(log: seq<Event>, target: Uri, limit: nat): seq<Event> {
    var view := Window(log, Some(target), [], -1, LastSeq(log));
    view[|view| - Min(Min(limit, PAGE_CAP), |view|)..]
  }

  // ---------------------------------------------------------------- writers meet readers

  lemma OneAhead(log: seq<Event>, e: Event, target: Option<Uri>)
    requires Ascending(log) && e.serverSeq == LastSeq(log) + 1 && Targets(e, target)
    ensures After(log + [e], target, LastSeq(log)) == [e]
  {
    forall i | 0 <= i < |log| ensures log[i].serverSeq <= LastSeq(log) {}
    WindowAppend(log, e, target, [], LastSeq(log), LastSeq(log) + 1);
    WindowEmpty(log, target, [], LastSeq(log), LastSeq(log) + 1);
  }

  /** A reader that has come to the end of the log is delivered the next event that concerns it, alone. */
  lemma AppendedIsNext(log: seq<Event>, e: Event, target: Option<Uri>, limit: nat)
    requires Ascending(log) && e.serverSeq == LastSeq(log) + 1 && About(e, target) && limit > 0
    ensures Page(log + [e], target, LastSeq(log), limit, []) == [e]
  {
    OneAhead(log, e, target);
    var rows := After(log + [e], target, LastSeq(log));
    assert Min(Min(limit, PAGE_CAP), |rows|) == 1 && rows[..1] == [e];
    OfTypeAll([e]);
  }
}
