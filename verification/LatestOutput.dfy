/** The latest output of a turn: reverse scans over the turn's recent events. */
module LatestOutput {
  import opened Types
  import opened Vocabulary
  import opened Wrappers
  import opened EventLog
  import opened Text

  // ---------------------------------------------------------------- text in payloads

  /** `current.get(key)` along a path. */
  function AtPath(value: Json, path: seq<string>): Option<Json> {
    if path == [] then Some(value)
    else
      match Get(value, path[0])
      case Some(inner) => AtPath(inner, path[1..])
      case None => None
  }

  /** `string_path`: the text at a path, if it is a string that is not blank. */
  function TextAt(value: Json, path: seq<string>): Option<string> {
    match AtPath(value, path)
    case Some(JStr(text)) => if Blank(text) then None else Some(text)
    case _ => None
  }

  function FirstText(value: Json, paths: seq<seq<string>>): Option<string> {
    if paths == [] then None
    else if TextAt(value, paths[0]).Some? then TextAt(value, paths[0])
    else FirstText(value, paths[1..])
  }

  ghost predicate FirstAt(value: Json, paths: seq<seq<string>>, text: string, i: int) {
    0 <= i < |paths| && AtPath(value, paths[i]) == Some(JStr(text)) && forall j :: 0 <= j < i ==> TextAt(value, paths[j]).None?
  }

  /** The text found is the first one along the paths that is not blank. */
  lemma {:induction false} FirstTextIs(value: Json, paths: seq<seq<string>>)
    ensures match FirstText(value, paths)
            case Some(text) => !Blank(text) && exists i :: FirstAt(value, paths, text, i)
            case None => forall i :: 0 <= i < |paths| ==> TextAt(value, paths[i]).None?
  {
    if paths != [] && TextAt(value, paths[0]).Some? {
      assert FirstAt(value, paths, TextAt(value, paths[0]).value, 0);
    } else if paths != [] {
      FirstTextIs(value, paths[1..]);
      if FirstText(value, paths[1..]).Some? {
        var text := FirstText(value, paths[1..]).value;
        var i :| FirstAt(value, paths[1..], text, i);
        forall j | 0 <= j < i + 1 ensures TextAt(value, paths[j]).None? {
          if j > 0 { assert paths[j] == paths[1..][j - 1]; }
        }
        assert FirstAt(value, paths, text, i + 1);
      } else {
        forall i | 0 <= i < |paths| ensures TextAt(value, paths[i]).None? {
          if i > 0 { assert paths[i] == paths[1..][i - 1]; }
        }
      }
    }
  }

  // ---------------------------------------------------------------- the three classes

  datatype Source = AssistantText | TurnSummary | ErrorText

  predicate InClass(e: Event, source: Source) {
    match source
    case AssistantText => e.eventType == AssistantMessage
    case TurnSummary =>
      || e.eventType == TurnCompleted || e.eventType == TurnFailed || e.eventType == TurnCancelled || e.eventType == MessageCompleted
    case ErrorText => e.eventType == SessionError
  }

  function Paths(source: Source): seq<seq<string>> {
    match source
    case AssistantText => [["data", "content"], ["content"]]
    case TurnSummary => [["summary"], ["content"]]
    case ErrorText => [["data", "message"], ["message"], ["summary"]]
  }

  function ShownText(e: Event, source: Source): Option<string> {
    FirstText(e.payload, Paths(source))
  }

  /** The event has text to show in the class. */
  predicate Shows(e: Event, source: Source) {
    InClass(e, source) && ShownText(e, source).Some?
  }

  // ---------------------------------------------------------------- the scans

  datatype Extracted = Extracted(text: string, source: Source, event: Event)

  /** `events.iter().rev().filter(..).find_map(..)`. */
  function LatestIn(events: seq<Event>, source: Source): Option<Extracted> {
    if events == [] then None
    else
      var e := events[|events| - 1];
      if InClass(e, source) && ShownText(e, source).Some? then Some(Extracted(ShownText(e, source).value, source, e))
      else LatestIn(events[..|events| - 1], source)
  }

  /** `extract_latest_result`. */
  function ExtractLatest(events: seq<Event>): Option<Extracted> {
    var message := LatestIn(events, AssistantText);
    if message.Some? then message
    else
      var summary := LatestIn(events, TurnSummary);
      if summary.Some? then summary else LatestIn(events, ErrorText)
  }

  datatype Output = Output(eventCursor: int, sourceEvent: Option<Event>, text: Option<string>, source: Option<Source>, needsInspection: bool)

  /** `latest_output_from_events`. */
  function OutputOf(sessionCursor: int, events: seq<Event>): Output {
    var last := if events == [] then None else Some(events[|events| - 1]);
    var cursor := if last.Some? then last.value.serverSeq else sessionCursor;
    match ExtractLatest(events)
    case Some(x) => Output(cursor, Some(x.event), Some(x.text), Some(x.source), false)
    case None => Output(cursor, last, None, None, true)
  }

  // ---------------------------------------------------------------- what they find

  /** The event at `i` is the last one of the class that has text. */
  ghost predicate LastShown(events: seq<Event>, source: Source, i: int) {
    0 <= i < |events| && Shows(events[i], source) && forall j :: i < j < |events| ==> !Shows(events[j], source)
  }

  ghost predicate NoneShown(events: seq<Event>, source: Source) {
    forall j :: 0 <= j < |events| ==> !Shows(events[j], source)
  }

  lemma {:induction false} LatestInIs(events: seq<Event>, source: Source)
    ensures LatestIn(events, source).None? <==> NoneShown(events, source)
    ensures LatestIn(events, source).Some? ==>
              exists i :: LastShown(events, source, i) && LatestIn(events, source) == Some(Extracted(ShownText(events[i], source).value, source, events[i]))
  {
    if events != [] {
      var front := events[..|events| - 1];
      if Shows(events[|events| - 1], source) {
        assert LastShown(events, source, |events| - 1);
      } else {
        LatestInIs(front, source);
        if LatestIn(front, source).Some? {
          var i :| LastShown(front, source, i) && LatestIn(front, source) == Some(Extracted(ShownText(front[i], source).value, source, front[i]));
          assert LastShown(events, source, i) && events[i] == front[i];
        } else {
          forall j | 0 <= j < |events| ensures !Shows(events[j], source) {
            if j < |front| { assert !Shows(front[j], source); }
          }
        }
      }
    }
  }

  // ---------------------------------------------------------------- what an event tells

  /** The text of a field, if it is a string that is not blank. */
  function Field(payload: Json, key: string): Option<string> {
    match GetStr(payload, key)
    case Some(text) => if Blank(text) then None else Some(text)
    case None => None
  }

  /** The same inside the payload's "data". */
  function DataField(payload: Json, key: string): Option<string> {
    match Get(payload, "data")
    case Some(data) => Field(data, key)
    case None => None
  }

  function Either(a: Option<string>, b: Option<string>): Option<string> {
    if a.Some? then a else b
  }

  /** The text an event tells in a class: an assistant message its content, a turn's end or a completed
      message its summary or else its content, a session error its message or else its summary. */
  function Told(e: Event, source: Source): Option<string> {
    match source
    case AssistantText =>
      if e.eventType == AssistantMessage then Either(DataField(e.payload, "content"), Field(e.payload, "content")) else None
    case TurnSummary =>
      if e.eventType == TurnCompleted || e.eventType == TurnFailed || e.eventType == TurnCancelled || e.eventType == MessageCompleted
      then Either(Field(e.payload, "summary"), Field(e.payload, "content")) else None
    case ErrorText =>
      if e.eventType == SessionError
      then Either(DataField(e.payload, "message"), Either(Field(e.payload, "message"), Field(e.payload, "summary"))) else None
  }

  lemma TextAtOne(value: Json, key: string)
    ensures TextAt(value, [key]) == Field(value, key)
  {
    if Get(value, key).Some? {
      assert [key][1..] == [];
      assert AtPath(value, [key]) == AtPath(Get(value, key).value, []);
    }
  }

  lemma TextAtTwo(value: Json, key: string)
    ensures TextAt(value, ["data", key]) == DataField(value, key)
  {
    if Get(value, "data").Some? {
      assert ["data", key][1..] == [key];
      assert AtPath(value, ["data", key]) == AtPath(Get(value, "data").value, [key]);
      TextAtOne(Get(value, "data").value, key);
    }
  }

  lemma FirstOfTwo(value: Json, a: seq<string>, b: seq<string>)
    ensures FirstText(value, [a, b]) == Either(TextAt(value, a), TextAt(value, b))
  {
    assert [a, b][1..] == [b] && [b][1..] == [];
    assert FirstText(value, []) == None && FirstText(value, [b]) == TextAt(value, b);
  }

  lemma FirstOfThree(value: Json, a: seq<string>, b: seq<string>, c: seq<string>)
    ensures FirstText(value, [a, b, c]) == Either(TextAt(value, a), Either(TextAt(value, b), TextAt(value, c)))
  {
    assert [a, b, c][1..] == [b, c];
    FirstOfTwo(value, b, c);
  }

  /** The scans look for exactly what events tell. */
  lemma ShownIsTold(e: Event, source: Source)
    ensures Told(e, source) == if Shows(e, source) then ShownText(e, source) else None
  {
    TextAtTwo(e.payload, "content");
    TextAtOne(e.payload, "content");
    TextAtOne(e.payload, "summary");
    TextAtTwo(e.payload, "message");
    TextAtOne(e.payload, "message");
    FirstOfTwo(e.payload, ["data", "content"], ["content"]);
    FirstOfTwo(e.payload, ["summary"], ["content"]);
    FirstOfThree(e.payload, ["data", "message"], ["message"], ["summary"]);
  }

  ghost predicate NoneTold(events: seq<Event>, source: Source) {
    forall j :: 0 <= j < |events| ==> Told(events[j], source).None?
  }

  lemma NoneShownIsNoneTold(events: seq<Event>, source: Source)
    ensures NoneShown(events, source) <==> NoneTold(events, source)
  {
    forall j | 0 <= j < |events| ensures Told(events[j], source).None? <==> !Shows(events[j], source) {
      ShownIsTold(events[j], source);
    }
  }

  /** The text shown is what the highest-numbered event of the first class that tells anything tells:
      assistant messages, then summaries, then errors. Inspection is asked for exactly when no event
      tells anything in any class, and then points to the last event. */
  ghost predicate RightOutput(events: seq<Event>, sessionCursor: int, out: Output) {
    && (out.needsInspection <==> forall c: Source :: NoneTold(events, c))
    && (out.needsInspection ==> out.text.None? && out.source.None? && out.sourceEvent == if events == [] then None else Some(events[|events| - 1]))
    && (!out.needsInspection ==>
          && out.source.Some? && out.sourceEvent.Some? && out.sourceEvent.value in events
          && out.text.Some? && out.text == Told(out.sourceEvent.value, out.source.value)
          && (forall e :: e in events && Told(e, out.source.value).Some? ==> e.serverSeq <= out.sourceEvent.value.serverSeq)
          && (out.source != Some(AssistantText) ==> NoneTold(events, AssistantText))
          && (out.source == Some(ErrorText) ==> NoneTold(events, TurnSummary)))
    && out.eventCursor == (if events == [] then sessionCursor else events[|events| - 1].serverSeq)
  }

  lemma FoundIsRight(events: seq<Event>, sessionCursor: int, i: int, source: Source)
    requires Ascending(events) && LastShown(events, source, i)
    requires ExtractLatest(events) == Some(Extracted(ShownText(events[i], source).value, source, events[i]))
    requires source != AssistantText ==> NoneTold(events, AssistantText)
    requires source == ErrorText ==> NoneTold(events, TurnSummary)
    ensures RightOutput(events, sessionCursor, OutputOf(sessionCursor, events))
  {
    ShownIsTold(events[i], source);
    assert !NoneTold(events, source);
    forall e | e in events && Told(e, source).Some? ensures e.serverSeq <= events[i].serverSeq {
      var j :| 0 <= j < |events| && events[j] == e;
      ShownIsTold(e, source);
    }
  }

  lemma LatestOutputIsRight(sessionCursor: int, events: seq<Event>)
    requires Ascending(events)
    ensures RightOutput(events, sessionCursor, OutputOf(sessionCursor, events))
  {
    LatestInIs(events, AssistantText);
    LatestInIs(events, TurnSummary);
    LatestInIs(events, ErrorText);
    NoneShownIsNoneTold(events, AssistantText);
    NoneShownIsNoneTold(events, TurnSummary);
    NoneShownIsNoneTold(events, ErrorText);
    if ExtractLatest(events).Some? {
      var x := ExtractLatest(events).value;
      var i :| LastShown(events, x.source, i) && x == Extracted(ShownText(events[i], x.source).value, x.source, events[i]);
      FoundIsRight(events, sessionCursor, i, x.source);
    } else {
      forall c: Source ensures NoneTold(events, c) {
        match c
        case AssistantText =>
        case TurnSummary =>
        case ErrorText =>
      }
    }
  }

  /** The newest assistant message with content in its "data" is what is shown, whatever else happened. */
  lemma AssistantContentIsShown(sessionCursor: int, events: seq<Event>, i: int, text: string)
    requires Ascending(events) && 0 <= i < |events| && events[i].eventType == AssistantMessage
    requires events[i].payload.JObj? && "data" in events[i].payload.fields && HasText(events[i].payload.fields["data"], "content", text) && !Blank(text)
    requires forall j :: i < j < |events| ==> Told(events[j], AssistantText).None?
    ensures OutputOf(sessionCursor, events).text == Some(text) && OutputOf(sessionCursor, events).sourceEvent == Some(events[i])
    ensures !OutputOf(sessionCursor, events).needsInspection
  {
    LatestOutputIsRight(sessionCursor, events);
    var out := OutputOf(sessionCursor, events);
    assert Told(events[i], AssistantText) == Some(text);
    assert !NoneTold(events, AssistantText);
    var j :| 0 <= j < |events| && events[j] == out.sourceEvent.value;
  }

  // ---------------------------------------------------------------- the recent window

  /** The window over which the scans run is the exact ascending suffix of the turn's view: it holds
      the last min(limit, 500) of its events, and no event of the view outside it is newer. */
  lemma RecentIsSuffix(log: seq<Event>, target: Uri, limit: nat, e: Event)
    requires Ascending(log) && (forall i :: 0 <= i < |log| ==> log[i].serverSeq >= 1)
    ensures var recent := Recent(log, target, limit);
            var view := Window(log, Some(target), [], -1, LastSeq(log));
            && Ascending(recent) && |recent| == Min(Min(limit, 500), |view|)
            && (e in view <==> e in log && About(e, Some(target)))
            && (e in recent ==> e in view)
            && (e in view && e !in recent ==> forall i :: 0 <= i < |recent| ==> e.serverSeq < recent[i].serverSeq)
  {
    var view := Window(log, Some(target), [], -1, LastSeq(log));
    var recent := Recent(log, target, limit);
    WindowAscending(log, Some(target), [], -1, LastSeq(log));
    WindowMembers(log, Some(target), [], -1, LastSeq(log), e);
    var k := |view| - |recent|;
    assert recent == view[k..];
    if e in view && e !in recent {
      var j := OutsideSuffix(view, k, e);
    }
  }

  lemma RecentAscending(log: seq<Event>, target: Uri, limit: nat)
    requires Ascending(log)
    ensures Ascending(Recent(log, target, limit))
  {
    WindowAscending(log, Some(target), [], -1, LastSeq(log));
  }

  lemma OutsideSuffix(view: seq<Event>, k: nat, e: Event) returns (j: nat)
    requires k <= |view| && e in view && e !in view[k..]
    ensures j < k && view[j] == e
  {
    assert view == view[..k] + view[k..];
    j :| 0 <= j < |view[..k]| && view[..k][j] == e;
  }
}
