/** The message handler of the two JavaScript copies (the standalone server
    and the desktop app), which is the same code in both: the pure
    transition `JsStep` that specifies it, its properties, and `CueRecord`,
    the `currentState` object that the handler updates field by field. */
module JsCue {
  import opened Wrappers
  import opened Osc
  import opened Text
  import opened CuePattern
  import opened Cue

  // ---------------------------------------------------------------------
  // Sequence label from the address

  /** `address.split('/').filter(p => p)`. */
  function Segments(address: string): (r: seq<string>)
    ensures forall k :: 0 <= k < |r| ==> r[k] != "" && '/' !in r[k]
  {
    var r := NonEmpty(Split(address, '/'));
    assert forall k :: 0 <= k < |r| ==> '/' !in r[k] by {
      NonEmptySubset(Split(address, '/'), '/');
    }
    r
  }

  lemma {:induction false} NonEmptySubset(parts: seq<string>, c: char)
    requires forall k :: 0 <= k < |parts| ==> c !in parts[k]
    ensures forall k :: 0 <= k < |NonEmpty(parts)| ==> c !in NonEmpty(parts)[k]
    decreases |parts|
  {
    if parts != [] {
      NonEmptySubset(parts[1..], c);
    }
  }

  /** The label a segment gives: `"Seq "` and its last dot-separated token
      when it contains a dot, the segment itself otherwise. */
  function SegmentLabel(seg: string): (r: string)
    ensures '.' !in seg ==> r == seg
    ensures '.' in seg ==> |r| >= 4 && r[..4] == "Seq " && '.' !in r[4..]
  {
    if '.' in seg then "Seq " + Last(Split(seg, '.')) else seg
  }

  /** The `sequenceName` after a message to `address`, when it was `prev`. */
  function SeqLabel(address: string, prev: string): (r: string)
    ensures Segments(address) == [] ==> r == prev
    ensures Segments(address) != [] ==> r != ""
  {
    var parts := Segments(address);
    if |parts| == 0 then prev else SegmentLabel(Last(parts))
  }

  /** The label comes from the last non-empty segment of the address. */
  lemma LabelOfLastSegment(a: string, seg: string, prev: string)
    requires seg != "" && '/' !in seg
    ensures SeqLabel(a + "/" + seg, prev) == SegmentLabel(seg)
  {
    SplitAround(a, '/', seg);
    assert a + "/" + seg == a + ['/'] + seg;
    SplitWithout(seg, '/');
    NonEmptyAppend(Split(a, '/'), [seg]);
  }

  /** Trailing slashes (empty segments) do not matter. */
  lemma LabelIgnoresTrailingSlash(a: string, prev: string)
    ensures SeqLabel(a + "/", prev) == SeqLabel(a, prev)
  {
    SplitAround(a, '/', "");
    assert a + "/" == a + ['/'] + "";
    NonEmptyAppend(Split(a, '/'), [""]);
  }

  /** An address has no non-empty segment exactly when it is made of slashes
      only; then `sequenceName` is left as it was. */
  lemma NoSegmentIffOnlySlashes(a: string, prev: string)
    ensures Segments(a) == [] <==> forall k :: 0 <= k < |a| ==> a[k] == '/'
    ensures (forall k :: 0 <= k < |a| ==> a[k] == '/') ==> SeqLabel(a, prev) == prev
  {
    assert Segments(a) == NonEmpty(Split(a, '/'));
    SplitAllEmpty(a, '/');
    NonEmptyNone(Split(a, '/'));
  }

  /** A dotted segment is labelled by the token after its last dot. */
  lemma DottedSegmentLabel(p: string, t: string)
    requires '.' !in t
    ensures SegmentLabel(p + "." + t) == "Seq " + t
  {
    assert p + "." + t == p + ['.'] + t;
    assert (p + "." + t)[|p|] == '.';
    SplitAround(p, '.', t);
    SplitWithout(t, '.');
  }

  /** An object path `/<p>.<t>` names the sequence by its last token `t`. */
  lemma DottedAddressLabel(p: string, t: string, prev: string)
    requires '/' !in p && '/' !in t && '.' !in t
    ensures SeqLabel("/" + p + "." + t, prev) == "Seq " + t
  {
    var seg := p + "." + t;
    assert '/' !in seg by {
      assert forall k :: 0 <= k < |seg| ==> seg[k] == (if k < |p| then p[k] else if k == |p| then '.' else t[k - |p| - 1]);
    }
    assert seg != "" by { assert seg[|p|] == '.'; }
    assert "/" + p + "." + t == "" + "/" + seg;
    LabelOfLastSegment("", seg, prev);
    DottedSegmentLabel(p, t);
  }

  /** The example of the address convention: the object path
      `/14.14.1.6.67` names sequence 67. */
  lemma DottedAddressExample(prev: string)
    ensures SeqLabel("/14.14.1.6.67", prev) == "Seq 67"
  {
    assert "/14.14.1.6.67" == "/" + "14.14.1.6" + "." + "67";
    DottedAddressLabel("14.14.1.6", "67", prev);
  }

  /** A plain last segment names the sequence verbatim. */
  lemma PlainAddressExample(prev: string)
    ensures SeqLabel("/cue/Main", prev) == "Main"
  {
    assert '/' !in "Main" && '.' !in "Main";
    assert "/cue/Main" == "/cue" + "/" + "Main";
    LabelOfLastSegment("/cue", "Main", prev);
  }

  // ---------------------------------------------------------------------
  // Action dispatch

  /** `arg.value` compared with a string: only a string value can be equal. */
  function StringValue(a: Arg): Option<string> {
    match a
    case S(s) => Some(s)
    case Other(_, t) => t
    case _ => None
  }

  /** `args[0]?.value`, when it is a string. */
  function JsAction(args: seq<Arg>): Option<string> {
    if |args| > 0 then StringValue(args[0]) else None
  }

  /** The four cue-trigger verbs. */
  predicate IsTrigger(action: string) {
    action == "Go+" || action == "Go-" || action == "Goto" || action == "Top"
  }

  predicate JsIsTrigger(m: Message) {
    JsAction(m.args).Some? && IsTrigger(JsAction(m.args).value)
  }

  predicate JsIsFader(m: Message) {
    JsAction(m.args) == Some("FaderMaster")
  }

  /** A trigger whose third argument is a string: the cue name. */
  predicate JsNamed(m: Message) {
    JsIsTrigger(m) && |m.args| > 2 && m.args[2].S?
  }

  /** The pattern's match on the cue name of a named trigger. */
  function JsHit(m: Message): Option<(string, string)> {
    if JsNamed(m) then CueNumberOf(m.args[2].s) else None
  }

  /** The second argument carries a number (`i` or `f`). */
  predicate NumberArg(m: Message) {
    |m.args| > 1 && m.args[1].IsNumeric()
  }

  /** `!cueNumber || cueNumber === '--'`. */
  predicate JsUnset(n: string) {
    n == "" || n == Unknown
  }

  /** `value.toString()` of a numeric argument; the rendering of floats is a
      parameter of the model. */
  function NumberText(a: Arg, floatText: real -> string): (r: string)
    requires a.IsNumeric()
    ensures a.I? ==> ParseInt(r) == Some(a.i) && r != "" && r != Unknown
    ensures a.F? ==> r == floatText(a.x)
  {
    if a.I? then IntToStringRoundTrip(a.i); IntToString(a.i) else floatText(a.x)
  }

  /** The action part of the handler, applied to the record `b` whose
      connection fields and sequence label are already updated. */
  function JsDispatch(b: CueState, m: Message, floatText: real -> string): (r: CueState)
    ensures r.connected == b.connected && r.lastUpdate == b.lastUpdate && r.sequenceName == b.sequenceName
    ensures r.isActive == (b.isActive || JsIsTrigger(m))
    ensures !JsIsTrigger(m) ==> r.cueName == b.cueName && r.cueNumber == b.cueNumber
    ensures JsIsTrigger(m) ==> r.progress == b.progress
  {
    if JsIsTrigger(m) then
      var named :=
        if JsNamed(m) then
          var hit := CueNumberOf(m.args[2].s);
          b.(cueName := m.args[2].s,
             cueNumber := if hit.Some? then hit.value.1 else b.cueNumber)
        else b;
      var numbered :=
        if NumberArg(m) && JsUnset(named.cueNumber)
        then named.(cueNumber := NumberText(m.args[1], floatText))
        else named;
      numbered.(isActive := true)
    else if JsIsFader(m) && |m.args| > 2 && m.args[2].F? then
      b.(progress := m.args[2].x * 100.0)
    else b
  }

  /** The handler's effect on `currentState` for one message received at
      `now`. */
  function JsStep(s: CueState, m: Message, now: string, floatText: real -> string): (r: CueState)
    ensures r.connected && r.lastUpdate == Some(now)
    ensures r.sequenceName == SeqLabel(m.address, s.sequenceName)
    ensures r.isActive == (s.isActive || JsIsTrigger(m))
    ensures r.cueName == if JsNamed(m) then m.args[2].s else s.cueName
    // a number found in the cue name always wins
    ensures JsHit(m).Some? ==> r.cueNumber == JsHit(m).value.1
    // the numeric argument only fills a number that is still unset
    ensures JsIsTrigger(m) && JsHit(m).None? && NumberArg(m) && JsUnset(s.cueNumber) ==>
              r.cueNumber == NumberText(m.args[1], floatText)
    ensures !JsIsTrigger(m) || (JsHit(m).None? && !(NumberArg(m) && JsUnset(s.cueNumber))) ==>
              r.cueNumber == s.cueNumber
    ensures r.progress == if JsIsFader(m) && |m.args| > 2 && m.args[2].F? then m.args[2].x * 100.0 else s.progress
  {
    JsDispatch(s.(connected := true, lastUpdate := Some(now),
                  sequenceName := SeqLabel(m.address, s.sequenceName)), m, floatText)
  }

  // ---------------------------------------------------------------------
  // Properties over several messages

  /** Handling the same message twice at the same time gives the same record
      as handling it once: the second pass finds the number already set. */
  lemma JsStepIdempotent(s: CueState, m: Message, now: string, floatText: real -> string)
    ensures JsStep(JsStep(s, m, now, floatText), m, now, floatText) == JsStep(s, m, now, floatText)
  {
    var r := JsStep(s, m, now, floatText);
    var r2 := JsStep(r, m, now, floatText);
    assert r2.sequenceName == r.sequenceName by {
      if |Segments(m.address)| == 0 {
        assert r.sequenceName == s.sequenceName;
      }
    }
  }

  /** The records after each message of a run, in order. */
  function JsTrace(s: CueState, rs: seq<Received>, floatText: real -> string): (t: seq<CueState>)
    ensures |t| == |rs|
    decreases |rs|
  {
    if rs == [] then []
    else
      var next := JsStep(s, rs[0].msg, rs[0].at, floatText);
      [next] + JsTrace(next, rs[1..], floatText)
  }

  /** The record after a run of messages. */
  function JsRun(s: CueState, rs: seq<Received>, floatText: real -> string): CueState
    decreases |rs|
  {
    if rs == [] then s else JsRun(JsStep(s, rs[0].msg, rs[0].at, floatText), rs[1..], floatText)
  }

  /** The record after a non-empty run is the last one of its trace. */
  lemma {:induction false} JsRunIsLastOfTrace(s: CueState, rs: seq<Received>, floatText: real -> string)
    requires |rs| > 0
    ensures JsRun(s, rs, floatText) == Last(JsTrace(s, rs, floatText))
    decreases |rs|
  {
    if |rs| > 1 {
      JsRunIsLastOfTrace(JsStep(s, rs[0].msg, rs[0].at, floatText), rs[1..], floatText);
    }
  }

  /** Record `k` of the trace is the record after the first `k + 1`
      messages. */
  lemma {:induction false} JsTraceRecords(s: CueState, rs: seq<Received>, floatText: real -> string)
    ensures forall k :: 0 <= k < |rs| ==> JsTrace(s, rs, floatText)[k] == JsRun(s, rs[..k + 1], floatText)
    decreases |rs|
  {
    if rs != [] {
      var next := JsStep(s, rs[0].msg, rs[0].at, floatText);
      JsTraceRecords(next, rs[1..], floatText);
      forall k | 0 <= k < |rs|
        ensures JsTrace(s, rs, floatText)[k] == JsRun(s, rs[..k + 1], floatText)
      {
        assert rs[..k + 1][0] == rs[0];
        assert rs[..k + 1][1..] == rs[1..][..k];
      }
    }
  }

  /** `connected` and `isActive` never go back to false, whatever arrives;
      after any message `connected` is true and `lastUpdate` is its time. */
  lemma {:induction false} JsRunMonotone(s: CueState, rs: seq<Received>, floatText: real -> string)
    ensures s.connected ==> JsRun(s, rs, floatText).connected
    ensures s.isActive ==> JsRun(s, rs, floatText).isActive
    ensures |rs| > 0 ==> JsRun(s, rs, floatText).connected
    ensures |rs| > 0 ==> JsRun(s, rs, floatText).lastUpdate == Some(Last(rs).at)
    decreases |rs|
  {
    if rs != [] {
      var next := JsStep(s, rs[0].msg, rs[0].at, floatText);
      JsRunMonotone(next, rs[1..], floatText);
      if |rs| > 1 {
        assert Last(rs[1..]) == Last(rs);
      }
    }
  }

  /** Once the cue number is set, the numeric argument never replaces it:
      across a run in which no cue name yields a number, it stays. */
  lemma {:induction false} JsNumberSticky(s: CueState, rs: seq<Received>, floatText: real -> string)
    requires !JsUnset(s.cueNumber)
    requires forall k :: 0 <= k < |rs| ==> JsHit(rs[k].msg).None?
    ensures JsRun(s, rs, floatText).cueNumber == s.cueNumber
    decreases |rs|
  {
    if rs != [] {
      var next := JsStep(s, rs[0].msg, rs[0].at, floatText);
      assert JsHit(rs[0].msg).None?;
      assert forall k :: 0 <= k < |rs[1..]| ==> rs[1..][k] == rs[k + 1];
      JsNumberSticky(next, rs[1..], floatText);
    }
  }

  /** A trigger carrying only a name followed by a trigger carrying only a
      number keeps both: the name from the first, the number from the
      second. */
  lemma NameThenNumber(s: CueState, name: string, n: int, t1: string, t2: string,
                       addr: string, floatText: real -> string)
    requires s.cueNumber == Unknown
    requires CueNumberOf(name).None?
    ensures var r := JsRun(s, [Received(Message(addr, [S("Go+"), S(""), S(name)]), t1),
                               Received(Message(addr, [S("Goto"), I(n)]), t2)], floatText);
            r.cueName == name && r.cueNumber == IntToString(n) && r.isActive
  {
    var rs := [Received(Message(addr, [S("Go+"), S(""), S(name)]), t1),
               Received(Message(addr, [S("Goto"), I(n)]), t2)];
    var s1 := JsStep(s, rs[0].msg, t1, floatText);
    assert JsNamed(rs[0].msg) && !NumberArg(rs[0].msg);
    assert s1.cueName == name && s1.cueNumber == Unknown;
    var s2 := JsStep(s1, rs[1].msg, t2, floatText);
    assert JsIsTrigger(rs[1].msg) && !JsNamed(rs[1].msg) && NumberArg(rs[1].msg);
    assert s2.cueName == name && s2.cueNumber == IntToString(n) && s2.isActive;
    assert rs[1..][1..] == [];
    assert JsRun(s, rs, floatText) == JsRun(s1, rs[1..], floatText) == JsRun(s2, [], floatText);
  }

  /** A named trigger whose name carries a number: the number comes from the
      name, and the numeric argument is not used. */
  lemma IntroSongExample(s: CueState, addr: string, now: string, floatText: real -> string)
    ensures var r := JsStep(s, Message(addr, [S("Go+"), I(5), S("Intro Song 5 Verse 1")]), now, floatText);
            r.cueName == "Intro Song 5 Verse 1" && r.cueNumber == "5" && r.isActive
  {
    var m := Message(addr, [S("Go+"), I(5), S("Intro Song 5 Verse 1")]);
    assert "Intro Song 5 Verse 1" == "Intro Song" + " " + "5" + " " + "Verse 1";
    assert IsNumeral("5");
    NameNumberRest("Intro Song", "5", "Verse 1");
    assert JsNamed(m);
  }

  /** A trigger with only a number fills an unknown cue number with it. */
  lemma GotoNumberExample(s: CueState, addr: string, now: string, floatText: real -> string)
    requires s.cueNumber == Unknown
    ensures JsStep(s, Message(addr, [S("Goto"), I(9)]), now, floatText).cueNumber == "9"
  {
    var m := Message(addr, [S("Goto"), I(9)]);
    assert JsIsTrigger(m) && !JsNamed(m) && NumberArg(m);
    assert IntToString(9) == "9";
  }

  /** A fader level of 0.73 shows as 73 percent; nothing but the bookkeeping
      and the progress changes. */
  lemma FaderExample(s: CueState, addr: string, now: string, floatText: real -> string)
    ensures var r := JsStep(s, Message(addr, [S("FaderMaster"), I(0), F(0.73)]), now, floatText);
            r.progress == 73.0 && r.cueNumber == s.cueNumber && r.cueName == s.cueName &&
            r.isActive == s.isActive
  {
    var m := Message(addr, [S("FaderMaster"), I(0), F(0.73)]);
    assert JsIsFader(m) && !JsIsTrigger(m);
  }

  // ---------------------------------------------------------------------
  // The record the handler mutates

  /** `currentState`: one object whose fields the handler assigns in place. */
  class CueRecord {
    var sequenceName: string
    var cueNumber: string
    var cueName: string
    var progress: real
    var isActive: bool
    var lastUpdate: Option<string>
    var connected: bool

    /** The record as it is serialised (`JSON.stringify(currentState)`). */
    function Snapshot(): CueState
      reads this
    {
      CueState(sequenceName, cueNumber, cueName, progress, isActive, lastUpdate, connected)
    }

    constructor ()
      ensures Snapshot() == Initial
    {
      sequenceName, cueNumber, cueName := "", Unknown, "";
      progress, isActive, lastUpdate, connected := 0.0, false, None, false;
    }

    /** The `message` handler's updates, in the source's order. */
    method OnMessage(m: Message, now: string, floatText: real -> string)
      modifies this
      ensures Snapshot() == JsStep(old(Snapshot()), m, now, floatText)
    {
      connected := true;
      lastUpdate := Some(now);
      SetSequenceName(m.address);
      Dispatch(m, floatText);
    }

    /** The sequence label taken from the address. */
    method SetSequenceName(address: string)
      modifies this
      ensures Snapshot() == old(Snapshot()).(sequenceName := SeqLabel(address, old(sequenceName)))
    {
      var addressParts := NonEmpty(Split(address, '/'));
      if |addressParts| > 0 {
        var lastPart := addressParts[|addressParts| - 1];
        if '.' in lastPart {
          var pathParts := Split(lastPart, '.');
          sequenceName := "Seq " + pathParts[|pathParts| - 1];
        } else {
          sequenceName := lastPart;
        }
      }
    }

    /** The branch on `args[0].value`. */
    method Dispatch(m: Message, floatText: real -> string)
      modifies this
      ensures Snapshot() == JsDispatch(old(Snapshot()), m, floatText)
    {
      var args := m.args;
      if |args| > 0 {
        var action := StringValue(args[0]);
        if action.Some? && IsTrigger(action.value) {
          if |args| > 2 && args[2].S? {
            cueName := args[2].s;
            var hit := CueNumberOf(args[2].s);
            if hit.Some? {
              cueNumber := hit.value.1;
            }
          }
          if |args| > 1 && (args[1].I? || args[1].F?) {
            if cueNumber == "" || cueNumber == Unknown {
              cueNumber := NumberText(args[1], floatText);
            }
          }
          isActive := true;
        } else if action == Some("FaderMaster") {
          if |args| > 2 && args[2].F? {
            progress := args[2].x * 100.0;
          }
        }
      }
    }
  }
}
