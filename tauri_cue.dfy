/** The Rust copy (`parse_osc_message` and the datagram loop of
    `start_osc_server`): the same record, interpreted with three differences
    from the JavaScript handler, plus the message log and the two broadcasts
    per message. */
module TauriCue {
  import opened Wrappers
  import opened Osc
  import opened Text
  import opened CuePattern
  import opened Cue
  import opened OscLog
  import opened Hub
  import JsCue

  // ---------------------------------------------------------------------
  // The state update

  /** `if let OscType::String(action) = &msg.args[0]`: only a string argument
      is an action. */
  function RsAction(args: seq<Arg>): Option<string> {
    if |args| > 0 && args[0].S? then Some(args[0].s) else None
  }

  predicate RsIsTrigger(m: Message) {
    RsAction(m.args).Some? && JsCue.IsTrigger(RsAction(m.args).value)
  }

  /** A fader message whose level is a float. */
  predicate RsIsFader(m: Message) {
    RsAction(m.args) == Some("FaderMaster") && |m.args| > 2 && m.args[2].F?
  }

  predicate RsNamed(m: Message) {
    RsIsTrigger(m) && |m.args| > 2 && m.args[2].S?
  }

  /** The pattern's match on the cue name of a named trigger. */
  function RsHit(m: Message): Option<(string, string)> {
    if RsNamed(m) then CueNumberOf(m.args[2].s) else None
  }

  /** The action part of `parse_osc_message` on a record whose connection
      fields are already set. */
  function RsDispatch(b: CueState, m: Message, floatText: real -> string): (r: CueState)
    ensures r.connected == b.connected && r.lastUpdate == b.lastUpdate
    ensures RsHit(m).None? ==> r.sequenceName == b.sequenceName
    ensures r.isActive == (b.isActive || RsIsTrigger(m))
    ensures !RsIsTrigger(m) ==> r.cueName == b.cueName && r.cueNumber == b.cueNumber
    ensures RsIsTrigger(m) ==> r.progress == b.progress
  {
    if RsIsTrigger(m) then
      var named :=
        if RsNamed(m) then
          var hit := CueNumberOf(m.args[2].s);
          if hit.Some? then b.(cueName := m.args[2].s, sequenceName := hit.value.0, cueNumber := hit.value.1)
          else b.(cueName := m.args[2].s)
        else b;
      var numbered :=
        if |m.args| > 1 && named.cueNumber == Unknown && m.args[1].IsNumeric()
        then named.(cueNumber := JsCue.NumberText(m.args[1], floatText))
        else named;
      numbered.(isActive := true)
    else if RsIsFader(m) then
      b.(progress := m.args[2].x * 100.0)
    else b
  }

  /** The effect of one message on the record. */
  function RsStep(s: CueState, m: Message, now: string, floatText: real -> string): (r: CueState)
    ensures r.connected && r.lastUpdate == Some(now)
    // the sequence name comes from the cue name's first group, never from the address
    ensures r.sequenceName == if RsHit(m).Some? then RsHit(m).value.0 else s.sequenceName
    ensures r.isActive == (s.isActive || RsIsTrigger(m))
    ensures r.cueName == if RsNamed(m) then m.args[2].s else s.cueName
    ensures RsHit(m).Some? ==> r.cueNumber == RsHit(m).value.1
    // the numeric argument only replaces the exact sentinel
    ensures RsIsTrigger(m) && RsHit(m).None? && JsCue.NumberArg(m) && s.cueNumber == Unknown ==>
              r.cueNumber == JsCue.NumberText(m.args[1], floatText)
    ensures !RsIsTrigger(m) || (RsHit(m).None? && !(JsCue.NumberArg(m) && s.cueNumber == Unknown)) ==>
              r.cueNumber == s.cueNumber
    ensures r.progress == if RsIsFader(m) then m.args[2].x * 100.0 else s.progress
  {
    RsDispatch(s.(connected := true, lastUpdate := Some(now)), m, floatText)
  }

  /** Handling the same message twice at the same time is handling it once. */
  lemma RsStepIdempotent(s: CueState, m: Message, now: string, floatText: real -> string)
    ensures RsStep(RsStep(s, m, now, floatText), m, now, floatText) == RsStep(s, m, now, floatText)
  {
  }

  /** The address plays no part in the update. */
  lemma AddressIgnored(s: CueState, m: Message, a: string, now: string, floatText: real -> string)
    ensures RsStep(s, m.(address := a), now, floatText) == RsStep(s, m, now, floatText)
  {
    var m2 := m.(address := a);
    assert RsIsTrigger(m2) == RsIsTrigger(m) && RsNamed(m2) == RsNamed(m) && RsIsFader(m2) == RsIsFader(m);
  }

  /** The record after a run of messages. */
  function RsRun(s: CueState, rs: seq<Received>, floatText: real -> string): CueState
    decreases |rs|
  {
    if rs == [] then s else RsRun(RsStep(s, rs[0].msg, rs[0].at, floatText), rs[1..], floatText)
  }

  /** `connected` and `is_active` never go back to false; after any message
      `connected` is true and `last_update` is its time. */
  lemma {:induction false} RsRunMonotone(s: CueState, rs: seq<Received>, floatText: real -> string)
    ensures s.connected ==> RsRun(s, rs, floatText).connected
    ensures s.isActive ==> RsRun(s, rs, floatText).isActive
    ensures |rs| > 0 ==> RsRun(s, rs, floatText).connected
    ensures |rs| > 0 ==> RsRun(s, rs, floatText).lastUpdate == Some(Last(rs).at)
    decreases |rs|
  {
    if rs != [] {
      RsRunMonotone(RsStep(s, rs[0].msg, rs[0].at, floatText), rs[1..], floatText);
      if |rs| > 1 {
        assert Last(rs[1..]) == Last(rs);
      }
    }
  }

  /** Once the number is other than the sentinel, only a cue name with a
      number changes it. */
  lemma {:induction false} RsNumberSticky(s: CueState, rs: seq<Received>, floatText: real -> string)
    requires s.cueNumber != Unknown
    requires forall k :: 0 <= k < |rs| ==> RsHit(rs[k].msg).None?
    ensures RsRun(s, rs, floatText).cueNumber == s.cueNumber
    decreases |rs|
  {
    if rs != [] {
      assert RsHit(rs[0].msg).None?;
      assert forall k :: 0 <= k < |rs[1..]| ==> rs[1..][k] == rs[k + 1];
      RsNumberSticky(RsStep(s, rs[0].msg, rs[0].at, floatText), rs[1..], floatText);
    }
  }

  /** A named trigger whose name carries a number: the Rust handler takes
      the sequence name and the cue number from the name, and the numeric
      argument is not used. */
  lemma NamedCueExample(s: CueState, addr: string, now: string, floatText: real -> string)
    ensures var r := RsStep(s, Message(addr, [S("Go+"), I(3), S("Intro Song 5 Verse 1")]), now, floatText);
            r.sequenceName == "Intro Song" && r.cueNumber == "5" &&
            r.cueName == "Intro Song 5 Verse 1" && r.isActive
  {
    var m := Message(addr, [S("Go+"), I(3), S("Intro Song 5 Verse 1")]);
    assert "Intro Song 5 Verse 1" == "Intro Song" + " " + "5" + " " + "Verse 1";
    assert IsNumeral("5");
    NameNumberRest("Intro Song", "5", "Verse 1");
    assert RsNamed(m);
  }

  // ---------------------------------------------------------------------
  // Where the Rust copy and the JavaScript copies part ways

  /** An empty cue number counts as unset for the JavaScript handler but not
      for the Rust one. */
  lemma EmptyNumberDiverges(s: CueState, n: int, addr: string, now: string, floatText: real -> string)
    requires s.cueNumber == ""
    ensures var m := Message(addr, [S("Goto"), I(n)]);
            JsCue.JsStep(s, m, now, floatText).cueNumber == IntToString(n) &&
            RsStep(s, m, now, floatText).cueNumber == ""
  {
    var m := Message(addr, [S("Goto"), I(n)]);
    assert JsCue.JsIsTrigger(m) && !JsCue.JsNamed(m) && JsCue.NumberArg(m);
    assert RsIsTrigger(m) && !RsNamed(m);
  }

  /** A trigger verb carried by an argument that is not an OSC string (for
      instance a symbol) triggers the JavaScript handler only. */
  lemma NonStringActionDiverges(s: CueState, tag: char, addr: string, now: string, floatText: real -> string)
    requires tag !in "ifsd"
    ensures var m := Message(addr, [Other(tag, Some("Go+"))]);
            JsCue.JsStep(s, m, now, floatText).isActive &&
            RsStep(s, m, now, floatText).isActive == s.isActive
  {
    var m := Message(addr, [Other(tag, Some("Go+"))]);
    assert JsCue.JsIsTrigger(m);
    assert !RsIsTrigger(m);
  }

  /** On a cue name with a number, the Rust handler names the sequence after
      the text before the number, where the JavaScript handler uses the
      address. */
  lemma SequenceNameDiverges(s: CueState, m: Message, now: string, floatText: real -> string)
    requires RsHit(m).Some?
    ensures RsStep(s, m, now, floatText).sequenceName == RsHit(m).value.0
    ensures JsCue.JsStep(s, m, now, floatText).sequenceName == JsCue.SeqLabel(m.address, s.sequenceName)
    ensures JsCue.JsHit(m) == RsHit(m)
  {
  }

  // ---------------------------------------------------------------------
  // The backend's value: record, log and subscribers

  datatype Tauri = Tauri(state: CueState, log: seq<LogEntry>, clients: seq<Client>)

  /** At start-up: the initial record, an empty log, no subscriber. */
  const Boot := Tauri(Initial, [], [])

  /** The log entry written for a message handled at `now`. */
  function EntryOf(m: Message, now: string): (e: LogEntry)
    ensures e.timestamp == now && e.address == m.address
    ensures |e.args| == |m.args|
    ensures forall k :: 0 <= k < |m.args| ==> e.args[k] == LogArg(m.args[k])
  {
    LogEntry(now, m.address, LogArgs(m.args))
  }

  /** `parse_osc_message`: log, broadcast the entry, update the record,
      broadcast the record. Every open subscriber receives exactly two
      frames, the log entry then the new record; closed ones nothing. */
  function RsParse(t: Tauri, m: Message, now: string, floatText: real -> string): (r: Tauri)
    ensures r.state == RsStep(t.state, m, now, floatText)
    ensures r.log == Pushed(t.log, EntryOf(m, now))
    ensures |r.clients| == |t.clients|
    ensures forall k :: 0 <= k < |t.clients| ==> r.clients[k].open == t.clients[k].open
    ensures forall k :: 0 <= k < |t.clients| && t.clients[k].open ==>
              r.clients[k].outbox == t.clients[k].outbox + [OscLogFrame(EntryOf(m, now)), CueUpdate(r.state)]
    ensures forall k :: 0 <= k < |t.clients| && !t.clients[k].open ==> r.clients[k] == t.clients[k]
  {
    var e := EntryOf(m, now);
    var logged := Fanout(t.clients, OscLogFrame(e));
    var next := RsStep(t.state, m, now, floatText);
    Tauri(next, Pushed(t.log, e), Fanout(logged, CueUpdate(next)))
  }

  /** A display connects (`handle_websocket`): it gets a `state` snapshot and
      then the broadcasts. */
  function RsConnect(t: Tauri): (r: Tauri)
    ensures r.state == t.state && r.log == t.log
    ensures |r.clients| == |t.clients| + 1 && r.clients[..|t.clients|] == t.clients
    ensures Last(r.clients) == Client(true, [StateFrame(t.state)])
  {
    Tauri(t.state, t.log, t.clients + [Client(true, [StateFrame(t.state)])])
  }

  /** The elements of a bundle handled so far: a message element is parsed
      at the time `clock` gives for its position; a nested bundle is
      skipped. */
  function RsBundle(t: Tauri, content: seq<Packet>, clock: nat -> string, floatText: real -> string): (r: Tauri)
    ensures |r.clients| == |t.clients|
    ensures forall k :: 0 <= k < |t.clients| ==> r.clients[k].open == t.clients[k].open
    ensures forall k :: 0 <= k < |t.clients| && !t.clients[k].open ==> r.clients[k] == t.clients[k]
    decreases |content|
  {
    if content == [] then t
    else
      var before := RsBundle(t, content[..|content| - 1], clock, floatText);
      var last := content[|content| - 1];
      if last.Msg? then RsParse(before, last.msg, clock(|content| - 1), floatText) else before
  }

  /** One datagram: nothing happens when it does not decode; a message is
      parsed; a bundle's direct messages are parsed in order. */
  function RsDatagram(t: Tauri, d: Option<Packet>, clock: nat -> string, floatText: real -> string): (r: Tauri)
    ensures d.None? ==> r == t
    ensures d.Some? && d.value.Msg? ==> r == RsParse(t, d.value.msg, clock(0), floatText)
  {
    match d
    case None => t
    case Some(Msg(m)) => RsParse(t, m, clock(0), floatText)
    case Some(Bundle(content)) => RsBundle(t, content, clock, floatText)
  }

  /** The number of message elements directly in a bundle. */
  function MessageCount(content: seq<Packet>): (n: nat)
    ensures n <= |content|
    decreases |content|
  {
    if content == [] then 0
    else MessageCount(content[..|content| - 1]) + (if content[|content| - 1].Msg? then 1 else 0)
  }

  /** The messages directly in a bundle, in order, each with the time
      `clock` gives for its position. */
  function BundleMessages(content: seq<Packet>, clock: nat -> string): (rs: seq<Received>)
    ensures |rs| == MessageCount(content)
    decreases |content|
  {
    if content == [] then []
    else
      var n := |content| - 1;
      BundleMessages(content[..n], clock) + (if content[n].Msg? then [Received(content[n].msg, clock(n))] else [])
  }

  /** The log entries of a run of messages. */
  function Entries(rs: seq<Received>): (es: seq<LogEntry>)
    ensures |es| == |rs|
  {
    seq(|rs|, k requires 0 <= k < |rs| => EntryOf(rs[k].msg, rs[k].at))
  }

  lemma EntriesSnoc(rs: seq<Received>, r: Received)
    ensures Entries(rs + [r]) == Entries(rs) + [EntryOf(r.msg, r.at)]
  {
    assert forall k :: 0 <= k < |rs| ==> (rs + [r])[k] == rs[k];
  }

  lemma {:induction false} RsRunSnoc(s: CueState, rs: seq<Received>, r: Received, floatText: real -> string)
    ensures RsRun(s, rs + [r], floatText) == RsStep(RsRun(s, rs, floatText), r.msg, r.at, floatText)
    decreases |rs|
  {
    if rs == [] {
      assert (rs + [r])[1..] == [];
    } else {
      assert (rs + [r])[0] == rs[0];
      assert (rs + [r])[1..] == rs[1..] + [r];
      RsRunSnoc(RsStep(s, rs[0].msg, rs[0].at, floatText), rs[1..], r, floatText);
    }
  }

  lemma {:induction false} PushAllSnoc(log: seq<LogEntry>, es: seq<LogEntry>, e: LogEntry)
    ensures PushAll(log, es + [e]) == Pushed(PushAll(log, es), e)
    decreases |es|
  {
    if es == [] {
      assert (es + [e])[1..] == [];
    } else {
      assert (es + [e])[0] == es[0];
      assert (es + [e])[1..] == es[1..] + [e];
      PushAllSnoc(Pushed(log, es[0]), es[1..], e);
    }
  }

  /** A bundle updates the record exactly as its direct messages would, one
      after the other, at their own times. */
  lemma {:induction false} BundleRecord(t: Tauri, content: seq<Packet>, clock: nat -> string, floatText: real -> string)
    ensures RsBundle(t, content, clock, floatText).state == RsRun(t.state, BundleMessages(content, clock), floatText)
    decreases |content|
  {
    if content != [] {
      var n := |content| - 1;
      var prior := RsBundle(t, content[..n], clock, floatText);
      var before := BundleMessages(content[..n], clock);
      BundleRecord(t, content[..n], clock, floatText);
      if content[n].Msg? {
        var r := Received(content[n].msg, clock(n));
        assert BundleMessages(content, clock) == before + [r];
        assert RsBundle(t, content, clock, floatText).state == RsStep(prior.state, r.msg, r.at, floatText);
        RsRunSnoc(t.state, before, r, floatText);
      } else {
        assert BundleMessages(content, clock) == before;
      }
    }
  }

  /** A bundle logs the entries of its direct messages, in order. */
  lemma {:induction false} BundleLog(t: Tauri, content: seq<Packet>, clock: nat -> string, floatText: real -> string)
    ensures RsBundle(t, content, clock, floatText).log == PushAll(t.log, Entries(BundleMessages(content, clock)))
    decreases |content|
  {
    if content != [] {
      var n := |content| - 1;
      var prior := RsBundle(t, content[..n], clock, floatText);
      var before := BundleMessages(content[..n], clock);
      BundleLog(t, content[..n], clock, floatText);
      if content[n].Msg? {
        var r := Received(content[n].msg, clock(n));
        var e := EntryOf(r.msg, r.at);
        assert BundleMessages(content, clock) == before + [r];
        assert RsBundle(t, content, clock, floatText) == RsParse(prior, r.msg, r.at, floatText);
        EntriesSnoc(before, r);
        PushAllSnoc(t.log, Entries(before), e);
      } else {
        assert BundleMessages(content, clock) == before;
      }
    }
  }

  /** The frames an open display is sent for a run of messages: for each,
      its `oscLog` entry and then the `cueUpdate` carrying the new record. */
  function RsSent(s: CueState, rs: seq<Received>, floatText: real -> string): (fs: seq<Frame>)
    ensures |fs| == 2 * |rs|
    decreases |rs|
  {
    if rs == [] then []
    else
      var next := RsStep(s, rs[0].msg, rs[0].at, floatText);
      [OscLogFrame(EntryOf(rs[0].msg, rs[0].at)), CueUpdate(next)] + RsSent(next, rs[1..], floatText)
  }

  lemma {:induction false} RsSentSnoc(s: CueState, rs: seq<Received>, r: Received, floatText: real -> string)
    ensures RsSent(s, rs + [r], floatText) ==
            RsSent(s, rs, floatText) +
            [OscLogFrame(EntryOf(r.msg, r.at)), CueUpdate(RsStep(RsRun(s, rs, floatText), r.msg, r.at, floatText))]
    decreases |rs|
  {
    if rs == [] {
      assert (rs + [r])[1..] == [];
    } else {
      assert (rs + [r])[0] == rs[0];
      assert (rs + [r])[1..] == rs[1..] + [r];
      RsSentSnoc(RsStep(s, rs[0].msg, rs[0].at, floatText), rs[1..], r, floatText);
    }
  }

  /** One more parsed message extends what every display open throughout
      has been sent by its two frames. */
  lemma ParseSent(t: Tauri, prior: Tauri, sent: seq<Frame>, m: Message, now: string, floatText: real -> string)
    requires |prior.clients| == |t.clients|
    requires forall k :: 0 <= k < |t.clients| && t.clients[k].open ==>
               prior.clients[k].open && prior.clients[k].outbox == t.clients[k].outbox + sent
    ensures forall k :: 0 <= k < |t.clients| && t.clients[k].open ==>
              RsParse(prior, m, now, floatText).clients[k].outbox ==
              t.clients[k].outbox + (sent + [OscLogFrame(EntryOf(m, now)), CueUpdate(RsStep(prior.state, m, now, floatText))])
  {
  }

  /** Each display open during a bundle is sent, for every direct message in
      order, its `oscLog` entry and then the record after it. */
  lemma {:induction false} BundleSent(t: Tauri, content: seq<Packet>, clock: nat -> string, floatText: real -> string)
    ensures forall k :: 0 <= k < |t.clients| && t.clients[k].open ==>
              RsBundle(t, content, clock, floatText).clients[k].outbox ==
              t.clients[k].outbox + RsSent(t.state, BundleMessages(content, clock), floatText)
    decreases |content|
  {
    if content != [] {
      var n := |content| - 1;
      var prior := RsBundle(t, content[..n], clock, floatText);
      var before := BundleMessages(content[..n], clock);
      BundleSent(t, content[..n], clock, floatText);
      if content[n].Msg? {
        var r := Received(content[n].msg, clock(n));
        assert BundleMessages(content, clock) == before + [r];
        assert RsBundle(t, content, clock, floatText) == RsParse(prior, r.msg, r.at, floatText);
        BundleRecord(t, content[..n], clock, floatText);
        RsSentSnoc(t.state, before, r, floatText);
        ParseSent(t, prior, RsSent(t.state, before, floatText), r.msg, r.at, floatText);
      } else {
        assert BundleMessages(content, clock) == before;
      }
    }
  }

  /** A nested bundle, wherever it sits, changes nothing. */
  lemma NestedBundleIgnored(t: Tauri, content: seq<Packet>, inner: seq<Packet>,
                            clock: nat -> string, floatText: real -> string)
    ensures RsBundle(t, content + [Bundle(inner)], clock, floatText) == RsBundle(t, content, clock, floatText)
  {
    assert (content + [Bundle(inner)])[..|content|] == content;
  }

  /** Handling a bundle sends two frames per direct message to every
      subscriber open throughout, none to a closed one, and leaves the log
      within capacity. */
  lemma {:induction false} BundleFrames(t: Tauri, content: seq<Packet>, clock: nat -> string, floatText: real -> string)
    requires |t.log| <= Capacity
    ensures |RsBundle(t, content, clock, floatText).log| <= Capacity
    ensures |RsBundle(t, content, clock, floatText).clients| == |t.clients|
    ensures forall k :: 0 <= k < |t.clients| ==>
              RsBundle(t, content, clock, floatText).clients[k].open == t.clients[k].open
    ensures forall k :: 0 <= k < |t.clients| && t.clients[k].open ==>
              |RsBundle(t, content, clock, floatText).clients[k].outbox| ==
              |t.clients[k].outbox| + 2 * MessageCount(content)
    ensures forall k :: 0 <= k < |t.clients| && !t.clients[k].open ==>
              RsBundle(t, content, clock, floatText).clients[k] == t.clients[k]
    decreases |content|
  {
    if content != [] {
      BundleFrames(t, content[..|content| - 1], clock, floatText);
    }
  }

  /** Every open display has last been sent the current record. */
  predicate Converged(t: Tauri) {
    forall k :: 0 <= k < |t.clients| && t.clients[k].open ==>
      |t.clients[k].outbox| > 0 &&
      Last(t.clients[k].outbox) in {StateFrame(t.state), CueUpdate(t.state)}
  }

  lemma {:induction false} BundleConverged(t: Tauri, content: seq<Packet>, clock: nat -> string, floatText: real -> string)
    requires Converged(t)
    ensures Converged(RsBundle(t, content, clock, floatText))
    decreases |content|
  {
    if content != [] {
      BundleConverged(t, content[..|content| - 1], clock, floatText);
    }
  }

  /** Datagrams and connections keep every open display in step with the
      record, and the log within capacity. */
  lemma DatagramConverged(t: Tauri, d: Option<Packet>, clock: nat -> string, floatText: real -> string)
    requires Converged(t) && |t.log| <= Capacity
    ensures Converged(RsDatagram(t, d, clock, floatText))
    ensures |RsDatagram(t, d, clock, floatText).log| <= Capacity
    ensures Converged(RsConnect(t))
  {
    if d.Some? && d.value.Bundle? {
      BundleConverged(t, d.value.content, clock, floatText);
      BundleFrames(t, d.value.content, clock, floatText);
    }
    var r := RsConnect(t);
    forall k | 0 <= k < |r.clients| && r.clients[k].open
      ensures |r.clients[k].outbox| > 0 && Last(r.clients[k].outbox) in {StateFrame(r.state), CueUpdate(r.state)}
    {
      if k < |t.clients| {
        assert r.clients[k] == r.clients[..|t.clients|][k];
      }
    }
  }

  // ---------------------------------------------------------------------
  // The backend's globals

  /** `STATE`, `OSC_LOG` and the subscribers of `BROADCAST_TX`. */
  class Backend {
    var state: CueState
    var log: seq<LogEntry>
    const tx: Hub

    ghost function Model(): Tauri
      reads this, tx
    {
      Tauri(state, log, tx.clients)
    }

    constructor ()
      ensures Model() == Boot
      ensures fresh(tx)
    {
      state := CueState("", Unknown, "", 0.0, false, None, false);
      log := [];
      tx := new Hub();
    }

    /** `parse_osc_message(msg)`, handled at `now`. */
    method ParseOscMessage(m: Message, now: string, floatText: real -> string)
      modifies this, tx
      ensures Model() == RsParse(old(Model()), m, now, floatText)
    {
      var entry := LogEntry(now, m.address, LogArgs(m.args));
      ghost var oldLog := log;
      log := [entry] + log;
      if |log| > Capacity {
        log := log[..|log| - 1];
      }
      assert log == Pushed(oldLog, entry);
      tx.Broadcast(OscLogFrame(entry));

      UpdateState(m, now, floatText);

      tx.Broadcast(CueUpdate(state));
    }

    /** The locked update of `STATE`. */
    method UpdateState(m: Message, now: string, floatText: real -> string)
      modifies this
      ensures state == RsStep(old(state), m, now, floatText)
      ensures log == old(log)
    {
      state := state.(connected := true);
      state := state.(lastUpdate := Some(now));
      Dispatch(m, floatText);
    }

    /** The branch on `msg.args[0]`. */
    method Dispatch(m: Message, floatText: real -> string)
      modifies this
      ensures state == RsDispatch(old(state), m, floatText)
      ensures log == old(log)
    {
      var args := m.args;
      if |args| > 0 && args[0].S? {
        var action := args[0].s;
        if action == "Go+" || action == "Go-" || action == "Goto" || action == "Top" {
          if |args| > 2 && args[2].S? {
            var cueName := args[2].s;
            state := state.(cueName := cueName);
            var caps := CueNumberOf(cueName);
            if caps.Some? {
              state := state.(sequenceName := caps.value.0);
              state := state.(cueNumber := caps.value.1);
            }
          }
          ghost var named := state;
          if |args| > 1 && state.cueNumber == Unknown {
            if args[1].I? {
              state := state.(cueNumber := IntToString(args[1].i));
            } else if args[1].F? {
              state := state.(cueNumber := floatText(args[1].x));
            }
          }
          state := state.(isActive := true);
          assert RsIsTrigger(m);
          assert state == RsDispatch(old(state), m, floatText) by {
            assert named == (if RsNamed(m) then
                               (if CueNumberOf(args[2].s).Some?
                                then old(state).(cueName := args[2].s, sequenceName := CueNumberOf(args[2].s).value.0,
                                                 cueNumber := CueNumberOf(args[2].s).value.1)
                                else old(state).(cueName := args[2].s))
                             else old(state));
          }
        } else if action == "FaderMaster" && |args| > 2 {
          if args[2].F? {
            state := state.(progress := args[2].x * 100.0);
          }
        }
      }
    }

    /** `handle_websocket`: the `state` snapshot, then the subscription. */
    method OnConnection() returns (id: nat)
      modifies tx
      ensures id == |old(tx.clients)|
      ensures Model() == RsConnect(old(Model()))
    {
      id := tx.Connect(StateFrame(state));
    }

    /** One turn of the receive loop, given the decoder's result. */
    method OnDatagram(d: Option<Packet>, clock: nat -> string, floatText: real -> string)
      modifies this, tx
      ensures Model() == RsDatagram(old(Model()), d, clock, floatText)
    {
      match d
      case None =>
      case Some(Msg(m)) =>
        ParseOscMessage(m, clock(0), floatText);
      case Some(Bundle(content)) =>
        var i := 0;
        while i < |content|
          invariant 0 <= i <= |content|
          invariant Model() == RsBundle(old(Model()), content[..i], clock, floatText)
        {
          assert content[..i + 1][..i] == content[..i];
          if content[i].Msg? {
            ParseOscMessage(content[i].msg, clock(i), floatText);
          }
          i := i + 1;
        }
        assert content[..i] == content;
    }
  }
}
