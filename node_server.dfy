/** The standalone Node server: the cue record, the WebSocket subscribers,
    and the three events that change them (a display connects, a display
    disconnects, an OSC message arrives). `Server` is the value the process
    holds at any moment; `CueServer` is the same thing as the two objects the
    server mutates in place. */
module NodeServer {
  import opened Osc
  import opened Text
  import opened Cue
  import opened JsCue
  import opened Hub

  datatype Server = Server(cue: CueState, clients: seq<Client>)

  /** The process at start-up: the initial record, no subscriber. */
  const Start := Server(Initial, [])

  /** The `cueUpdate` frames for a run of records, in order. */
  function Updates(states: seq<CueState>): seq<Frame> {
    seq(|states|, k requires 0 <= k < |states| => CueUpdate(states[k]))
  }

  /** The frame carries exactly the record `s` (as a `state` snapshot or as a
      `cueUpdate`). */
  predicate Carries(f: Frame, s: CueState) {
    (f.StateFrame? || f.CueUpdate?) && f.data == s
  }

  /** An OSC message: the handler runs, then exactly one `cueUpdate` with the
      new record goes to every open subscriber and to no one else. */
  function ServerMessage(sv: Server, m: Message, now: string, floatText: real -> string): (r: Server)
    ensures r.cue == JsStep(sv.cue, m, now, floatText)
    ensures |r.clients| == |sv.clients|
    ensures forall k :: 0 <= k < |sv.clients| ==> r.clients[k].open == sv.clients[k].open
    ensures forall k :: 0 <= k < |sv.clients| && sv.clients[k].open ==>
              r.clients[k].outbox == sv.clients[k].outbox + [CueUpdate(r.cue)]
    ensures forall k :: 0 <= k < |sv.clients| && !sv.clients[k].open ==> r.clients[k] == sv.clients[k]
  {
    var next := JsStep(sv.cue, m, now, floatText);
    Server(next, Fanout(sv.clients, CueUpdate(next)))
  }

  /** A display connects: it is registered, open, and its first frame is the
      `state` snapshot of the current record; nobody else is sent anything
      and the record does not change. */
  function ServerConnect(sv: Server): (r: Server)
    ensures r.cue == sv.cue
    ensures |r.clients| == |sv.clients| + 1 && r.clients[..|sv.clients|] == sv.clients
    ensures Last(r.clients) == Client(true, [StateFrame(sv.cue)])
  {
    Server(sv.cue, sv.clients + [Client(true, [StateFrame(sv.cue)])])
  }

  /** The display `id` disconnects: it is no longer open; nothing else
      changes. A close for an unknown connection changes nothing. */
  function ServerClose(sv: Server, id: nat): (r: Server)
    ensures r.cue == sv.cue && |r.clients| == |sv.clients|
    ensures forall k :: 0 <= k < |sv.clients| && k != id ==> r.clients[k] == sv.clients[k]
    ensures id < |sv.clients| ==> r.clients[id] == sv.clients[id].(open := false)
  {
    if id < |sv.clients| then Server(sv.cue, sv.clients[id := sv.clients[id].(open := false)])
    else sv
  }

  /** A run of OSC messages with no connection change in between. */
  function ServerMessages(sv: Server, rs: seq<Received>, floatText: real -> string): Server
    decreases |rs|
  {
    if rs == [] then sv
    else ServerMessages(ServerMessage(sv, rs[0].msg, rs[0].at, floatText), rs[1..], floatText)
  }

  /** After a run of messages the record is the handler's run. */
  lemma {:induction false} MessagesRecord(sv: Server, rs: seq<Received>, floatText: real -> string)
    ensures ServerMessages(sv, rs, floatText).cue == JsRun(sv.cue, rs, floatText)
    decreases |rs|
  {
    if rs != [] {
      MessagesRecord(ServerMessage(sv, rs[0].msg, rs[0].at, floatText), rs[1..], floatText);
    }
  }

  /** The subscribers after a run of messages are those after the run's
      `cueUpdate` broadcasts, one per message. */
  lemma {:induction false} MessagesFanout(sv: Server, rs: seq<Received>, floatText: real -> string)
    ensures ServerMessages(sv, rs, floatText).clients == FanoutAll(sv.clients, Updates(JsTrace(sv.cue, rs, floatText)))
    decreases |rs|
  {
    if rs != [] {
      var sv1 := ServerMessage(sv, rs[0].msg, rs[0].at, floatText);
      MessagesFanout(sv1, rs[1..], floatText);
      var us := Updates(JsTrace(sv.cue, rs, floatText));
      assert JsTrace(sv.cue, rs, floatText) == [sv1.cue] + JsTrace(sv1.cue, rs[1..], floatText);
      assert us[0] == CueUpdate(sv1.cue);
      assert us[1..] == Updates(JsTrace(sv1.cue, rs[1..], floatText));
    }
  }

  /** A subscriber open during a run of messages receives exactly one
      `cueUpdate` per message, carrying the record after that message, in
      order; closed subscribers receive nothing. */
  lemma MessagesDeliverTrace(sv: Server, rs: seq<Received>, floatText: real -> string)
    ensures |ServerMessages(sv, rs, floatText).clients| == |sv.clients|
    ensures forall k :: 0 <= k < |sv.clients| ==>
              ServerMessages(sv, rs, floatText).clients[k].open == sv.clients[k].open
    ensures forall k :: 0 <= k < |sv.clients| && sv.clients[k].open ==>
              ServerMessages(sv, rs, floatText).clients[k].outbox ==
              sv.clients[k].outbox + Updates(JsTrace(sv.cue, rs, floatText))
    ensures forall k :: 0 <= k < |sv.clients| && !sv.clients[k].open ==>
              ServerMessages(sv, rs, floatText).clients[k] == sv.clients[k]
  {
    MessagesFanout(sv, rs, floatText);
    FanoutAllDelivers(sv.clients, Updates(JsTrace(sv.cue, rs, floatText)));
  }

  /** A display that connects after a run of messages is greeted with the
      same record that the last `cueUpdate` of the run carried. */
  lemma LateJoinerAgrees(sv: Server, rs: seq<Received>, floatText: real -> string)
    requires |rs| > 0
    ensures Last(ServerConnect(ServerMessages(sv, rs, floatText)).clients).outbox ==
            [StateFrame(Last(JsTrace(sv.cue, rs, floatText)))]
  {
    MessagesRecord(sv, rs, floatText);
    JsRunIsLastOfTrace(sv.cue, rs, floatText);
  }

  // ---------------------------------------------------------------------
  // Runs of arbitrary events

  datatype Event =
    | Connected
    | Closed(id: nat)
    | Datagram(rec: Received)

  function ServerEvent(sv: Server, e: Event, floatText: real -> string): Server {
    match e
    case Connected => ServerConnect(sv)
    case Closed(id) => ServerClose(sv, id)
    case Datagram(rec) => ServerMessage(sv, rec.msg, rec.at, floatText)
  }

  function ServerRun(sv: Server, es: seq<Event>, floatText: real -> string): Server
    decreases |es|
  {
    if es == [] then sv else ServerRun(ServerEvent(sv, es[0], floatText), es[1..], floatText)
  }

  /** Every open display has last been sent the current record. */
  predicate Converged(sv: Server) {
    forall k :: 0 <= k < |sv.clients| && sv.clients[k].open ==>
      |sv.clients[k].outbox| > 0 && Carries(Last(sv.clients[k].outbox), sv.cue)
  }

  /** Each event keeps every open display in step with the record. */
  lemma ConvergedStep(sv: Server, e: Event, floatText: real -> string)
    requires Converged(sv)
    ensures Converged(ServerEvent(sv, e, floatText))
  {
    var r := ServerEvent(sv, e, floatText);
    match e
    case Connected =>
      forall k | 0 <= k < |r.clients| && r.clients[k].open
        ensures |r.clients[k].outbox| > 0 && Carries(Last(r.clients[k].outbox), r.cue)
      {
        if k < |sv.clients| {
          assert r.clients[k] == r.clients[..|sv.clients|][k] == sv.clients[k];
        }
      }
    case Closed(id) =>
    case Datagram(rec) =>
  }

  /** From start-up, whatever happens, every open display shows the current
      record. */
  lemma {:induction false} ConvergedRun(sv: Server, es: seq<Event>, floatText: real -> string)
    requires Converged(sv)
    ensures Converged(ServerRun(sv, es, floatText))
    decreases |es|
  {
    if es != [] {
      ConvergedStep(sv, es[0], floatText);
      ConvergedRun(ServerEvent(sv, es[0], floatText), es[1..], floatText);
    }
  }

  /** No subscriber is ever dropped or reordered, and once closed a
      subscriber is sent nothing more. */
  lemma {:induction false} ClosedStaysSilent(sv: Server, es: seq<Event>, floatText: real -> string)
    ensures |ServerRun(sv, es, floatText).clients| >= |sv.clients|
    ensures forall k :: 0 <= k < |sv.clients| && !sv.clients[k].open ==>
              ServerRun(sv, es, floatText).clients[k] == sv.clients[k]
    ensures forall k :: 0 <= k < |sv.clients| ==>
              sv.clients[k].outbox <= ServerRun(sv, es, floatText).clients[k].outbox
    ensures forall k :: 0 <= k < |sv.clients| && ServerRun(sv, es, floatText).clients[k].open ==>
              sv.clients[k].open
    decreases |es|
  {
    if es != [] {
      var sv1 := ServerEvent(sv, es[0], floatText);
      assert |sv1.clients| >= |sv.clients|;
      assert forall k :: 0 <= k < |sv.clients| ==>
               sv.clients[k].outbox <= sv1.clients[k].outbox && (sv1.clients[k].open ==> sv.clients[k].open) &&
               (!sv.clients[k].open ==> sv1.clients[k] == sv.clients[k]) by {
        if es[0].Connected? {
          assert forall k :: 0 <= k < |sv.clients| ==> sv1.clients[k] == sv1.clients[..|sv.clients|][k];
        }
      }
      ClosedStaysSilent(sv1, es[1..], floatText);
    }
  }

  /** The running server: the `currentState` object and the `wss` registry. */
  class CueServer {
    const state: CueRecord
    const wss: Hub

    ghost function Model(): Server
      reads state, wss
    {
      Server(state.Snapshot(), wss.clients)
    }

    constructor ()
      ensures Model() == Start
      ensures fresh(state) && fresh(wss)
    {
      state := new CueRecord();
      wss := new Hub();
    }

    /** `wss.on('connection')`: the new display is sent a `state` snapshot. */
    method OnConnection() returns (id: nat)
      modifies wss
      ensures id == |old(wss.clients)|
      ensures Model() == ServerConnect(old(Model()))
    {
      id := wss.Connect(StateFrame(state.Snapshot()));
    }

    /** `ws.on('close')` for the connection `id`. */
    method OnClose(id: nat)
      requires id < |wss.clients|
      modifies wss
      ensures Model() == ServerClose(old(Model()), id)
    {
      wss.Disconnect(id);
    }

    /** `udpPort.on('message')`: the handler, then one `cueUpdate` broadcast. */
    method OnMessage(m: Message, now: string, floatText: real -> string)
      modifies state, wss
      ensures Model() == ServerMessage(old(Model()), m, now, floatText)
    {
      state.OnMessage(m, now, floatText);
      wss.Broadcast(CueUpdate(state.Snapshot()));
    }
  }
}
