/** The push channel's subscribers. Each subscriber is a connection that is
    open or closed together with everything the server has sent it so far
    (its outbox); sending is appending to the outbox. Connections are never
    removed, only closed, so a subscriber keeps its position. */
module Hub {
  import opened Cue
  import opened OscLog

  /** The messages pushed to a display: `{type: 'state', data}` on connect,
      `{type: 'cueUpdate', data}` after every handled message, and, in the
      Rust copy, `{type: 'oscLog', data}` with the log entry. */
  datatype Frame =
    | StateFrame(data: CueState)
    | CueUpdate(data: CueState)
    | OscLogFrame(entry: LogEntry)

  datatype Client = Client(open: bool, outbox: seq<Frame>)

  /** One send: an open connection receives the frame, a closed one is
      skipped. */
  function Deliver(c: Client, f: Frame): Client {
    if c.open then c.(outbox := c.outbox + [f]) else c
  }

  /** A broadcast: every subscriber, in order, gets `Deliver`. Open
      subscribers receive exactly the frame, at the end of their outbox;
      closed ones receive nothing; no subscriber is added, dropped or
      reordered. */
  function Fanout(cs: seq<Client>, f: Frame): (r: seq<Client>)
    ensures |r| == |cs|
    ensures forall k :: 0 <= k < |cs| ==> r[k].open == cs[k].open
    ensures forall k :: 0 <= k < |cs| && cs[k].open ==> r[k].outbox == cs[k].outbox + [f]
    ensures forall k :: 0 <= k < |cs| && !cs[k].open ==> r[k] == cs[k]
  {
    if cs == [] then [] else [Deliver(cs[0], f)] + Fanout(cs[1..], f)
  }

  /** Several broadcasts in a row. */
  function FanoutAll(cs: seq<Client>, fs: seq<Frame>): seq<Client>
    decreases |fs|
  {
    if fs == [] then cs else FanoutAll(Fanout(cs, fs[0]), fs[1..])
  }

  /** Broadcasts in a row deliver every frame, in order, to each open
      subscriber and nothing to closed ones. */
  lemma {:induction false} FanoutAllDelivers(cs: seq<Client>, fs: seq<Frame>)
    ensures |FanoutAll(cs, fs)| == |cs|
    ensures forall k :: 0 <= k < |cs| ==> FanoutAll(cs, fs)[k].open == cs[k].open
    ensures forall k :: 0 <= k < |cs| && cs[k].open ==> FanoutAll(cs, fs)[k].outbox == cs[k].outbox + fs
    ensures forall k :: 0 <= k < |cs| && !cs[k].open ==> FanoutAll(cs, fs)[k] == cs[k]
    decreases |fs|
  {
    if fs == [] {
      forall k | 0 <= k < |cs| ensures cs[k].outbox + fs == cs[k].outbox {
      }
    } else {
      var cs1 := Fanout(cs, fs[0]);
      FanoutAllDelivers(cs1, fs[1..]);
      forall k | 0 <= k < |cs| && cs[k].open
        ensures FanoutAll(cs, fs)[k].outbox == cs[k].outbox + fs
      {
        assert (cs[k].outbox + [fs[0]]) + fs[1..] == cs[k].outbox + fs;
      }
    }
  }

  /** The subscriber registry (`wss.clients`, or the receivers of the Rust
      broadcast channel). */
  class Hub {
    var clients: seq<Client>

    constructor ()
      ensures clients == []
    {
      clients := [];
    }

    /** A new connection: registered as open, and its first frame is the
        one given (the current snapshot). */
    method Connect(first: Frame) returns (id: nat)
      modifies this
      ensures id == |old(clients)|
      ensures clients == old(clients) + [Client(true, [first])]
    {
      id := |clients|;
      clients := clients + [Client(true, [first])];
    }

    /** The connection `id` closed; nothing is sent to it any more. */
    method Disconnect(id: nat)
      requires id < |clients|
      modifies this
      ensures clients == old(clients)[id := old(clients)[id].(open := false)]
    {
      clients := clients[id := clients[id].(open := false)];
    }

    /** `clients.forEach(c => { if (c.readyState === OPEN) c.send(f) })`. */
    method Broadcast(f: Frame)
      modifies this
      ensures clients == Fanout(old(clients), f)
    {
      var i := 0;
      while i < |clients|
        invariant 0 <= i <= |clients| == |old(clients)|
        invariant forall k :: 0 <= k < i ==> clients[k] == Deliver(old(clients)[k], f)
        invariant forall k :: i <= k < |clients| ==> clients[k] == old(clients)[k]
      {
        if clients[i].open {
          clients := clients[i := clients[i].(outbox := clients[i].outbox + [f])];
        }
        i := i + 1;
      }
    }
  }
}
