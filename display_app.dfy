/** The desktop app: the same cue record and handler as the standalone
    server, a WebSocket registry that exists only once the embedded server
    has been started, the local-address listing shown in the launcher, and
    the OSC status query. */
module DisplayApp {
  import opened Wrappers
  import opened Osc
  import opened Cue
  import opened JsCue
  import opened Hub
  import opened NodeServer

  // ---------------------------------------------------------------------
  // Local addresses

  /** One address of a network interface (`os.networkInterfaces()`). */
  datatype NetAddress = NetAddress(family: string, address: string, internal: bool)

  /** An interface name with its addresses, in enumeration order. */
  datatype Interface = Interface(name: string, addresses: seq<NetAddress>)

  /** `{ address, interface }` as listed in the launcher. */
  datatype LocalIp = LocalIp(address: string, iface: string)

  predicate IsExternalV4(a: NetAddress) {
    a.family == "IPv4" && !a.internal
  }

  /** The listed entries of one interface, in order. */
  function Tagged(name: string, addrs: seq<NetAddress>): (r: seq<LocalIp>)
    ensures |r| <= |addrs|
    ensures forall k :: 0 <= k < |r| ==> r[k].iface == name
    decreases |addrs|
  {
    if addrs == [] then []
    else
      var last := addrs[|addrs| - 1];
      Tagged(name, addrs[..|addrs| - 1]) + (if IsExternalV4(last) then [LocalIp(last.address, name)] else [])
  }

  /** Within one interface the listing follows the enumeration order of its
      addresses. */
  lemma {:induction false} TaggedAppend(name: string, xs: seq<NetAddress>, ys: seq<NetAddress>)
    ensures Tagged(name, xs + ys) == Tagged(name, xs) + Tagged(name, ys)
    decreases |ys|
  {
    if ys == [] {
      assert xs + ys == xs;
    } else {
      var init := ys[..|ys| - 1];
      assert (xs + ys)[..|xs + ys| - 1] == xs + init;
      assert (xs + ys)[|xs + ys| - 1] == ys[|ys| - 1];
      TaggedAppend(name, xs, init);
    }
  }

  /** The listed entries of all interfaces, interface by interface. */
  function ExternalV4(nets: seq<Interface>): (r: seq<LocalIp>)
    ensures forall k :: 0 <= k < |r| ==> exists i :: 0 <= i < |nets| && r[k].iface == nets[i].name
    decreases |nets|
  {
    if nets == [] then []
    else
      var n := |nets| - 1;
      var before := ExternalV4(nets[..n]);
      var here := Tagged(nets[n].name, nets[n].addresses);
      assert forall k :: 0 <= k < |before| ==> exists i :: 0 <= i < |nets| && before[k].iface == nets[i].name by {
        forall k | 0 <= k < |before|
          ensures exists i :: 0 <= i < |nets| && before[k].iface == nets[i].name
        {
          var i :| 0 <= i < n && before[k].iface == nets[..n][i].name;
          assert nets[..n][i] == nets[i];
        }
      }
      assert forall k :: 0 <= k < |here| ==> here[k].iface == nets[n].name;
      before + here
  }

  lemma {:induction false} TaggedMembers(name: string, addrs: seq<NetAddress>, ip: LocalIp)
    ensures ip in Tagged(name, addrs) <==>
            exists j :: 0 <= j < |addrs| && IsExternalV4(addrs[j]) && ip == LocalIp(addrs[j].address, name)
    decreases |addrs|
  {
    if addrs != [] {
      var init := addrs[..|addrs| - 1];
      TaggedMembers(name, init, ip);
      assert forall j :: 0 <= j < |init| ==> init[j] == addrs[j];
    }
  }

  /** `ip` is the external IPv4 address `j` of interface `i`, tagged with
      the interface's name. */
  predicate Listed(nets: seq<Interface>, ip: LocalIp, i: int, j: int) {
    && 0 <= i < |nets|
    && 0 <= j < |nets[i].addresses|
    && IsExternalV4(nets[i].addresses[j])
    && ip == LocalIp(nets[i].addresses[j].address, nets[i].name)
  }

  /** An entry is listed exactly when some interface has an external IPv4
      address with that text, and it is tagged with that interface's name. */
  lemma {:induction false} ExternalV4Members(nets: seq<Interface>, ip: LocalIp)
    ensures ip in ExternalV4(nets) <==> exists i, j :: Listed(nets, ip, i, j)
    decreases |nets|
  {
    if nets != [] {
      var n := |nets| - 1;
      var init := nets[..n];
      var last := nets[n];
      ExternalV4Members(init, ip);
      TaggedMembers(last.name, last.addresses, ip);
      assert ExternalV4(nets) == ExternalV4(init) + Tagged(last.name, last.addresses);
      if ip in ExternalV4(nets) {
        if ip in ExternalV4(init) {
          var i, j :| Listed(init, ip, i, j);
          assert init[i] == nets[i];
          assert Listed(nets, ip, i, j);
        } else {
          var j :| 0 <= j < |last.addresses| && IsExternalV4(last.addresses[j]) &&
                   ip == LocalIp(last.addresses[j].address, last.name);
          assert Listed(nets, ip, n, j);
        }
      }
      if exists i, j :: Listed(nets, ip, i, j) {
        var i, j :| Listed(nets, ip, i, j);
        if i < n {
          assert init[i] == nets[i];
          assert Listed(init, ip, i, j);
        } else {
          assert 0 <= j < |last.addresses| && IsExternalV4(last.addresses[j]) &&
                 ip == LocalIp(last.addresses[j].address, last.name);
        }
      }
    }
  }

  /** The listing follows the enumeration order: the entries of earlier
      interfaces come first. */
  lemma {:induction false} ExternalV4Append(xs: seq<Interface>, ys: seq<Interface>)
    ensures ExternalV4(xs + ys) == ExternalV4(xs) + ExternalV4(ys)
    decreases |ys|
  {
    if ys == [] {
      assert xs + ys == xs;
    } else {
      var init := ys[..|ys| - 1];
      var last := ys[|ys| - 1];
      assert (xs + ys)[..|xs + ys| - 1] == xs + init;
      assert (xs + ys)[|xs + ys| - 1] == last;
      ExternalV4Append(xs, init);
    }
  }

  /** `getLocalIPs()`: the nested loops over interfaces and their addresses. */
  method GetLocalIps(nets: seq<Interface>) returns (ips: seq<LocalIp>)
    ensures ips == ExternalV4(nets)
  {
    ips := [];
    var i := 0;
    while i < |nets|
      invariant 0 <= i <= |nets|
      invariant ips == ExternalV4(nets[..i])
    {
      var net := nets[i];
      var j := 0;
      while j < |net.addresses|
        invariant 0 <= j <= |net.addresses|
        invariant ips == ExternalV4(nets[..i]) + Tagged(net.name, net.addresses[..j])
      {
        var a := net.addresses[j];
        if a.family == "IPv4" && !a.internal {
          ips := ips + [LocalIp(a.address, net.name)];
        }
        assert net.addresses[..j + 1][..j] == net.addresses[..j];
        j := j + 1;
      }
      assert net.addresses[..j] == net.addresses;
      assert nets[..i + 1][..i] == nets[..i];
      i := i + 1;
    }
    assert nets[..i] == nets;
  }

  // ---------------------------------------------------------------------
  // The app process

  /** What the launcher's `get-osc-status` query answers. */
  datatype OscStatus = OscStatus(connected: bool, lastUpdate: Option<string>)

  /** The status query answers the record's own connection fields. */
  function StatusOf(s: CueState): (st: OscStatus)
    ensures st.connected == s.connected && st.lastUpdate == s.lastUpdate
  {
    OscStatus(s.connected, s.lastUpdate)
  }

  /** Before any message the status is "not connected, never updated"; after
      any message it is "connected, at that message's time", for good. */
  lemma StatusAfterRun(rs: seq<Received>, floatText: real -> string)
    ensures rs == [] ==> StatusOf(JsRun(Initial, rs, floatText)) == OscStatus(false, None)
    ensures rs != [] ==> StatusOf(JsRun(Initial, rs, floatText)) == OscStatus(true, Some(rs[|rs| - 1].at))
  {
    JsRunMonotone(Initial, rs, floatText);
  }

  /** The app's module-level state: `currentState` and the `wss` variable,
      which is `null` until `startServer` runs. */
  class CueDisplayApp {
    const state: CueRecord
    var wss: Hub?

    /** The served part of the app, as the standalone server's value. */
    ghost function Model(): Server
      requires wss != null
      reads this, state, wss
    {
      Server(state.Snapshot(), wss.clients)
    }

    constructor ()
      ensures fresh(state) && state.Snapshot() == Initial
      ensures wss == null
    {
      state := new CueRecord();
      wss := null;
    }

    /** `startServer()`: creates the WebSocket registry. */
    method StartServer()
      modifies this
      ensures wss != null && fresh(wss) && wss.clients == []
    {
      wss := new Hub();
    }

    /** `broadcast(message)`: does nothing while `wss` is `null`; otherwise
        every open subscriber gets the frame. */
    method Broadcast(f: Frame)
      modifies wss
      ensures wss != null ==> wss.clients == Fanout(old(wss.clients), f)
    {
      if wss != null {
        wss.Broadcast(f);
      }
    }

    /** `wss.on('connection')`: the new display gets a `state` snapshot. */
    method OnConnection() returns (id: nat)
      requires wss != null
      modifies wss
      ensures Model() == ServerConnect(old(Model()))
      ensures id == |old(wss.clients)|
    {
      id := wss.Connect(StateFrame(state.Snapshot()));
    }

    /** `ws.on('close')` for the connection `id`. */
    method OnClose(id: nat)
      requires wss != null && id < |wss.clients|
      modifies wss
      ensures Model() == ServerClose(old(Model()), id)
    {
      wss.Disconnect(id);
    }

    /** `udpPort.on('message')`: the handler, then one `cueUpdate` broadcast
        if the registry exists. */
    method OnMessage(m: Message, now: string, floatText: real -> string)
      modifies state, wss
      ensures state.Snapshot() == JsStep(old(state.Snapshot()), m, now, floatText)
      ensures wss != null ==> wss.clients == Fanout(old(wss.clients), CueUpdate(state.Snapshot()))
    {
      state.OnMessage(m, now, floatText);
      Broadcast(CueUpdate(state.Snapshot()));
    }

    /** `ipcMain.handle('get-osc-status')`. */
    method GetOscStatus() returns (st: OscStatus)
      ensures st == StatusOf(state.Snapshot())
    {
      st := OscStatus(state.connected, state.lastUpdate);
    }
  }
}
