/** The Mediator demo of Mediator.kt: a `NetworkManager` keeps the
    registered devices in a map keyed by device name and relays broadcasts
    and connection requests between `Router666` and `Computer` devices.

    Devices are objects compared by identity, so each has a `DeviceId`; the
    network value holds every device object (registered or not) and the
    manager's registry. The registry is Kotlin's `mutableMapOf`, a
    `LinkedHashMap`: it iterates in insertion order, and putting an existing
    key keeps that key's place. The observable effect of a broadcast is the
    sequence of `receiveMessage` calls it makes, recorded as deliveries;
    printed lines are not modelled. */
module NetworkMediator {
  import opened Platform

  type DeviceId = nat

  datatype Device =
    | Router666(name: string, isUp: bool, connectedDevices: seq<DeviceId>)
    | Computer(name: string, connectedRouter: Option<DeviceId>)

  /** One name-to-device entry of `NetworkManager.devices`. */
  datatype Entry = Entry(name: string, id: DeviceId)

  datatype Network = Network(devices: map<DeviceId, Device>, registry: seq<Entry>)

  /** One `receiveMessage(message)` call on device `to`. */
  datatype Delivery = Delivery(to: DeviceId, message: string)

  /** The devices in registration order. */
  function Ids(reg: seq<Entry>): (ids: seq<DeviceId>)
    ensures |ids| == |reg|
    ensures forall i :: 0 <= i < |reg| ==> ids[i] == reg[i].id
  {
    seq(|reg|, i requires 0 <= i < |reg| => reg[i].id)
  }

  /** `devices[name]`. */
  function Lookup(reg: seq<Entry>, name: string): (r: Option<DeviceId>)
    ensures r.Some? ==> exists i :: 0 <= i < |reg| && reg[i] == Entry(name, r.value)
    ensures r.None? ==> forall i :: 0 <= i < |reg| ==> reg[i].name != name
  {
    if |reg| == 0 then None
    else if reg[0].name == name then Some(reg[0].id)
    else
      var r := Lookup(reg[1..], name);
      assert r.Some? ==> reg[1..][0..] == reg[1..];
      r
  }

  /** `devices[name] = id`: replaces the entry for `name` where it stands, or
      appends a new one. */
  function Put(reg: seq<Entry>, name: string, id: DeviceId): (r: seq<Entry>)
    ensures Lookup(r, name) == Some(id)
    ensures forall n :: n != name ==> Lookup(r, n) == Lookup(reg, n)
    ensures forall i :: 0 <= i < |r| ==> r[i] == Entry(name, id) || r[i] in reg
  {
    if |reg| == 0 then [Entry(name, id)]
    else if reg[0].name == name then [Entry(name, id)] + reg[1..]
    else [reg[0]] + Put(reg[1..], name, id)
  }

  /** `devices.remove(name)`. */
  function Remove(reg: seq<Entry>, name: string): (r: seq<Entry>)
    ensures Lookup(r, name) == None
    ensures forall n :: n != name ==> Lookup(r, n) == Lookup(reg, n)
    ensures forall i :: 0 <= i < |r| ==> r[i] in reg
  {
    if |reg| == 0 then []
    else if reg[0].name == name then Remove(reg[1..], name)
    else [reg[0]] + Remove(reg[1..], name)
  }

  /** The registry is a map: one entry per name. */
  predicate UniqueNames(reg: seq<Entry>) {
    forall i, j :: 0 <= i < j < |reg| ==> reg[i].name != reg[j].name
  }

  predicate DistinctIds(reg: seq<Entry>) {
    forall i, j :: 0 <= i < j < |reg| ==> reg[i].id != reg[j].id
  }

  /** The heap and registry are consistent: every entry is keyed by its own
      device's name, and a computer's router is a router. */
  predicate Valid(net: Network) {
    && UniqueNames(net.registry)
    && (forall i :: 0 <= i < |net.registry| ==>
          net.registry[i].id in net.devices && net.devices[net.registry[i].id].name == net.registry[i].name)
    && (forall id :: id in net.devices && net.devices[id].Computer? && net.devices[id].connectedRouter.Some? ==>
          net.devices[id].connectedRouter.value in net.devices &&
          net.devices[net.devices[id].connectedRouter.value].Router666?)
  }

  lemma ValidIdsDistinct(net: Network)
    requires Valid(net)
    ensures DistinctIds(net.registry)
  {
  }

  /** In a valid network a registered device is found under its own name. */
  lemma {:induction false} LookupOwnName(net: Network, i: nat)
    requires Valid(net) && i < |net.registry|
    ensures Lookup(net.registry, net.registry[i].name) == Some(net.registry[i].id)
  {
    var reg := net.registry;
    var r := Lookup(reg, reg[i].name);
    if r.None? {
      assert false;
    } else {
      var j :| 0 <= j < |reg| && reg[j] == Entry(reg[i].name, r.value);
      assert i == j;
    }
  }

  /** `broadcastMessage`: every registered device but the sender receives
      the message, in registration order. */
  function Broadcast(reg: seq<Entry>, message: string, sender: DeviceId): (ds: seq<Delivery>)
    ensures forall d :: d in ds ==> d.message == message && d.to != sender && d.to in Ids(reg)
  {
    if |reg| == 0 then []
    else
      var rest := Broadcast(reg[1..], message, sender);
      assert forall d :: d in rest ==> d.to in Ids(reg) by {
        forall d | d in rest ensures d.to in Ids(reg) {
          var k :| 0 <= k < |reg[1..]| && Ids(reg[1..])[k] == d.to;
          assert Ids(reg)[k + 1] == d.to;
        }
      }
      (if reg[0].id != sender then [Delivery(reg[0].id, message)] else []) + rest
  }

  /** A broadcast reaches each registered device other than the sender
      exactly once, and no other device. */
  lemma {:induction false} BroadcastExactlyOnce(reg: seq<Entry>, message: string, sender: DeviceId, x: DeviceId)
    requires DistinctIds(reg)
    ensures multiset(Broadcast(reg, message, sender))[Delivery(x, message)] ==
            (if x != sender && x in Ids(reg) then 1 else 0)
  {
    if |reg| > 0 {
      var tail := reg[1..];
      var d := Delivery(x, message);
      var head: seq<Delivery> := if reg[0].id != sender then [Delivery(reg[0].id, message)] else [];
      var rest := Broadcast(tail, message, sender);
      assert Broadcast(reg, message, sender) == head + rest;
      DistinctIdsTail(reg);
      BroadcastExactlyOnce(tail, message, sender, x);
      assert multiset(head + rest)[d] == multiset(head)[d] + multiset(rest)[d];
    }
  }

  /** `BroadcastExactlyOnce` for every device at once. */
  lemma BroadcastReachesEachOnce(reg: seq<Entry>, message: string, sender: DeviceId)
    requires DistinctIds(reg)
    ensures forall x :: multiset(Broadcast(reg, message, sender))[Delivery(x, message)] ==
                        (if x != sender && x in Ids(reg) then 1 else 0)
  {
    forall x ensures multiset(Broadcast(reg, message, sender))[Delivery(x, message)] ==
                     (if x != sender && x in Ids(reg) then 1 else 0) {
      BroadcastExactlyOnce(reg, message, sender, x);
    }
  }

  /** Splitting a duplicate-free registry after its first entry. */
  lemma DistinctIdsTail(reg: seq<Entry>)
    requires DistinctIds(reg) && |reg| > 0
    ensures DistinctIds(reg[1..])
    ensures reg[0].id !in Ids(reg[1..])
    ensures forall x :: x in Ids(reg) <==> x == reg[0].id || x in Ids(reg[1..])
  {
    var tail := reg[1..];
    forall x | x in Ids(tail) ensures x in Ids(reg) && x != reg[0].id {
      var k :| 0 <= k < |tail| && Ids(tail)[k] == x;
      assert Ids(reg)[k + 1] == x;
    }
    forall x | x in Ids(reg) && x != reg[0].id ensures x in Ids(tail) {
      var k :| 0 <= k < |reg| && Ids(reg)[k] == x;
      assert Ids(tail)[k - 1] == x;
    }
  }

  /** What a manager call leaves behind: the network and the deliveries. */
  datatype Outcome = Outcome(net: Network, deliveries: seq<Delivery>)

  /** `registerDevice`: enter the device under its name, replacing any
      device of that name, then announce it to everyone else. */
  function RegisterDevice(net: Network, id: DeviceId): (o: Outcome)
    requires id in net.devices
    ensures o.net.devices == net.devices
    ensures Lookup(o.net.registry, net.devices[id].name) == Some(id)
    ensures forall n :: n != net.devices[id].name ==> Lookup(o.net.registry, n) == Lookup(net.registry, n)
    ensures forall d :: d in o.deliveries ==> d.to != id
    ensures forall d :: d in o.deliveries ==>
              d.to in Ids(o.net.registry) && d.message == "Device " + net.devices[id].name + " has joined the network."
    ensures DistinctIds(o.net.registry) ==>
              forall x :: multiset(o.deliveries)[Delivery(x, "Device " + net.devices[id].name + " has joined the network.")] ==
                          (if x != id && x in Ids(o.net.registry) then 1 else 0)
  {
    var name := net.devices[id].name;
    var message := "Device " + name + " has joined the network.";
    var reg := Put(net.registry, name, id);
    if DistinctIds(reg) then
      BroadcastReachesEachOnce(reg, message, id);
      Outcome(net.(registry := reg), Broadcast(reg, message, id))
    else
      Outcome(net.(registry := reg), Broadcast(reg, message, id))
  }

  /** `unregisterDevice`: remove whatever is registered under the device's
      name, then announce the departure to those still registered. */
  function UnregisterDevice(net: Network, id: DeviceId): (o: Outcome)
    requires id in net.devices
    ensures o.net.devices == net.devices
    ensures Lookup(o.net.registry, net.devices[id].name) == None
    ensures forall n :: n != net.devices[id].name ==> Lookup(o.net.registry, n) == Lookup(net.registry, n)
    ensures forall d :: d in o.deliveries ==>
              d.to != id && d.to in Ids(o.net.registry) && d.message == "Device " + net.devices[id].name + " has left the network."
    ensures DistinctIds(o.net.registry) ==>
              forall x :: multiset(o.deliveries)[Delivery(x, "Device " + net.devices[id].name + " has left the network.")] ==
                          (if x != id && x in Ids(o.net.registry) then 1 else 0)
  {
    var name := net.devices[id].name;
    var message := "Device " + name + " has left the network.";
    var reg := Remove(net.registry, name);
    if DistinctIds(reg) then
      BroadcastReachesEachOnce(reg, message, id);
      Outcome(net.(registry := reg), Broadcast(reg, message, id))
    else
      Outcome(net.(registry := reg), Broadcast(reg, message, id))
  }

  lemma RegisterKeepsValid(net: Network, id: DeviceId)
    requires Valid(net) && id in net.devices
    ensures Valid(RegisterDevice(net, id).net)
  {
    PutKeepsUniqueNames(net.registry, net.devices[id].name, id);
  }

  lemma {:induction false} PutKeepsUniqueNames(reg: seq<Entry>, name: string, id: DeviceId)
    requires UniqueNames(reg)
    ensures UniqueNames(Put(reg, name, id))
  {
    if |reg| > 0 && reg[0].name != name {
      PutKeepsUniqueNames(reg[1..], name, id);
      var r := Put(reg, name, id);
      forall j | 0 < j < |r| ensures r[0].name != r[j].name {
        var e := r[j];
        if e != Entry(name, id) {
          var k :| 0 <= k < |reg[1..]| && reg[1..][k] == e;
          assert reg[k + 1] == e;
        }
      }
    }
  }

  lemma {:induction false} RemoveKeepsUniqueNames(reg: seq<Entry>, name: string)
    requires UniqueNames(reg)
    ensures UniqueNames(Remove(reg, name))
  {
    if |reg| > 0 {
      var tail := reg[1..];
      assert UniqueNames(tail) by {
        forall i, j | 0 <= i < j < |tail| ensures tail[i].name != tail[j].name {
          assert tail[i] == reg[i + 1] && tail[j] == reg[j + 1];
        }
      }
      RemoveKeepsUniqueNames(tail, name);
      var rt := Remove(tail, name);
      if reg[0].name != name {
        var r := [reg[0]] + rt;
        assert Remove(reg, name) == r;
        forall i, j | 0 <= i < j < |r| ensures r[i].name != r[j].name {
          assert r[j] == rt[j - 1] && rt[j - 1] in tail;
          if i == 0 {
            var k :| 0 <= k < |tail| && tail[k] == r[j];
            assert reg[k + 1] == r[j];
          } else {
            assert r[i] == rt[i - 1];
          }
        }
      }
    }
  }

  lemma UnregisterKeepsValid(net: Network, id: DeviceId)
    requires Valid(net) && id in net.devices
    ensures Valid(UnregisterDevice(net, id).net)
  {
    RemoveKeepsUniqueNames(net.registry, net.devices[id].name);
  }

  /** Removing a name that is absent changes nothing. */
  lemma {:induction false} RemoveAbsent(reg: seq<Entry>, name: string)
    requires forall i :: 0 <= i < |reg| ==> reg[i].name != name
    ensures Remove(reg, name) == reg
  {
    if |reg| > 0 {
      RemoveAbsent(reg[1..], name);
      assert [reg[0]] + reg[1..] == reg;
    }
  }

  /** Putting a new name and removing it again gives the registry back,
      order included. */
  lemma {:induction false} RemoveAfterPut(reg: seq<Entry>, name: string, id: DeviceId)
    requires forall i :: 0 <= i < |reg| ==> reg[i].name != name
    ensures Remove(Put(reg, name, id), name) == reg
  {
    if |reg| == 0 {
    } else {
      assert reg[0].name != name;
      RemoveAfterPut(reg[1..], name, id);
      assert [reg[0]] + reg[1..] == reg;
    }
  }

  /** A device that registers under a new name and unregisters again leaves
      the manager's map as it found it. */
  lemma RegisterThenUnregister(net: Network, id: DeviceId)
    requires id in net.devices && Lookup(net.registry, net.devices[id].name) == None
    ensures UnregisterDevice(RegisterDevice(net, id).net, id).net == net
  {
    RemoveAfterPut(net.registry, net.devices[id].name, id);
  }

  /** Registering a device whose name is taken evicts the previous holder:
      it is no longer registered and hears nothing of the newcomer, who
      does not hear of itself either. */
  lemma RegisterReplacesSameName(net: Network, id: DeviceId, previous: DeviceId)
    requires Valid(net) && id in net.devices && previous != id
    requires Lookup(net.registry, net.devices[id].name) == Some(previous)
    ensures previous !in Ids(RegisterDevice(net, id).net.registry)
    ensures forall d :: d in RegisterDevice(net, id).deliveries ==> d.to != previous && d.to != id
  {
    var o := RegisterDevice(net, id);
    RegisterKeepsValid(net, id);
    var j :| 0 <= j < |net.registry| && net.registry[j] == Entry(net.devices[id].name, previous);
    assert net.devices[previous].name == net.devices[id].name;
    forall k | 0 <= k < |o.net.registry| ensures o.net.registry[k].id != previous {
      LookupOwnName(o.net, k);
    }
  }

  /** The leaving device's name is no longer registered, so no device under
      that name hears the farewell; the sender is excluded as always. */
  lemma LeaverNotNotified(net: Network, id: DeviceId)
    requires Valid(net) && id in net.devices
    ensures forall d :: d in UnregisterDevice(net, id).deliveries ==>
              d.to != id && d.to in net.devices && net.devices[d.to].name != net.devices[id].name
  {
    var o := UnregisterDevice(net, id);
    UnregisterKeepsValid(net, id);
    forall d | d in o.deliveries
      ensures d.to in net.devices && net.devices[d.to].name != net.devices[id].name
    {
      var k :| 0 <= k < |o.net.registry| && Ids(o.net.registry)[k] == d.to;
      LookupOwnName(o.net, k);
    }
  }

  /** A device's own `checkStatus()`. */
  function Status(net: Network, id: DeviceId): string
    requires Valid(net) && id in net.devices
  {
    match net.devices[id]
    case Router666(_, up, _) => if up then "Up" else "Down"
    case Computer(_, router) =>
      if router.Some? then "Connected to " + net.devices[router.value].name else "Disconnected"
  }

  /** `checkDeviceStatus`: `null` for a name nobody is registered under,
      otherwise that device's own status. */
  function CheckDeviceStatus(net: Network, name: string): (s: Option<string>)
    requires Valid(net)
    ensures s.None? <==> (forall i :: 0 <= i < |net.registry| ==> net.registry[i].name != name)
    ensures s.Some? ==> exists id :: id in net.devices && net.devices[id].name == name && s.value == Status(net, id)
  {
    match Lookup(net.registry, name)
    case None => None
    case Some(id) => Some(Status(net, id))
  }

  /** The answers `checkDeviceStatus` can give for a registered device. */
  lemma StatusAnswers(net: Network, i: nat)
    requires Valid(net) && i < |net.registry|
    ensures var d := net.devices[net.registry[i].id];
            var s := CheckDeviceStatus(net, net.registry[i].name);
            && (d.Router666? ==> s == Some(if d.isUp then "Up" else "Down"))
            && (d.Computer? && d.connectedRouter.None? ==> s == Some("Disconnected"))
            && (d.Computer? && d.connectedRouter.Some? ==>
                  s == Some("Connected to " + net.devices[d.connectedRouter.value].name))
  {
    LookupOwnName(net, i);
  }

  /** What a connection attempt came to. */
  datatype ConnectionResult =
    | Connected        // the mediator linked the computer to the router
    | InvalidRequest   // "Invalid connection request."
    | TargetNotFound   // "Device … not found on the network."
    | AlreadyConnected // the computer was already linked to that router
    | NotARouter       // "Cannot connect to non-router devices."

  /** `Router666.acceptConnection`: an up router records the device; a down
      one ignores it. */
  function RouterAcceptConnection(net: Network, router: DeviceId, device: DeviceId): (net': Network)
    requires router in net.devices && net.devices[router].Router666?
    ensures net'.registry == net.registry && net'.devices.Keys == net.devices.Keys
    ensures var r := net.devices[router];
            router in net'.devices &&
            net'.devices[router] == (if r.isUp then r.(connectedDevices := r.connectedDevices + [device]) else r)
    ensures forall id :: id in net.devices && id != router ==> net'.devices[id] == net.devices[id]
  {
    var r := net.devices[router];
    if r.isUp then net.(devices := net.devices[router := r.(connectedDevices := r.connectedDevices + [device])])
    else net
  }

  /** `Router666.establishConnection`: the same bookkeeping as accepting. */
  function RouterEstablishConnection(net: Network, router: DeviceId, target: DeviceId): (net': Network)
    requires router in net.devices && net.devices[router].Router666?
    ensures net' == RouterAcceptConnection(net, router, target)
  {
    var r := net.devices[router];
    if r.isUp then net.(devices := net.devices[router := r.(connectedDevices := r.connectedDevices + [target])])
    else net
  }

  /** `Computer.acceptConnection`: a computer only takes a router as its
      router. */
  function ComputerAcceptConnection(net: Network, computer: DeviceId, device: DeviceId): (net': Network)
    requires computer in net.devices && net.devices[computer].Computer? && device in net.devices
    ensures computer in net'.devices && net'.devices[computer].Computer?
    ensures net'.devices[computer] ==
              (if net.devices[device].Router666? then net.devices[computer].(connectedRouter := Some(device))
               else net.devices[computer])
    ensures net'.registry == net.registry && net'.devices.Keys == net.devices.Keys
    ensures forall id :: id in net.devices && id != computer ==> net'.devices[id] == net.devices[id]
  {
    if net.devices[device].Router666? then
      net.(devices := net.devices[computer := net.devices[computer].(connectedRouter := Some(device))])
    else net
  }

  /** `requestConnection`: only a registered router target and a computer
      requester lead anywhere. Then the router accepts (recording the
      computer only when it is up) and the computer takes the router as its
      router in any case. */
  function RequestConnection(net: Network, device: DeviceId, target: DeviceId): (r: (Network, ConnectionResult))
    requires device in net.devices && target in net.devices
    ensures r.1 == Connected || r.1 == InvalidRequest || r.1 == TargetNotFound
    ensures r.1 == TargetNotFound <==> target !in Ids(net.registry)
    ensures r.1 == Connected <==>
              target in Ids(net.registry) && net.devices[target].Router666? && net.devices[device].Computer?
    ensures r.1 != Connected ==> r.0 == net
    ensures r.1 == Connected ==>
              && r.0.devices.Keys == net.devices.Keys
              && r.0.devices[device] == net.devices[device].(connectedRouter := Some(target))
              && (var t := net.devices[target];
                  r.0.devices[target] == (if t.isUp then t.(connectedDevices := t.connectedDevices + [device]) else t))
              && r.0.registry == net.registry
              && r.0.devices.Keys == net.devices.Keys
              && (forall id :: id in net.devices && id != device && id != target ==> r.0.devices[id] == net.devices[id])
  {
    if target !in Ids(net.registry) then (net, TargetNotFound)
    else if net.devices[target].Router666? && net.devices[device].Computer? then
      var n1 := RouterAcceptConnection(net, target, device);
      var n2 := n1.(devices := n1.devices[device := n1.devices[device].(connectedRouter := Some(target))]);
      (n2, Connected)
    else (net, InvalidRequest)
  }

  /** `Computer.establishConnection`: nothing happens when already linked to
      that router, and non-routers are refused; otherwise the mediator
      decides. */
  function ComputerEstablishConnection(net: Network, computer: DeviceId, target: DeviceId): (r: (Network, ConnectionResult))
    requires computer in net.devices && net.devices[computer].Computer? && target in net.devices
    ensures net.devices[target].Computer? ==> r == (net, NotARouter)
    ensures net.devices[target].Router666? && net.devices[computer].connectedRouter == Some(target) ==>
              r == (net, AlreadyConnected)
    ensures net.devices[target].Router666? && net.devices[computer].connectedRouter != Some(target) ==>
              r == RequestConnection(net, computer, target)
  {
    if net.devices[target].Router666? && net.devices[computer].connectedRouter != Some(target) then
      RequestConnection(net, computer, target)
    else if net.devices[target].Router666? then (net, AlreadyConnected)
    else (net, NotARouter)
  }

  lemma RequestConnectionKeepsValid(net: Network, device: DeviceId, target: DeviceId)
    requires Valid(net) && device in net.devices && target in net.devices
    ensures Valid(RequestConnection(net, device, target).0)
  {
    var (n, res) := RequestConnection(net, device, target);
    if res == Connected {
      forall i | 0 <= i < |n.registry|
        ensures n.registry[i].id in n.devices && n.devices[n.registry[i].id].name == n.registry[i].name
      {
        assert net.registry[i].id in net.devices;
      }
    }
  }

  /** `Router666.sendMessage`: an up router broadcasts as itself; a down one
      delivers nothing. */
  function RouterSendMessage(net: Network, router: DeviceId, message: string): (ds: seq<Delivery>)
    requires router in net.devices && net.devices[router].Router666?
    ensures !net.devices[router].isUp ==> ds == []
    ensures forall d :: d in ds ==> d.to != router && d.to in Ids(net.registry) && d.message == message
    ensures net.devices[router].isUp && DistinctIds(net.registry) ==>
              forall x :: multiset(ds)[Delivery(x, message)] == (if x != router && x in Ids(net.registry) then 1 else 0)
  {
    if net.devices[router].isUp then
      var ds := Broadcast(net.registry, message, router);
      if DistinctIds(net.registry) then BroadcastReachesEachOnce(net.registry, message, router); ds else ds
    else []
  }

  /** `Computer.sendMessage`: relayed through the computer's router, which
      is the sender of the broadcast; nothing without a router. */
  function ComputerSendMessage(net: Network, computer: DeviceId, message: string): (ds: seq<Delivery>)
    requires Valid(net) && computer in net.devices && net.devices[computer].Computer?
    ensures net.devices[computer].connectedRouter.None? ==> ds == []
  {
    match net.devices[computer].connectedRouter
    case None => []
    case Some(router) => RouterSendMessage(net, router, message)
  }

  /** A computer's message comes back to the computer itself (the router,
      not the computer, is the sender) and reaches every registered device
      but the router exactly once. */
  lemma ComputerMessageEchoes(net: Network, computer: DeviceId, message: string, x: DeviceId)
    requires Valid(net) && computer in net.devices && net.devices[computer].Computer?
    requires net.devices[computer].connectedRouter.Some?
    requires net.devices[net.devices[computer].connectedRouter.value].isUp
    ensures var router := net.devices[computer].connectedRouter.value;
            multiset(ComputerSendMessage(net, computer, message))[Delivery(x, message)] ==
              (if x != router && x in Ids(net.registry) then 1 else 0)
    ensures computer in Ids(net.registry) ==> Delivery(computer, message) in ComputerSendMessage(net, computer, message)
  {
    var router := net.devices[computer].connectedRouter.value;
    BroadcastExactlyOnce(net.registry, message, router, x);
    BroadcastExactlyOnce(net.registry, message, router, computer);
  }

  /** The network after the router's `isUp` flag is set to `up`. */
  function SetUp(net: Network, router: DeviceId, up: bool): Network
    requires router in net.devices && net.devices[router].Router666?
  {
    net.(devices := net.devices[router := net.devices[router].(isUp := up)])
  }

  /** Flipping a router's flag touches nothing else and keeps the network
      consistent. */
  lemma SetUpFrame(net: Network, router: DeviceId, up: bool)
    requires router in net.devices && net.devices[router].Router666?
    ensures var n := SetUp(net, router, up);
            && n.registry == net.registry
            && n.devices.Keys == net.devices.Keys
            && n.devices[router] == net.devices[router].(isUp := up)
            && (forall id :: id in net.devices && id != router ==> n.devices[id] == net.devices[id])
            && (Valid(net) ==> Valid(n))
  {
  }

  /** `goDown`: the router goes down and tells every other registered device
      exactly once; no other device changes. */
  function GoDown(net: Network, router: DeviceId): (o: Outcome)
    requires router in net.devices && net.devices[router].Router666?
    ensures router in o.net.devices && o.net.devices[router] == net.devices[router].(isUp := false)
    ensures o.net.registry == net.registry && o.net.devices.Keys == net.devices.Keys
    ensures forall id :: id in net.devices && id != router ==> o.net.devices[id] == net.devices[id]
    ensures Valid(net) ==> Valid(o.net)
    ensures forall d :: d in o.deliveries ==> d.to != router && d.message == net.devices[router].name + " (Router) is down!"
    ensures DistinctIds(net.registry) ==>
              forall x :: multiset(o.deliveries)[Delivery(x, net.devices[router].name + " (Router) is down!")] ==
                          (if x != router && x in Ids(net.registry) then 1 else 0)
  {
    var message := net.devices[router].name + " (Router) is down!";
    SetUpFrame(net, router, false);
    if DistinctIds(net.registry) then
      BroadcastReachesEachOnce(net.registry, message, router);
      Outcome(SetUp(net, router, false), Broadcast(net.registry, message, router))
    else
      Outcome(SetUp(net, router, false), Broadcast(net.registry, message, router))
  }

  /** `comeUp`: the router comes back and tells every other registered
      device exactly once; no other device changes. */
  function ComeUp(net: Network, router: DeviceId): (o: Outcome)
    requires router in net.devices && net.devices[router].Router666?
    ensures router in o.net.devices && o.net.devices[router] == net.devices[router].(isUp := true)
    ensures o.net.registry == net.registry && o.net.devices.Keys == net.devices.Keys
    ensures forall id :: id in net.devices && id != router ==> o.net.devices[id] == net.devices[id]
    ensures Valid(net) ==> Valid(o.net)
    ensures forall d :: d in o.deliveries ==> d.to != router && d.message == net.devices[router].name + " (Router) is back up!"
    ensures DistinctIds(net.registry) ==>
              forall x :: multiset(o.deliveries)[Delivery(x, net.devices[router].name + " (Router) is back up!")] ==
                          (if x != router && x in Ids(net.registry) then 1 else 0)
  {
    var message := net.devices[router].name + " (Router) is back up!";
    SetUpFrame(net, router, true);
    if DistinctIds(net.registry) then
      BroadcastReachesEachOnce(net.registry, message, router);
      Outcome(SetUp(net, router, true), Broadcast(net.registry, message, router))
    else
      Outcome(SetUp(net, router, true), Broadcast(net.registry, message, router))
  }

  /** Going down and coming back up restores an up router's network, and
      coming up and going down restores a down one's. */
  lemma DownThenUpRestores(net: Network, router: DeviceId)
    requires router in net.devices && net.devices[router].Router666?
    ensures net.devices[router].isUp ==> ComeUp(GoDown(net, router).net, router).net == net
    ensures !net.devices[router].isUp ==> GoDown(ComeUp(net, router).net, router).net == net
  {
    var n1 := GoDown(net, router).net;
    var n2 := ComeUp(n1, router).net;
    if net.devices[router].isUp {
      assert n2.devices == net.devices;
    } else {
      var m1 := ComeUp(net, router).net;
      assert GoDown(m1, router).net.devices == net.devices;
    }
  }

  /** Once its router is down, a computer's messages go nowhere. */
  lemma DownRouterSilencesComputer(net: Network, router: DeviceId, computer: DeviceId, message: string)
    requires Valid(net) && router in net.devices && net.devices[router].Router666?
    requires computer in net.devices && net.devices[computer].Computer?
    requires net.devices[computer].connectedRouter == Some(router)
    ensures Valid(GoDown(net, router).net)
    ensures ComputerSendMessage(GoDown(net, router).net, computer, message) == []
  {
  }
}
