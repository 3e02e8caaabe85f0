/** The Flyweight demo of Flyweight.kt: `NetworkPacketFactory` caches one
    `NetworkPacketFlyweight` per string key built from source IP,
    destination IP and protocol, and hands out the cached instance on every
    later request with the same key.

    Sharing is about instances, so each flyweight carries an `id`: the
    number of flyweights the factory had made before it. The key is the
    three fields joined by "-", as written, so two different triples can
    share a key (see `KeyCollision`). */
module PacketFlyweight {
  import opened Platform

  /** A `NetworkPacketFlyweight` instance. */
  datatype Packet = Packet(id: nat, sourceIP: string, destinationIP: string, protocol: string)

  /** The factory's `packets` map. */
  datatype Factory = Factory(packets: map<string, Packet>)

  const EmptyFactory: Factory := Factory(map[])

  /** The cache key `"$sourceIP-$destinationIP-$protocol"`. */
  function Key(sourceIP: string, destinationIP: string, protocol: string): string {
    sourceIP + "-" + destinationIP + "-" + protocol
  }

  /** Splitting at the first dash: a dash-free head followed by "-" is
      determined by the joined string. */
  lemma SplitAtDash(a: string, r: string, a': string, r': string)
    requires '-' !in a && '-' !in a'
    requires a + "-" + r == a' + "-" + r'
    ensures a == a' && r == r'
  {
    var k := a + "-" + r;
    var k' := a' + "-" + r';
    assert forall i :: 0 <= i < |a| ==> k[i] == a[i] && k[i] != '-';
    assert forall i :: 0 <= i < |a'| ==> k'[i] == a'[i] && k'[i] != '-';
    assert k[|a|] == '-' && k'[|a'|] == '-';
    assert |a| == |a'|;
    assert a == k[..|a|] && a' == k'[..|a'|];
    assert r == k[|a| + 1..] && r' == k'[|a'| + 1..];
  }

  /** The complement of `KeyCollision`: when neither address contains a
      dash, equal keys mean equal requests, so the cache shares a flyweight
      only between identical requests. */
  lemma KeyInjectiveWithoutDashes(s: string, d: string, p: string, s': string, d': string, p': string)
    requires '-' !in s && '-' !in d && '-' !in s' && '-' !in d'
    ensures Key(s, d, p) == Key(s', d', p') <==> (s, d, p) == (s', d', p')
  {
    if Key(s, d, p) == Key(s', d', p') {
      assert Key(s, d, p) == s + "-" + (d + "-" + p);
      assert Key(s', d', p') == s' + "-" + (d' + "-" + p');
      SplitAtDash(s, d + "-" + p, s', d' + "-" + p');
      SplitAtDash(d, p, d', p');
    }
  }

  /** Every cached flyweight sits under its own key, and the instances are
      numbered `0 .. |packets| - 1` without repetition. */
  predicate Valid(f: Factory) {
    && (forall k :: k in f.packets ==>
          f.packets[k].id < |f.packets| &&
          Key(f.packets[k].sourceIP, f.packets[k].destinationIP, f.packets[k].protocol) == k)
    && (forall k1, k2 :: k1 in f.packets && k2 in f.packets && k1 != k2 ==> f.packets[k1].id != f.packets[k2].id)
  }

  /** `getPacket`: `getOrPut` on the key. A hit returns the cached instance
      and changes nothing; a miss makes a new flyweight from the requested
      fields and caches it. */
  function GetPacket(f: Factory, sourceIP: string, destinationIP: string, protocol: string): (r: (Factory, Packet))
    ensures var key := Key(sourceIP, destinationIP, protocol);
            && key in r.0.packets && r.0.packets[key] == r.1
            && r.0.packets.Keys == f.packets.Keys + {key}
            && (forall k :: k in f.packets ==> r.0.packets[k] == f.packets[k])
            && (key in f.packets ==> r == (f, f.packets[key]))
            && (key !in f.packets ==>
                  && r.1.sourceIP == sourceIP && r.1.destinationIP == destinationIP && r.1.protocol == protocol
                  && |r.0.packets| == |f.packets| + 1)
  {
    var key := Key(sourceIP, destinationIP, protocol);
    if key in f.packets then (f, f.packets[key])
    else
      var p := Packet(|f.packets|, sourceIP, destinationIP, protocol);
      (Factory(f.packets[key := p]), p)
  }

  /** A miss makes an instance distinct from every cached one. */
  lemma GetPacketKeepsValid(f: Factory, sourceIP: string, destinationIP: string, protocol: string)
    requires Valid(f)
    ensures Valid(GetPacket(f, sourceIP, destinationIP, protocol).0)
    ensures var key := Key(sourceIP, destinationIP, protocol);
            key !in f.packets ==>
              forall k :: k in f.packets ==> f.packets[k].id != GetPacket(f, sourceIP, destinationIP, protocol).1.id
  {
  }

  /** A request with the fields of a cached flyweight gets that very
      instance, and asking again gives the same instance: the factory is
      idempotent. */
  lemma GetPacketIdempotent(f: Factory, sourceIP: string, destinationIP: string, protocol: string)
    ensures var (f1, p1) := GetPacket(f, sourceIP, destinationIP, protocol);
            GetPacket(f1, sourceIP, destinationIP, protocol) == (f1, p1)
  {
  }

  /** As written the key does not separate its fields: two requests that
      differ in every field but join to the same key share one instance,
      and the second caller gets a flyweight with the first caller's
      addresses. */
  lemma KeyCollision()
    ensures Key("10.0.0-1", "2", "TCP") == Key("10.0.0", "1-2", "TCP")
    ensures var (f1, p1) := GetPacket(EmptyFactory, "10.0.0-1", "2", "TCP");
            var (f2, p2) := GetPacket(f1, "10.0.0", "1-2", "TCP");
            p2 == p1 && p2.sourceIP != "10.0.0" && |f2.packets| == 1
  {
    assert Key("10.0.0-1", "2", "TCP") == Key("10.0.0", "1-2", "TCP");
    assert "10.0.0-1" != "10.0.0" by { assert |"10.0.0-1"| != |"10.0.0"|; }
  }

  /** Several requests in turn: the factory afterwards and the instance
      handed out for each. */
  function GetPackets(f: Factory, requests: seq<(string, string, string)>): (r: (Factory, seq<Packet>))
    ensures |r.1| == |requests|
    decreases |requests|
  {
    if |requests| == 0 then (f, [])
    else
      var (s, d, p) := requests[0];
      var (f1, p1) := GetPacket(f, s, d, p);
      var (f2, ps) := GetPackets(f1, requests[1..]);
      (f2, [p1] + ps)
  }

  function RequestKeys(requests: seq<(string, string, string)>): set<string>
    decreases |requests|
  {
    if |requests| == 0 then {}
    else {Key(requests[0].0, requests[0].1, requests[0].2)} + RequestKeys(requests[1..])
  }

  /** One request more at the front of a run. */
  lemma GetPacketsStep(f: Factory, requests: seq<(string, string, string)>)
    requires |requests| > 0
    ensures var (s, d, p) := requests[0];
            var (f1, p1) := GetPacket(f, s, d, p);
            && GetPackets(f, requests).0 == GetPackets(f1, requests[1..]).0
            && GetPackets(f, requests).1 == [p1] + GetPackets(f1, requests[1..]).1
  {
  }

  /** The cache ends up holding exactly the keys it held plus the keys
      requested, and keeps every entry it had. */
  lemma GetPacketsCachesRequestedKeys(f: Factory, requests: seq<(string, string, string)>)
    ensures var f' := GetPackets(f, requests).0;
            && f'.packets.Keys == f.packets.Keys + RequestKeys(requests)
            && (forall k :: k in f.packets ==> f'.packets[k] == f.packets[k])
  {
    GetPacketsKeys(f, requests);
    GetPacketsKeepsEntries(f, requests);
  }

  lemma {:induction false} GetPacketsKeys(f: Factory, requests: seq<(string, string, string)>)
    ensures GetPackets(f, requests).0.packets.Keys == f.packets.Keys + RequestKeys(requests)
    decreases |requests|
  {
    if |requests| > 0 {
      var (s, d, p) := requests[0];
      var f1 := GetPacket(f, s, d, p).0;
      GetPacketsStep(f, requests);
      GetPacketsKeys(f1, requests[1..]);
    }
  }

  lemma {:induction false} GetPacketsKeepsEntries(f: Factory, requests: seq<(string, string, string)>)
    ensures var f' := GetPackets(f, requests).0;
            forall k :: k in f.packets ==> k in f'.packets && f'.packets[k] == f.packets[k]
    decreases |requests|
  {
    if |requests| > 0 {
      var (s, d, p) := requests[0];
      var f1 := GetPacket(f, s, d, p).0;
      GetPacketsStep(f, requests);
      GetPacketsKeepsEntries(f1, requests[1..]);
    }
  }

  /** A run of requests keeps the cache valid, so a run makes one distinct
      flyweight per distinct new key. */
  lemma {:induction false} GetPacketsKeepsValid(f: Factory, requests: seq<(string, string, string)>)
    requires Valid(f)
    ensures Valid(GetPackets(f, requests).0)
    decreases |requests|
  {
    if |requests| > 0 {
      var (s, d, p) := requests[0];
      GetPacketKeepsValid(f, s, d, p);
      var f1 := GetPacket(f, s, d, p).0;
      GetPacketsStep(f, requests);
      GetPacketsKeepsValid(f1, requests[1..]);
    }
  }

  /** Starting from an empty factory, the cache holds one flyweight per
      distinct key requested so far, and a longer run never shrinks it. */
  lemma CacheSizeIsDistinctKeys(requests: seq<(string, string, string)>, more: seq<(string, string, string)>)
    ensures |GetPackets(EmptyFactory, requests).0.packets| == |RequestKeys(requests)|
    ensures GetPackets(EmptyFactory, requests).0.packets.Keys <=
            GetPackets(GetPackets(EmptyFactory, requests).0, more).0.packets.Keys
  {
    var f := GetPackets(EmptyFactory, requests).0;
    GetPacketsCachesRequestedKeys(EmptyFactory, requests);
    GetPacketsCachesRequestedKeys(f, more);
    assert f.packets.Keys == RequestKeys(requests);
    assert |f.packets| == |f.packets.Keys|;
  }

  /** Requests with equal keys get the same instance, wherever they stand
      in the run. */
  lemma {:induction false} EqualKeysShareInstance(f: Factory, requests: seq<(string, string, string)>, i: nat, j: nat)
    requires i < j < |requests|
    requires Key(requests[i].0, requests[i].1, requests[i].2) == Key(requests[j].0, requests[j].1, requests[j].2)
    ensures GetPackets(f, requests).1[i] == GetPackets(f, requests).1[j]
    decreases |requests|
  {
    if i > 0 {
      var (s, d, p) := requests[0];
      var (f1, p1) := GetPacket(f, s, d, p);
      var rest := requests[1..];
      assert rest[i - 1] == requests[i] && rest[j - 1] == requests[j];
      EqualKeysShareInstance(f1, rest, i - 1, j - 1);
      var ps := GetPackets(f1, rest).1;
      GetPacketsStep(f, requests);
      assert GetPackets(f, requests).1 == [p1] + ps;
      assert ([p1] + ps)[i] == ps[i - 1] && ([p1] + ps)[j] == ps[j - 1];
    } else {
      FirstRequestShared(f, requests, j);
    }
  }

  lemma FirstRequestShared(f: Factory, requests: seq<(string, string, string)>, j: nat)
    requires 0 < j < |requests|
    requires Key(requests[0].0, requests[0].1, requests[0].2) == Key(requests[j].0, requests[j].1, requests[j].2)
    ensures GetPackets(f, requests).1[0] == GetPackets(f, requests).1[j]
  {
    var (s, d, p) := requests[0];
    var (f1, p1) := GetPacket(f, s, d, p);
    var rest := requests[1..];
    var key := Key(s, d, p);
    var (f', ps) := GetPackets(f1, rest);
    GetPacketsStep(f, requests);
    assert rest[j - 1] == requests[j];
    HandedOutIsCached(f1, rest, j - 1);
    GetPacketsKeepsEntries(f1, rest);
    assert f'.packets[key] == f1.packets[key] == p1;
  }

  /** The instance handed out for a request is the one the final cache
      holds under its key. */
  lemma {:induction false} HandedOutIsCached(f: Factory, requests: seq<(string, string, string)>, i: nat)
    requires i < |requests|
    ensures var (f', ps) := GetPackets(f, requests);
            var key := Key(requests[i].0, requests[i].1, requests[i].2);
            key in f'.packets && f'.packets[key] == ps[i]
    decreases |requests|
  {
    var (s, d, p) := requests[0];
    var f1 := GetPacket(f, s, d, p).0;
    GetPacketsStep(f, requests);
    GetPacketsKeepsEntries(f1, requests[1..]);
    if i > 0 {
      HandedOutIsCached(f1, requests[1..], i - 1);
    }
  }

  /** Requests with different keys get different instances. */
  lemma DifferentKeysDifferentInstances(f: Factory, requests: seq<(string, string, string)>, i: nat, j: nat)
    requires Valid(f) && i < |requests| && j < |requests|
    requires Key(requests[i].0, requests[i].1, requests[i].2) != Key(requests[j].0, requests[j].1, requests[j].2)
    ensures GetPackets(f, requests).1[i].id != GetPackets(f, requests).1[j].id
  {
    HandedOutIsCached(f, requests, i);
    HandedOutIsCached(f, requests, j);
    GetPacketsKeepsValid(f, requests);
  }

  /** `process`: the line a flyweight prints for a payload of `size` bytes. */
  function Process(p: Packet, size: nat): (l: Line)
    ensures l.Out?
  {
    Out("Processing packet: Source IP: " + p.sourceIP + ", Destination IP: " + p.destinationIP +
        ", Protocol: " + p.protocol + ", Payload size: " + Decimal(size))
  }

  /** The five packets of the demo driver. */
  const DemoRequests: seq<(string, string, string)> := [
    ("192.168.0.10", "192.168.0.1", "TCP"),
    ("192.168.0.20", "192.168.0.1", "UDP"),
    ("192.168.0.10", "192.168.0.1", "TCP"),
    ("10.0.0.50", "192.168.0.1", "TCP"),
    ("192.168.0.30", "192.168.0.1", "UDP")
  ]

  /** The demo's distinct keys: the first and third requests share one. */
  lemma DemoKeys()
    ensures var rs := DemoRequests;
            RequestKeys(rs) == {Key(rs[0].0, rs[0].1, rs[0].2), Key(rs[1].0, rs[1].1, rs[1].2),
                                Key(rs[3].0, rs[3].1, rs[3].2), Key(rs[4].0, rs[4].1, rs[4].2)}
  {
    var rs := DemoRequests;
    assert rs[2] == rs[0];
    assert rs[1..][1..][1..][1..][1..] == [];
  }

  lemma DemoKeysDistinct()
    ensures var rs := DemoRequests;
            |{Key(rs[0].0, rs[0].1, rs[0].2), Key(rs[1].0, rs[1].1, rs[1].2),
              Key(rs[3].0, rs[3].1, rs[3].2), Key(rs[4].0, rs[4].1, rs[4].2)}| == 4
  {
    var rs := DemoRequests;
    var k0 := Key(rs[0].0, rs[0].1, rs[0].2);
    var k1 := Key(rs[1].0, rs[1].1, rs[1].2);
    var k3 := Key(rs[3].0, rs[3].1, rs[3].2);
    var k4 := Key(rs[4].0, rs[4].1, rs[4].2);
    assert k0[..12] == "192.168.0.10" && k1[..12] == "192.168.0.20" && k4[..12] == "192.168.0.30";
    assert k0[10] == '1' && k1[10] == '2' && k4[10] == '3';
    assert |k3| == 25 && |k0| == 28 && |k1| == 28 && |k4| == 28;
  }

  /** In the demo the first and third packets share one flyweight and the
      factory ends with four. */
  lemma DemoSharesOneInstance()
    ensures GetPackets(EmptyFactory, DemoRequests).1[0] == GetPackets(EmptyFactory, DemoRequests).1[2]
    ensures |GetPackets(EmptyFactory, DemoRequests).0.packets| == 4
  {
    var rs := DemoRequests;
    assert Key(rs[0].0, rs[0].1, rs[0].2) == Key(rs[2].0, rs[2].1, rs[2].2);
    EqualKeysShareInstance(EmptyFactory, rs, 0, 2);
    GetPacketsCachesRequestedKeys(EmptyFactory, rs);
    DemoKeys();
    DemoKeysDistinct();
  }
}
