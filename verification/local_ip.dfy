/** The development server's address lookup (server.js). Express, static
    file serving and the listen callback are not part of this model;
    `os.networkInterfaces()` is given as its result, interface names in
    `Object.keys` order. */
module LocalIp {
  import opened Common

  datatype NetAddress = NetAddress(address: string, family: string, internal: bool)
  datatype NetInterface = NetInterface(name: string, addresses: seq<NetAddress>)

  /** An address other devices on the network can reach. */
  predicate Reachable(a: NetAddress) {
    a.family == "IPv4" && !a.internal
  }

  /** All addresses, interface by interface. */
  function Flatten(ifaces: seq<NetInterface>): seq<NetAddress> {
    if ifaces == [] then []
    else Flatten(ifaces[..|ifaces| - 1]) + ifaces[|ifaces| - 1].addresses
  }

  function FirstReachable(s: seq<NetAddress>): (found: Option<string>)
    ensures found.None? <==> forall k :: 0 <= k < |s| ==> !Reachable(s[k])
    ensures found.Some? ==> exists k :: FirstReachableAt(s, k) && s[k].address == found.value
  {
    if s == [] then None
    else if Reachable(s[0]) then Some(s[0].address)
    else
      var r := FirstReachable(s[1..]);
      assert forall k :: 1 <= k < |s| ==> s[k] == s[1..][k - 1];
      if r.Some? then FirstReachableShift(s, r.value); r else r
  }

  lemma FirstReachableShift(s: seq<NetAddress>, a: string)
    requires s != [] && !Reachable(s[0])
    requires exists k :: FirstReachableAt(s[1..], k) && s[1..][k].address == a
    ensures exists k :: FirstReachableAt(s, k) && s[k].address == a
  {
    var k :| FirstReachableAt(s[1..], k) && s[1..][k].address == a;
    assert FirstReachableAt(s, k + 1);
  }

  /** `s[k]` is reachable and no address before it is. */
  ghost predicate FirstReachableAt(s: seq<NetAddress>, k: int) {
    0 <= k < |s| && Reachable(s[k]) && forall j :: 0 <= j < k ==> !Reachable(s[j])
  }

  lemma {:induction false} FlattenAppend(a: seq<NetInterface>, b: seq<NetInterface>)
    ensures Flatten(a + b) == Flatten(a) + Flatten(b)
    decreases |b|
  {
    if b != [] {
      var b' := b[..|b| - 1];
      assert (a + b)[..|a + b| - 1] == a + b';
      FlattenAppend(a, b');
    } else {
      assert a + b == a;
    }
  }

  lemma {:induction false} FirstReachableAfter(a: seq<NetAddress>, b: seq<NetAddress>)
    requires forall k :: 0 <= k < |a| ==> !Reachable(a[k])
    ensures FirstReachable(a + b) == FirstReachable(b)
    decreases |a|
  {
    if a != [] {
      assert (a + b)[1..] == a[1..] + b;
      FirstReachableAfter(a[1..], b);
    } else {
      assert a + b == b;
    }
  }

  /** `getLocalIP()`: the first reachable IPv4 address over all interfaces,
      or "localhost" when there is none. */
  method GetLocalIP(ifaces: seq<NetInterface>) returns (ip: string)
    ensures ip == FirstReachable(Flatten(ifaces)).GetOr("localhost")
    ensures (forall k :: 0 <= k < |Flatten(ifaces)| ==> !Reachable(Flatten(ifaces)[k])) ==> ip == "localhost"
    ensures ip == "localhost"
      || exists k :: FirstReachableAt(Flatten(ifaces), k) && Flatten(ifaces)[k].address == ip
  {
    for n := 0 to |ifaces|
      invariant forall k :: 0 <= k < |Flatten(ifaces[..n])| ==> !Reachable(Flatten(ifaces[..n])[k])
    {
      ghost var done := Flatten(ifaces[..n]);
      assert ifaces[..n + 1][..n] == ifaces[..n];
      var addresses := ifaces[n].addresses;
      for j := 0 to |addresses|
        invariant forall k :: 0 <= k < j ==> !Reachable(addresses[k])
      {
        var a := addresses[j];
        if a.family != "IPv4" || a.internal {
          continue;
        }
        FoundAt(ifaces, n, j);
        return a.address;
      }
      assert addresses == addresses[..|addresses|];
    }
    assert ifaces[..|ifaces|] == ifaces;
    return "localhost";
  }

  lemma {:induction false} FlattenSnoc(a: seq<NetInterface>, x: NetInterface)
    ensures Flatten(a + [x]) == Flatten(a) + x.addresses
  {
    assert (a + [x])[..|a|] == a;
  }

  lemma {:induction false} FlattenSplit(ifaces: seq<NetInterface>, n: nat)
    requires n < |ifaces|
    ensures Flatten(ifaces) == Flatten(ifaces[..n]) + ifaces[n].addresses + Flatten(ifaces[n + 1..])
  {
    var upTo := ifaces[..n + 1];
    var rest := ifaces[n + 1..];
    assert upTo == ifaces[..n] + [ifaces[n]];
    FlattenSnoc(ifaces[..n], ifaces[n]);
    FlattenAppend(upTo, rest);
    assert upTo + rest == ifaces;
  }

  /** The address the scan stops at is the first reachable one overall. */
  lemma {:induction false} FoundAt(ifaces: seq<NetInterface>, n: nat, j: nat)
    requires n < |ifaces| && j < |ifaces[n].addresses| && Reachable(ifaces[n].addresses[j])
    requires forall k :: 0 <= k < |Flatten(ifaces[..n])| ==> !Reachable(Flatten(ifaces[..n])[k])
    requires forall k :: 0 <= k < j ==> !Reachable(ifaces[n].addresses[k])
    ensures FirstReachable(Flatten(ifaces)) == Some(ifaces[n].addresses[j].address)
  {
    var addresses := ifaces[n].addresses;
    var done := Flatten(ifaces[..n]);
    var after := addresses[j..] + Flatten(ifaces[n + 1..]);
    var before := done + addresses[..j];
    FlattenSplit(ifaces, n);
    assert done + addresses + Flatten(ifaces[n + 1..]) == before + after by {
      assert addresses == addresses[..j] + addresses[j..];
    }
    forall k | 0 <= k < |before| ensures !Reachable(before[k]) {
      if k >= |done| {
        assert before[k] == addresses[k - |done|];
      }
    }
    FirstReachableAfter(before, after);
    assert after[0] == addresses[j];
  }
}
