/**
 * The network discovery engine (discovery.js): the mock CIDR expansion, the
 * sweep that collects probe hits, and the endianness hint.
 *
 * The probe is random and asynchronous; here each probe's outcome is drawn
 * from a parameter indexed by the probe's position in the sweep.
 */
module Discovery {

  import opened Common
  import opened Strings

  /** `expandCIDR`'s fixed length. */
  const SweepSize := 20

  /** The first three dotted components of the address part (before any '/'). */
  function CidrBase(cidr: string): string
  {
    var address := Split(cidr, "/")[0];
    var octets := Split(address, ".");
    Join(octets[..if |octets| < 3 then |octets| else 3], ".")
  }

  /** The i-th address of the sweep: the base, a dot, and `i + 10`. */
  function SweepAddress(base: string, i: nat): (r: string)
    ensures |r| > |base| + 1 && r[..|base| + 1] == base + "."
  {
    base + "." + NatToString(i + 10)
  }

  /** `expandCIDR`: always twenty addresses, last octets 10..29 in order. */
  function ExpandCIDR(cidr: string): (r: seq<string>)
    ensures |r| == SweepSize
    ensures forall i :: 0 <= i < |r| ==> r[i] == SweepAddress(CidrBase(cidr), i)
  {
    seq(SweepSize, i requires 0 <= i < SweepSize => SweepAddress(CidrBase(cidr), i))
  }

  /** The twenty addresses are pairwise distinct. */
  lemma ExpandCIDRDistinct(cidr: string)
    ensures forall i, j :: 0 <= i < j < SweepSize ==> ExpandCIDR(cidr)[i] != ExpandCIDR(cidr)[j]
  {
    var base := CidrBase(cidr);
    forall i, j | 0 <= i < j < SweepSize
      ensures ExpandCIDR(cidr)[i] != ExpandCIDR(cidr)[j]
    {
      var x, y := SweepAddress(base, i), SweepAddress(base, j);
      if x == y {
        assert x[|base| + 1..] == NatToString(i + 10);
        assert y[|base| + 1..] == NatToString(j + 10);
        NatToStringInjective(i + 10, j + 10);
      }
    }
  }

  /** The address part before the first '/' is the text in front of it. */
  lemma FirstSegment(s: string, rest: string)
    requires '/' !in s
    ensures Split(s + "/" + rest, "/")[0] == s
  {
    FindAfterFree(s, '/', rest);
    assert (s + "/" + rest)[..|s|] == s;
  }

  /** The prefix length is ignored: every CIDR over the same address expands alike, and like the bare address. */
  lemma PrefixIgnored(address: string, prefix: string)
    requires '/' !in address
    ensures ExpandCIDR(address + "/" + prefix) == ExpandCIDR(address)
  {
    FirstSegment(address, prefix);
    ContainsCharIff(address, '/');
    assert CidrBase(address + "/" + prefix) == CidrBase(address);
  }

  /** What the random part of one probe turned out to be. */
  datatype ProbeDraw =
    | Hit(deviceType: string, modelNumber: nat, slaveId: nat, latency: nat)
    | Miss
    | Threw

  datatype Device = Device(ip: string, deviceType: string, vendor: string, model: string,
                           protocol: string, slaveId: nat, latency: nat)

  /** `probeDevice`: a hit describes the probed address; a miss or a failure gives nothing. */
  function ProbeDevice(ip: string, protocol: string, draw: ProbeDraw): (r: Option<Device>)
    ensures r.Some? <==> draw.Hit?
    ensures r.Some? ==> r.value.ip == ip && r.value.protocol == protocol && r.value.vendor == "Generic"
  {
    match draw
    case Hit(t, m, slave, latency) =>
      Some(Device(ip, t, "Generic", Upper(t) + "-" + NatToString(m), protocol, slave, latency))
    case _ => None
  }

  function Upper(s: string): (r: string)
    ensures |r| == |s|
  {
    seq(|s|, i requires 0 <= i < |s| => UpperChar(s[i]))
  }

  /** The devices a sweep over `ips` collects: the hits, in probe order. */
  function Collected(ips: seq<string>, protocol: string, draws: nat -> ProbeDraw): (r: seq<Device>)
    ensures |r| <= |ips|
    ensures forall k :: 0 <= k < |r| ==> r[k].ip in ips && r[k].protocol == protocol
    decreases |ips|
  {
    if |ips| == 0 then []
    else
      var n := |ips| - 1;
      Collected(ips[..n], protocol, draws) + Found(ProbeDevice(ips[n], protocol, draws(n)))
  }

  /** What one probe adds to the results: its device, or nothing. */
  function Found(probe: Option<Device>): (r: seq<Device>)
    ensures probe.Some? ==> r == [probe.value]
    ensures probe.None? ==> r == []
  {
    if probe.Some? then [probe.value] else []
  }

  /** Sweeping one more address of `ips` adds what its probe finds. */
  lemma CollectedPrefix(ips: seq<string>, i: nat, protocol: string, draws: nat -> ProbeDraw)
    requires i < |ips|
    ensures Collected(ips[..i + 1], protocol, draws) == Collected(ips[..i], protocol, draws) + Found(ProbeDevice(ips[i], protocol, draws(i)))
  {
    var prefix := ips[..i + 1];
    assert prefix[..i] == ips[..i] && prefix[i] == ips[i];
  }

  /** A sweep where every probe hits returns one device per address, for the addresses in order. */
  lemma {:induction false} CollectedAllHits(ips: seq<string>, protocol: string, draws: nat -> ProbeDraw)
    requires forall k :: 0 <= k < |ips| ==> draws(k).Hit?
    ensures |Collected(ips, protocol, draws)| == |ips|
    ensures forall k :: 0 <= k < |ips| ==> Collected(ips, protocol, draws)[k].ip == ips[k]
    decreases |ips|
  {
    if |ips| > 0 {
      var n := |ips| - 1;
      var init := ips[..n];
      CollectedAllHits(init, protocol, draws);
      var before := Collected(init, protocol, draws);
      var d := ProbeDevice(ips[n], protocol, draws(n)).value;
      var r := Collected(ips, protocol, draws);
      assert r == before + [d];
      forall k | 0 <= k < |ips|
        ensures r[k].ip == ips[k]
      {
        if k < n {
          assert r[k] == before[k] && init[k] == ips[k];
        }
      }
    }
  }

  /** A sweep where no probe hits returns nothing. */
  lemma {:induction false} CollectedNoHits(ips: seq<string>, protocol: string, draws: nat -> ProbeDraw)
    requires forall k :: 0 <= k < |ips| ==> !draws(k).Hit?
    ensures Collected(ips, protocol, draws) == []
    decreases |ips|
  {
    if |ips| > 0 {
      CollectedNoHits(ips[..|ips| - 1], protocol, draws);
    }
  }

  /**
   * `scanCIDR`: probes the first twenty addresses of the expansion one after
   * the other and keeps each device found; a failing probe is skipped.
   */
  method ScanCIDR(cidr: string, protocol: string, draws: nat -> ProbeDraw) returns (results: seq<Device>)
    ensures results == Collected(ExpandCIDR(cidr)[..SweepSize], protocol, draws)
    ensures |results| <= SweepSize
  {
    var ips := ExpandCIDR(cidr)[..SweepSize];
    results := [];
    var i := 0;
    while i < |ips|
      invariant 0 <= i <= |ips|
      invariant results == Collected(ips[..i], protocol, draws)
    {
      CollectedPrefix(ips, i, protocol, draws);
      results := results + Found(ProbeDevice(ips[i], protocol, draws(i)));
      i := i + 1;
    }
    assert ips[..i] == ips;
  }

  /**
   * `autoHintEndian`: `bigPlausible` and `littlePlausible` say whether the two
   * 32-bit float readings of the first two registers lie strictly within
   * ±1e6. Only a float with at least two registers whose little-endian
   * reading alone is plausible is reported as little-endian.
   */
  function AutoHintEndian(expectedType: string, registerCount: nat, bigPlausible: bool, littlePlausible: bool): (r: string)
    ensures r == "big" || r == "little"
    ensures r == "little" <==> expectedType == "float" && registerCount >= 2 && littlePlausible && !bigPlausible
  {
    if expectedType == "float" && registerCount >= 2 then
      if bigPlausible && !littlePlausible then "big"
      else if littlePlausible && !bigPlausible then "little"
      else "big"
    else "big"
  }
}
