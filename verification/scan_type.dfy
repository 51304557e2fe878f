/**
  The nmap scan techniques the wizard offers. In the Go program `scanType` is
  an `int` whose declared constants are numbered 0..6 by `iota`, and `String()`
  indexes a seven-entry flag array with that number. Here the constants are a
  datatype, so the flag mapping is total by construction; `Lookup` keeps the
  Go behaviour for an arbitrary `int`, where an out-of-range value panics.
 */
module ScanTypes {
  import opened Wrappers
  import FlagTable

  datatype ScanType = TcpSyn | TcpConnect | TcpAck | TcpWindow | TcpMaimon | UdpScan | TcpNull

  /** The flag array of `String()`, in iota order. */
  const Flags: seq<string> := ["-sS", "-sT", "-sA", "-sW", "-sM", "-sU", "-sN"]

  /** The iota value of each constant; every one indexes the flag array. */
  function Ordinal(s: ScanType): (i: nat)
    ensures i < |Flags|
  {
    match s
    case TcpSyn => 0
    case TcpConnect => 1
    case TcpAck => 2
    case TcpWindow => 3
    case TcpMaimon => 4
    case UdpScan => 5
    case TcpNull => 6
  }

  /** The declared constant an `int`-backed value stands for, if any. */
  function FromOrdinal(v: int): (r: Option<ScanType>)
    ensures r.Some? <==> 0 <= v < |Flags|
    ensures r.Some? ==> Ordinal(r.value) == v
  {
    if v == 0 then Some(TcpSyn)
    else if v == 1 then Some(TcpConnect)
    else if v == 2 then Some(TcpAck)
    else if v == 3 then Some(TcpWindow)
    else if v == 4 then Some(TcpMaimon)
    else if v == 5 then Some(UdpScan)
    else if v == 6 then Some(TcpNull)
    else None
  }

  /** `String()`: the flag array indexed by the constant's iota value. */
  function ToFlag(s: ScanType): (r: string)
    ensures s == TcpSyn ==> r == "-sS"
    ensures s == TcpConnect ==> r == "-sT"
    ensures s == TcpAck ==> r == "-sA"
    ensures s == TcpWindow ==> r == "-sW"
    ensures s == TcpMaimon ==> r == "-sM"
    ensures s == UdpScan ==> r == "-sU"
    ensures s == TcpNull ==> r == "-sN"
    ensures |r| == 3 && r[..2] == "-s"
  {
    Flags[Ordinal(s)]
  }

  /**
    `scanType(v).String()` for any `int` value `v`: `None` is the index-out-of-range
    panic, which happens exactly for the values that are not a declared constant.
   */
  function Lookup(v: int): (r: Option<string>)
    ensures r.Some? <==> FromOrdinal(v).Some?
    ensures r.Some? ==> r.value == ToFlag(FromOrdinal(v).value)
  {
    FlagTable.At(Flags, v)
  }

  /**
    The iota numbering is a bijection between the constants and the indices of
    the flag array, and the Go `String()` on each constant's number is its flag.
   */
  lemma OrdinalRoundTrip(s: ScanType)
    ensures FromOrdinal(Ordinal(s)) == Some(s)
    ensures Lookup(Ordinal(s)) == Some(ToFlag(s))
  {
  }

  /** The scan type a flag names, reading the flag array backwards. */
  function FromFlag(f: string): (r: Option<ScanType>)
    ensures r.Some? ==> ToFlag(r.value) == f
    ensures r.None? ==> f !in Flags
  {
    match FlagTable.IndexOf(Flags, f)
    case None => None
    case Some(i) => FromOrdinal(i)
  }

  lemma FlagsDistinct()
    ensures FlagTable.Distinct(Flags)
  {
    assert Flags[1..] == ["-sT", "-sA", "-sW", "-sM", "-sU", "-sN"];
  }

  /** Every scan type is recovered from its flag. */
  lemma FromFlagToFlag(s: ScanType)
    ensures FromFlag(ToFlag(s)) == Some(s)
  {
    FlagsDistinct();
    FlagTable.IndexOfDistinct(Flags, Ordinal(s));
  }

  /** Distinct scan types never produce the same flag. */
  lemma ToFlagInjective(a: ScanType, b: ScanType)
    ensures ToFlag(a) == ToFlag(b) <==> a == b
  {
    if ToFlag(a) == ToFlag(b) {
      FromFlagToFlag(a);
      FromFlagToFlag(b);
    }
  }

  /** A string is a scan-technique flag exactly when it is an entry of the flag array. */
  lemma FromFlagComplete(f: string)
    ensures FromFlag(f).Some? <==> f in Flags
  {
    if f in Flags {
      var i :| 0 <= i < |Flags| && Flags[i] == f;
      FromFlagToFlag(FromOrdinal(i).value);
    }
  }
}
