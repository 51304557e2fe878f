/**
  The nmap output formats the wizard offers. As with scan types, Go declares
  `Format` as an `int` with constants 0..3 by `iota`, and `String()` indexes a
  four-entry flag array with that number.
 */
module Formats {
  import opened Wrappers
  import FlagTable

  datatype Format = Normal | Xml | Script | Grepable

  /** The flag array of `String()`, in iota order. */
  const Flags: seq<string> := ["-oN", "-oX", "-oS", "-oG"]

  /** The iota value of each constant; every one indexes the flag array. */
  function Ordinal(o: Format): (i: nat)
    ensures i < |Flags|
  {
    match o
    case Normal => 0
    case Xml => 1
    case Script => 2
    case Grepable => 3
  }

  /** The declared constant an `int`-backed value stands for, if any. */
  function FromOrdinal(v: int): (r: Option<Format>)
    ensures r.Some? <==> 0 <= v < |Flags|
    ensures r.Some? ==> Ordinal(r.value) == v
  {
    if v == 0 then Some(Normal)
    else if v == 1 then Some(Xml)
    else if v == 2 then Some(Script)
    else if v == 3 then Some(Grepable)
    else None
  }

  /** `String()`: the flag array indexed by the constant's iota value. */
  function ToFlag(o: Format): (r: string)
    ensures o == Normal ==> r == "-oN"
    ensures o == Xml ==> r == "-oX"
    ensures o == Script ==> r == "-oS"
    ensures o == Grepable ==> r == "-oG"
    ensures |r| == 3 && r[..2] == "-o"
  {
    Flags[Ordinal(o)]
  }

  /**
    `Format(v).String()` for any `int` value `v`: `None` is the index-out-of-range
    panic, which happens exactly for the values that are not a declared constant.
   */
  function Lookup(v: int): (r: Option<string>)
    ensures r.Some? <==> FromOrdinal(v).Some?
    ensures r.Some? ==> r.value == ToFlag(FromOrdinal(v).value)
  {
    FlagTable.At(Flags, v)
  }

  /**
    The iota numbering is a bijection between the constants and the indices of
    the flag array, and the Go `String()` on each constant's number is its flag.
   */
  lemma OrdinalRoundTrip(o: Format)
    ensures FromOrdinal(Ordinal(o)) == Some(o)
    ensures Lookup(Ordinal(o)) == Some(ToFlag(o))
  {
  }

  /** The output format a flag names, reading the flag array backwards. */
  function FromFlag(f: string): (r: Option<Format>)
    ensures r.Some? ==> ToFlag(r.value) == f
    ensures r.None? ==> f !in Flags
  {
    match FlagTable.IndexOf(Flags, f)
    case None => None
    case Some(i) => FromOrdinal(i)
  }

  lemma FlagsDistinct()
    ensures FlagTable.Distinct(Flags)
  {
    assert Flags[1..] == ["-oX", "-oS", "-oG"];
  }

  /** Every output format is recovered from its flag. */
  lemma FromFlagToFlag(o: Format)
    ensures FromFlag(ToFlag(o)) == Some(o)
  {
    FlagsDistinct();
    FlagTable.IndexOfDistinct(Flags, Ordinal(o));
  }

  /** Distinct output formats never produce the same flag. */
  lemma ToFlagInjective(a: Format, b: Format)
    ensures ToFlag(a) == ToFlag(b) <==> a == b
  {
    if ToFlag(a) == ToFlag(b) {
      FromFlagToFlag(a);
      FromFlagToFlag(b);
    }
  }

  /** A string is an output-format flag exactly when it is an entry of the flag array. */
  lemma FromFlagComplete(f: string)
    ensures FromFlag(f).Some? <==> f in Flags
  {
    if f in Flags {
      var i :| 0 <= i < |Flags| && Flags[i] == f;
      FromFlagToFlag(FromOrdinal(i).value);
    }
  }
}
