/**
  How the two flag tables relate: scan-technique flags all start with `-s`,
  output-format flags all start with `-o`, so no flag belongs to both.
 */
module Vocabulary {
  import FlagTable
  import ScanTypes
  import Formats

  /** No scan-technique flag equals any output-format flag. */
  lemma ScanAndFormatFlagsDisjoint(s: ScanTypes.ScanType, o: Formats.Format)
    ensures ScanTypes.ToFlag(s) != Formats.ToFlag(o)
  {
    // the flags differ in their second character, 's' against 'o'
  }

  /** Appending one table to the other keeps every flag distinct. */
  lemma {:induction false} DistinctAppend(a: seq<string>, b: seq<string>)
    requires FlagTable.Distinct(a) && FlagTable.Distinct(b)
    requires forall x :: x in a ==> x !in b
    ensures FlagTable.Distinct(a + b)
    decreases |a|
  {
    if |a| > 0 {
      assert (a + b)[1..] == a[1..] + b;
      DistinctAppend(a[1..], b);
    } else {
      assert a + b == b;
    }
  }

  /** The eleven flags of both tables are pairwise distinct. */
  lemma AllFlagsDistinct()
    ensures FlagTable.Distinct(ScanTypes.Flags + Formats.Flags)
  {
    ScanTypes.FlagsDistinct();
    Formats.FlagsDistinct();
    forall x | x in ScanTypes.Flags
      ensures x !in Formats.Flags
    {
      var i :| 0 <= i < |ScanTypes.Flags| && ScanTypes.Flags[i] == x;
      var s := ScanTypes.FromOrdinal(i).value;
      if x in Formats.Flags {
        var j :| 0 <= j < |Formats.Flags| && Formats.Flags[j] == x;
        ScanAndFormatFlagsDisjoint(s, Formats.FromOrdinal(j).value);
      }
    }
    DistinctAppend(ScanTypes.Flags, Formats.Flags);
  }
}
