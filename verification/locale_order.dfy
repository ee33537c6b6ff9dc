/** A stand-in for `String.prototype.localeCompare`: plain lexicographic order
    on code units, returning -1, 0 or 1. Locale collation is not modelled; what
    the sort relies on is only that this is a total order. */
module LocaleOrder {

  function Compare(a: string, b: string): (c: int)
    ensures -1 <= c <= 1
    ensures c == 0 <==> a == b
  {
    if |a| == 0 && |b| == 0 then 0
    else if |a| == 0 then -1
    else if |b| == 0 then 1
    else if a[0] < b[0] then -1
    else if a[0] > b[0] then 1
    else
      var c := Compare(a[1..], b[1..]);
      assert c == 0 ==> a == [a[0]] + a[1..] == [b[0]] + b[1..] == b;
      c
  }

  /** Swapping the operands flips the sign. */
  lemma {:induction false} CompareFlip(a: string, b: string)
    ensures Compare(a, b) == -Compare(b, a)
    decreases |a|
  {
    if |a| > 0 && |b| > 0 && a[0] == b[0] {
      CompareFlip(a[1..], b[1..]);
    }
  }

  /** The order is transitive. */
  lemma {:induction false} CompareTransitive(a: string, b: string, c: string)
    requires Compare(a, b) <= 0 && Compare(b, c) <= 0
    ensures Compare(a, c) <= 0
    decreases |a|
  {
    if |a| > 0 && |b| > 0 && |c| > 0 && a[0] == b[0] == c[0] {
      CompareTransitive(a[1..], b[1..], c[1..]);
    }
  }
}
