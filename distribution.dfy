/** A session distribution: the dictionary from time-of-use period name to
    fraction of the month's charging sessions. A dictionary is modelled by its
    items in insertion order, the order in which the calculators iterate and
    add them up. */
module Distribution {

  /** Real multiplication. Every product of two quantities in the model is
      written with it, so that two products with equal factors are equal
      by congruence alone. */
  function Mul(a: real, b: real): real
  {
    a * b
  }

  /** (period, value) items in insertion order. */
  type Items = seq<(string, real)>

  datatype Option<T> = None | Some(value: T)

  /** No period appears twice, as in a dictionary. */
  predicate UniqueKeys(d: Items)
  {
    forall i, j :: 0 <= i < j < |d| ==> d[i].0 != d[j].0
  }

  /** A dictionary's items: no period twice. */
  type Dist = d: Items | UniqueKeys(d) witness []

  /** The periods named. */
  function Keys(d: Items): (keys: set<string>)
    ensures forall i :: 0 <= i < |d| ==> d[i].0 in keys
    ensures forall key :: key in keys ==> exists i :: 0 <= i < |d| && d[i].0 == key
  {
    set i | 0 <= i < |d| :: d[i].0
  }

  /** The value stored under `key`, if any: `d[key]` of a dictionary, which
      fails when the key is absent. */
  function Lookup(d: Items, key: string): (v: Option<real>)
    ensures v.Some? <==> key in Keys(d)
    ensures v.Some? ==> exists i :: 0 <= i < |d| && d[i] == (key, v.value)
    ensures v.Some? && UniqueKeys(d) ==> forall i :: 0 <= i < |d| && d[i].0 == key ==> d[i].1 == v.value
  {
    if d == [] then None
    else if d[0].0 == key then Some(d[0].1)
    else
      assert Keys(d) == {d[0].0} + Keys(d[1..]) by {
        forall k | k in Keys(d) ensures k in {d[0].0} + Keys(d[1..]) {
          var i :| 0 <= i < |d| && d[i].0 == k;
          if i > 0 { assert d[1..][i - 1].0 == k; }
        }
      }
      var v := Lookup(d[1..], key);
      assert v.Some? ==> exists i :: 0 <= i < |d| && d[i] == (key, v.value) by {
        if v.Some? {
          var i :| 0 <= i < |d[1..]| && d[1..][i] == (key, v.value);
          assert d[i + 1] == (key, v.value);
        }
      }
      v
  }

  /** The sum of the values, added in order. */
  function Total(d: Items): real
  {
    if d == [] then 0.0 else d[0].1 + Total(d[1..])
  }

  /** Every value multiplied by `factor`, keys and order kept. */
  function Scale(d: Items, factor: real): (s: Items)
    ensures |s| == |d|
    ensures forall i :: 0 <= i < |d| ==> s[i] == (d[i].0, Mul(d[i].1, factor))
  {
    if d == [] then [] else [(d[0].0, Mul(d[0].1, factor))] + Scale(d[1..], factor)
  }

  /** Scaling every value scales the sum. */
  lemma {:induction false} ScaleTotal(d: Items, factor: real)
    ensures Total(Scale(d, factor)) == Mul(Total(d), factor)
  {
    if d != [] {
      ScaleTotal(d[1..], factor);
      assert Scale(d, factor)[1..] == Scale(d[1..], factor);
      MulDistributes(Total(d), d[0].1, Total(d[1..]), factor);
    }
  }

  /** Every value is at least zero. */
  predicate NonNegativeValues(d: Items)
  {
    forall i :: 0 <= i < |d| ==> d[i].1 >= 0.0
  }

  /** Non-negative values have a non-negative sum. */
  lemma {:induction false} TotalNonNegative(d: Items)
    requires NonNegativeValues(d)
    ensures Total(d) >= 0.0
  {
    if d != [] {
      assert NonNegativeValues(d[1..]) by {
        forall i | 0 <= i < |d[1..]| ensures d[1..][i].1 >= 0.0 {
          assert d[1..][i] == d[i + 1];
        }
      }
      TotalNonNegative(d[1..]);
    }
  }

  /** A total split in two parts, multiplied, is the multiplied parts added. */
  lemma MulDistributes(total: real, a: real, rest: real, c: real)
    requires total == a + rest
    ensures Mul(total, c) == Mul(a, c) + Mul(rest, c)
  {
  }
}
