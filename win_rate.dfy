/**
 * The derivations that `WinRateDaily` runs when a raw array is assigned:
 * Python's built-in `max` over the array, and `list.index` of that maximum,
 * turned into a 1-based holding-day offset.
 */
module WinRate {
  import opened Wrappers

  /** Why a derivation cannot produce a value: `max()` of an empty list raises. */
  datatype DerivationError = EmptyAvgIncrease | EmptySuccPercent

  /** The two scalars derived from the average-increase array. */
  datatype AvgPeak = AvgPeak(avgIncrease: real, keepDay: nat)

  /** `m` is an element of `s` and no element of `s` exceeds it. */
  ghost predicate IsPeak(s: seq<real>, m: real)
  {
    m in s && forall i :: 0 <= i < |s| ==> s[i] <= m
  }

  /** `k` is the 1-based position of the first occurrence of `m` in `s`. */
  ghost predicate IsFirstPosition(s: seq<real>, m: real, k: nat)
  {
    1 <= k <= |s| && s[k - 1] == m && forall i :: 0 <= i < k - 1 ==> s[i] != m
  }

  /**
   * Python's `max(s)`: scans left to right and keeps the running maximum;
   * an empty list raises, modelled as `None`.
   */
  function Max(s: seq<real>): (r: Option<real>)
    ensures r.None? <==> s == []
    ensures r.Some? ==> IsPeak(s, r.value)
  {
    if s == [] then None
    else
      var last := s[|s| - 1];
      match Max(s[..|s| - 1])
      case None => Some(last)
      case Some(m) => Some(if last > m then last else m)
  }

  /**
   * Python's `s.index(x)`: the 0-based position of the first element equal
   * to `x`. Only ever applied to an element of `s`.
   */
  function FirstIndexOf(s: seq<real>, x: real): (i: nat)
    requires x in s
    ensures i < |s| && s[i] == x
    ensures forall j :: 0 <= j < i ==> s[j] != x
  {
    if s[0] == x then 0 else 1 + FirstIndexOf(s[1..], x)
  }

  /**
   * What the `s_avg_increase` setter derives: the peak average increase and
   * `keep_day`, the 1-based day of its first occurrence. Fails on an empty list.
   */
  function DeriveAvgPeak(s: seq<real>): (r: Option<AvgPeak>)
    ensures r.None? <==> s == []
    ensures r.Some? ==> IsPeak(s, r.value.avgIncrease)
    ensures r.Some? ==> IsFirstPosition(s, r.value.avgIncrease, r.value.keepDay)
  {
    match Max(s)
    case None => None
    case Some(m) => Some(AvgPeak(m, FirstIndexOf(s, m) + 1))
  }

  /** A peak of a list is unique: any two values that are peaks coincide. */
  lemma PeakUnique(s: seq<real>, m1: real, m2: real)
    requires IsPeak(s, m1) && IsPeak(s, m2)
    ensures m1 == m2
  {
  }

  /**
   * `keep_day` is determined by the array alone: any `k` that is the first
   * position of any peak of `s` is exactly the derived `keep_day`, so ties
   * resolve to the earliest holding day.
   */
  lemma KeepDayIsFirstPeakPosition(s: seq<real>, m: real, k: nat)
    requires IsPeak(s, m) && IsFirstPosition(s, m, k)
    ensures DeriveAvgPeak(s) == Some(AvgPeak(m, k))
  {
  }

  /** The peak depends only on which values occur, not on their order. */
  lemma PeakIgnoresOrder(s: seq<real>, t: seq<real>)
    requires multiset(s) == multiset(t)
    ensures Max(s) == Max(t)
  {
    if s != [] {
      assert s[0] in multiset(t);
      var a, b := Max(s).value, Max(t).value;
      assert a in multiset(t) && b in multiset(s);
      assert forall i :: 0 <= i < |s| ==> s[i] in multiset(t);
      assert forall i :: 0 <= i < |t| ==> t[i] in multiset(s);
      PeakUnique(s, a, b);
    }
  }
}
