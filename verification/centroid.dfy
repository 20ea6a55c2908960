/** Reducing each type's channel lists to one representative colour: every
    list becomes `sum(list) // len(list)`. */
module Centroid {
  import opened CellTypes
  import opened Accumulator
  import opened Geometry

  function Sum(xs: seq<nat>): nat
  {
    if xs == [] then 0 else Sum(xs[..|xs| - 1]) + xs[|xs| - 1]
  }

  function Min(xs: seq<nat>): nat
    requires |xs| > 0
  {
    if |xs| == 1 then xs[0]
    else
      var m := Min(xs[..|xs| - 1]);
      if xs[|xs| - 1] < m then xs[|xs| - 1] else m
  }

  function Max(xs: seq<nat>): nat
    requires |xs| > 0
  {
    if |xs| == 1 then xs[0]
    else
      var m := Max(xs[..|xs| - 1]);
      if xs[|xs| - 1] > m then xs[|xs| - 1] else m
  }

  /** The truncating integer mean of a non-empty list: the largest m with
      m * len <= sum. An empty list has no mean (the source divides by zero). */
  function Mean(xs: seq<nat>): (m: nat)
    requires |xs| > 0
    ensures |xs| * m <= Sum(xs) < |xs| * (m + 1)
  {
    var n, s := |xs|, Sum(xs);
    assert s == n * (s / n) + s % n;
    assert n * (s / n + 1) == n * (s / n) + n;
    s / n
  }

  /** Cancelling a positive factor from a strict product inequality. */
  lemma {:induction false} MulLtCancel(n: nat, a: nat, b: nat)
    requires n > 0 && n * a < n * b
    ensures a < b
  {
    if b <= a {
      MulMonotone(n, b, a);
    }
  }

  lemma {:induction false} SumLowerBound(xs: seq<nat>)
    requires |xs| > 0
    ensures |xs| * Min(xs) <= Sum(xs)
  {
    if |xs| == 1 {
      assert xs[..0] == [];
    } else {
      var init := xs[..|xs| - 1];
      SumLowerBound(init);
      var n, lo := |init|, Min(xs);
      MulMonotone(n, lo, Min(init));
      var p := n * lo;
      assert (n + 1) * lo == p + lo;
    }
  }

  lemma {:induction false} SumUpperBound(xs: seq<nat>)
    requires |xs| > 0
    ensures Sum(xs) <= |xs| * Max(xs)
  {
    if |xs| == 1 {
      assert xs[..0] == [];
    } else {
      var init := xs[..|xs| - 1];
      SumUpperBound(init);
      var n, hi := |init|, Max(xs);
      MulMonotone(n, Max(init), hi);
      var p := n * hi;
      assert (n + 1) * hi == p + hi;
    }
  }

  /** The mean lies between the smallest and the largest sample. */
  lemma {:induction false} MeanBetween(xs: seq<nat>)
    requires |xs| > 0
    ensures Min(xs) <= Mean(xs) <= Max(xs)
  {
    SumLowerBound(xs);
    SumUpperBound(xs);
    CancelBounds(|xs|, Mean(xs), Sum(xs), Min(xs), Max(xs));
  }

  lemma {:induction false} CancelBounds(n: nat, m: nat, s: nat, lo: nat, hi: nat)
    requires n > 0
    requires n * m <= s < n * (m + 1)
    requires n * lo <= s <= n * hi
    ensures lo <= m <= hi
  {
    MulLtCancel(n, lo, m + 1);
    assert n * (hi + 1) == n * hi + n;
    MulLtCancel(n, m, hi + 1);
  }

  /** The mean of samples that all equal v is v. */
  lemma {:induction false} MeanOfConstant(xs: seq<nat>, v: nat)
    requires |xs| > 0
    requires forall i :: 0 <= i < |xs| ==> xs[i] == v
    ensures Mean(xs) == v
  {
    MinMaxOfConstant(xs, v);
    MeanBetween(xs);
  }

  lemma {:induction false} MinMaxOfConstant(xs: seq<nat>, v: nat)
    requires |xs| > 0
    requires forall i :: 0 <= i < |xs| ==> xs[i] == v
    ensures Min(xs) == v && Max(xs) == v
  {
    if |xs| > 1 {
      MinMaxOfConstant(xs[..|xs| - 1], v);
    }
  }

  /** Samples 10 and 20 average to 15. */
  lemma MeanExample()
    ensures Mean([10, 20]) == 15
  {
    assert Sum([10, 20]) == 30 by {
      assert [10, 20][..1] == [10];
      assert [10][..0] == [];
    }
  }

  // ---------------------------------------------------------------------
  // Per-type centroids
  // ---------------------------------------------------------------------

  predicate AllNonEmpty(channels: seq<seq<nat>>)
  {
    forall c :: 0 <= c < |channels| ==> |channels[c]| > 0
  }

  /** The position of the first type, in the given order, with an empty
      channel list. */
  function FirstEmpty(lists: TypeLists, order: seq<CellType>): (r: Option<nat>)
    requires WellShaped(lists)
    ensures r.None? ==> forall i :: 0 <= i < |order| ==> AllNonEmpty(lists[order[i]])
    ensures r.Some? ==> r.value < |order| && !AllNonEmpty(lists[order[r.value]])
    ensures r.Some? ==> forall j :: 0 <= j < r.value ==> AllNonEmpty(lists[order[j]])
  {
    if order == [] then None
    else if !AllNonEmpty(lists[order[0]]) then Some(0)
    else
      match FirstEmpty(lists, order[1..])
      case None => None
      case Some(i) => Some(i + 1)
  }

  /** The centroid of one type: the mean of each of its four lists. */
  function CentroidColor(channels: seq<seq<nat>>): (color: Color)
    requires |channels| == ChannelCount && AllNonEmpty(channels)
    ensures forall c :: 0 <= c < ChannelCount ==> Min(channels[c]) <= color[c] <= Max(channels[c])
  {
    MeanBetween(channels[0]);
    MeanBetween(channels[1]);
    MeanBetween(channels[2]);
    MeanBetween(channels[3]);
    [Mean(channels[0]), Mean(channels[1]), Mean(channels[2]), Mean(channels[3])]
  }

  /** `type_colors` of the calibrated definer: the centroid of every type, or
      a failure naming the first type (in declaration order) that has no
      samples, since its mean would divide by zero. */
  function Centroids(lists: TypeLists): (r: Result<map<CellType, Color>>)
    requires WellShaped(lists)
    ensures r.Ok? <==> forall t: CellType :: AllNonEmpty(lists[t])
    ensures r.Ok? ==> r.value.Keys == AllTypes
    ensures r.Ok? ==> forall t: CellType, c :: 0 <= c < ChannelCount ==>
      t in r.value && r.value[t][c] == Mean(lists[t][c])
    ensures r.Err? ==> r.error.NoSamples? && !AllNonEmpty(lists[r.error.cellType])
  {
    match FirstEmpty(lists, TypeOrder)
    case Some(i) => Err(NoSamples(TypeOrder[i]))
    case None =>
      assert forall t: CellType :: AllNonEmpty(lists[t]) by {
        forall t: CellType ensures AllNonEmpty(lists[t]) {
          TypeOrderComplete(t);
        }
      }
      AllTypesComplete();
      Ok(map t | t in AllTypes :: CentroidColor(lists[t]))
  }

  /** With two Skull samples (10, 10, 10, 255) and (20, 20, 20, 255), the
      Skull centroid is (15, 15, 15, 255). */
  lemma {:induction false} SkullExample(lists: TypeLists)
    requires WellShaped(lists)
    requires forall t: CellType :: AllNonEmpty(lists[t])
    requires lists[Skull] == [[10, 20], [10, 20], [10, 20], [255, 255]]
    ensures Centroids(lists).Ok? && Centroids(lists).value[Skull] == [15, 15, 15, 255]
  {
    MeanExample();
    MeanOfConstant([255, 255], 255);
    var r := Centroids(lists).value;
    assert r[Skull][0] == 15 && r[Skull][1] == 15 && r[Skull][2] == 15 && r[Skull][3] == 255;
  }
}
