/** The per-type colour accumulator of the calibration run: a dictionary from
    each cell type to four lists (red, green, blue, alpha) that grow by one
    entry each time a cell of that type is sampled. */
module Accumulator {
  import opened CellTypes

  /** Channels of a colour: red, green, blue, alpha. */
  const ChannelCount: nat := 4

  /** An (r, g, b, a) colour. */
  type Color = c: seq<nat> | |c| == ChannelCount witness [0, 0, 0, 0]

  /** One sampled cell: its labelled type and the average colour of its centre. */
  datatype Sample = Sample(cellType: CellType, color: Color)

  /** Four channel lists per type. */
  type TypeLists = map<CellType, seq<seq<nat>>>

  predicate WellShaped(lists: TypeLists)
  {
    lists.Keys == AllTypes && forall t: CellType :: t in lists && |lists[t]| == ChannelCount
  }

  // ---------------------------------------------------------------------
  // Specification: what the lists hold after a sequence of samples
  // ---------------------------------------------------------------------

  /** Channel c of every sample of type t, in the order sampled. */
  function Column(samples: seq<Sample>, t: CellType, c: nat): (col: seq<nat>)
    requires c < ChannelCount
    ensures |col| == Count(samples, t)
  {
    if samples == [] then []
    else
      var last := samples[|samples| - 1];
      Column(samples[..|samples| - 1], t, c) + (if last.cellType == t then [last.color[c]] else [])
  }

  /** How many samples have type t. */
  function Count(samples: seq<Sample>, t: CellType): (n: nat)
    ensures n <= |samples|
  {
    if samples == [] then 0
    else Count(samples[..|samples| - 1], t) + (if samples[|samples| - 1].cellType == t then 1 else 0)
  }

  /** The whole dictionary after the given samples: four empty lists per
      type, then one Appended step per sample. */
  function Collect(samples: seq<Sample>): (lists: TypeLists)
    ensures WellShaped(lists)
  {
    if samples == [] then
      AllTypesComplete();
      map[Empty := [[], [], [], []], Skull := [[], [], [], []], Red := [[], [], [], []],
          Green := [[], [], [], []], Blue := [[], [], [], []]]
    else
      var last := samples[|samples| - 1];
      Appended(Collect(samples[..|samples| - 1]), last.cellType, last.color)
  }

  /** The dictionary after appending one colour to the lists of type t. */
  function Appended(lists: TypeLists, t: CellType, color: Color): (r: TypeLists)
    requires WellShaped(lists)
    ensures WellShaped(r)
  {
    lists[t := [lists[t][0] + [color[0]], lists[t][1] + [color[1]],
                lists[t][2] + [color[2]], lists[t][3] + [color[3]]]]
  }

  /** Appending touches only the lists of type t, and there it only adds
      color[c] at the end of list c: earlier entries and other types stay. */
  lemma {:induction false} AppendedTouchesOneType(lists: TypeLists, t: CellType, color: Color)
    requires WellShaped(lists)
    ensures Appended(lists, t, color).Keys == lists.Keys
    ensures forall u :: u in lists && u != t ==> Appended(lists, t, color)[u] == lists[u]
    ensures forall c :: 0 <= c < ChannelCount ==>
      Appended(lists, t, color)[t][c] == lists[t][c] + [color[c]]
  {
  }

  /** Processing one more sample is one Appended step. */
  lemma {:induction false} CollectSnoc(samples: seq<Sample>, x: Sample)
    ensures Collect(samples + [x]) == Appended(Collect(samples), x.cellType, x.color)
  {
    var s := samples + [x];
    assert s[..|s| - 1] == samples;
  }

  /** Before any sample, each of the five types holds four empty lists. */
  lemma {:induction false} CollectEmpty(t: CellType)
    ensures Collect([]).Keys == AllTypes
    ensures Collect([])[t] == [[], [], [], []]
  {
  }

  /** Lists only grow: processing more samples keeps every earlier entry. */
  lemma {:induction false} ColumnAppend(s1: seq<Sample>, s2: seq<Sample>, t: CellType, c: nat)
    requires c < ChannelCount
    ensures Column(s1 + s2, t, c) == Column(s1, t, c) + Column(s2, t, c)
    decreases |s2|
  {
    if s2 == [] {
      assert s1 + s2 == s1;
    } else {
      var s := s1 + s2;
      var init := s2[..|s2| - 1];
      assert s[..|s| - 1] == s1 + init;
      assert s[|s| - 1] == s2[|s2| - 1];
      ColumnAppend(s1, init, t, c);
    }
  }

  /** Entry j of channel list c of t is channel c of the j-th sample of type t:
      precisely, of a sample of type t whose prefix holds j earlier ones. */
  lemma {:induction false} ColumnEntry(samples: seq<Sample>, t: CellType, c: nat, j: nat)
    requires c < ChannelCount
    requires j < |Column(samples, t, c)|
    ensures exists i :: (0 <= i < |samples| && samples[i].cellType == t &&
      Count(samples[..i], t) == j && Column(samples, t, c)[j] == samples[i].color[c])
  {
    var init := samples[..|samples| - 1];
    var last := samples[|samples| - 1];
    if j < |Column(init, t, c)| {
      ColumnEntry(init, t, c, j);
      var i :| 0 <= i < |init| && init[i].cellType == t &&
        Count(init[..i], t) == j && Column(init, t, c)[j] == init[i].color[c];
      assert init[..i] == samples[..i];
    } else {
      assert samples[..|samples| - 1] == init;
    }
  }

  /** List c of type t after the samples is that type's column: the
      dictionary built one sample at a time agrees with the column-wise
      definition. Its length is the number of samples of type t. */
  lemma {:induction false} CollectAt(samples: seq<Sample>, t: CellType, c: nat)
    requires c < ChannelCount
    ensures Collect(samples)[t][c] == Column(samples, t, c)
    ensures |Collect(samples)[t][c]| == Count(samples, t)
  {
    if samples != [] {
      var init, last := samples[..|samples| - 1], samples[|samples| - 1];
      CollectAt(init, t, c);
      AppendedTouchesOneType(Collect(init), last.cellType, last.color);
    }
  }

  /** Across the five types, channel c holds one entry per sample. */
  lemma {:induction false} CountsAddUp(samples: seq<Sample>)
    ensures Count(samples, Empty) + Count(samples, Skull) + Count(samples, Red) +
      Count(samples, Green) + Count(samples, Blue) == |samples|
  {
    if samples != [] {
      CountsAddUp(samples[..|samples| - 1]);
    }
  }

  lemma {:induction false} CountAppend(s1: seq<Sample>, s2: seq<Sample>, t: CellType)
    ensures Count(s1 + s2, t) == Count(s1, t) + Count(s2, t)
    decreases |s2|
  {
    if s2 == [] {
      assert s1 + s2 == s1;
    } else {
      var s := s1 + s2;
      var init := s2[..|s2| - 1];
      assert s[..|s| - 1] == s1 + init;
      CountAppend(s1, init, t);
    }
  }

  // ---------------------------------------------------------------------
  // The dictionary the source mutates
  // ---------------------------------------------------------------------

  /** `type_colors`: each type's four channel lists, appended to in place. */
  class TypeColors {
    var lists: TypeLists

    ghost predicate Valid()
      reads this
    {
      WellShaped(lists)
    }

    /** Five keys, each with four empty lists. */
    constructor ()
      ensures Valid()
      ensures lists == Collect([])
    {
      lists := map[Empty := [[], [], [], []], Skull := [[], [], [], []], Red := [[], [], [], []],
                   Green := [[], [], [], []], Blue := [[], [], [], []]];
      AllTypesComplete();
    }

    /** Appends each channel of color to the matching list of type t. */
    method Append(t: CellType, color: Color)
      requires Valid()
      modifies this
      ensures Valid()
      ensures lists == Appended(old(lists), t, color)
    {
      var typeColor := lists[t];
      ghost var before := typeColor;
      for c := 0 to ChannelCount
        invariant |typeColor| == ChannelCount
        invariant forall j :: 0 <= j < c ==> typeColor[j] == before[j] + [color[j]]
        invariant forall j :: c <= j < ChannelCount ==> typeColor[j] == before[j]
      {
        typeColor := typeColor[c := typeColor[c] + [color[c]]];
      }
      assert typeColor == Appended(old(lists), t, color)[t];
      lists := lists[t := typeColor];
    }
  }
}
