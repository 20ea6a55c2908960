/** The calibration run of the cell type definer: every labelled tuning field
    is cut into its 36 cells, each cell's centre colour is appended to the
    lists of the type its mapping names, and finally each list is reduced to
    its integer mean. */
module Calibration {
  import opened CellTypes
  import opened Mapping
  import opened Geometry
  import opened Accumulator
  import opened Centroid

  /** One labelled tuning field: the screenshot's size, the text of its
      mapping file, and the colour the image library reports for the centre
      crop (second box, relative to the cell) of a cell crop (first box). */
  datatype TuningField = TuningField(
    width: nat,
    height: nat,
    mapping: string,
    centerColor: (Box, Box) -> Color)

  /** Cells in one field. */
  const CellCount: nat := CellNumber * CellNumber

  // ---------------------------------------------------------------------
  // Specification of one cell and one field
  // ---------------------------------------------------------------------

  /** The type labelled at row h, column w of the mapping, or why indexing or
      the label table fails there. */
  function CellLabel(rows: seq<seq<string>>, h: nat, w: nat): (r: Result<CellType>)
    ensures r.Ok? <==> h < |rows| && w < |rows[h]| && rows[h][w] in LabelKeys
    ensures r.Ok? ==> Label(r.value) == rows[h][w]
    ensures h >= |rows| ==> r == Err(MissingRow(h))
    ensures h < |rows| && w >= |rows[h]| ==> r == Err(MissingColumn(h, w))
    ensures r.Err? && h < |rows| && w < |rows[h]| ==> r.error == UnknownLabel(rows[h][w])
  {
    if h >= |rows| then Err(MissingRow(h))
    else if w >= |rows[h]| then Err(MissingColumn(h, w))
    else
      match Lookup(rows[h][w])
      case None => Err(UnknownLabel(rows[h][w]))
      case Some(t) =>
        LookupBijective(rows[h][w], rows[h][w], t);
        Ok(t)
  }

  /** The sample cell (h, w) of field f contributes. */
  function CellSample(f: TuningField, rows: seq<seq<string>>, h: nat, w: nat): (r: Result<Sample>)
    ensures r.Ok? <==> h < |rows| && w < |rows[h]| && rows[h][w] in LabelKeys
    ensures r.Ok? ==> Label(r.value.cellType) == rows[h][w]
    ensures r.Ok? ==>
      r.value.color == f.centerColor(CellBox(f.width, f.height, h, w),
                                     CenterBox(CellWidth(f.width), CellHeight(f.height)))
    ensures r.Err? ==> r.error == CellLabel(rows, h, w).error
  {
    match CellLabel(rows, h, w)
    case Err(e) => Err(e)
    case Ok(t) =>
      var cellBox := CellBox(f.width, f.height, h, w);
      var centerBox := CenterBox(CellWidth(f.width), CellHeight(f.height));
      Ok(Sample(t, f.centerColor(cellBox, centerBox)))
  }

  /** The k-th cell of a field in row-major order. */
  function CellAt(f: TuningField, rows: seq<seq<string>>, k: nat): Result<Sample>
  {
    CellSample(f, rows, k / CellNumber, k % CellNumber)
  }

  /** The samples of the first k cells in row-major order, or the error of
      the first of them that fails. */
  function FieldPrefix(f: TuningField, rows: seq<seq<string>>, k: nat): (r: Result<seq<Sample>>)
    ensures r.Ok? ==> |r.value| == k
  {
    if k == 0 then Ok([])
    else
      match FieldPrefix(f, rows, k - 1)
      case Err(e) => Err(e)
      case Ok(s) =>
        match CellAt(f, rows, k - 1)
        case Err(e) => Err(e)
        case Ok(x) => Ok(s + [x])
  }

  /** The rows `cast_mapping` reads from a field's mapping file. */
  function Rows(f: TuningField): seq<seq<string>>
  {
    CastMapping(f.mapping)
  }

  /** All 36 samples of one field. */
  function FieldSamples(f: TuningField): (r: Result<seq<Sample>>)
    ensures r.Ok? ==> |r.value| == CellCount
  {
    FieldPrefix(f, Rows(f), CellCount)
  }

  /** All samples of the tuning fields, field after field. */
  function TuningSamples(fields: seq<TuningField>): (r: Result<seq<Sample>>)
    ensures r.Ok? ==> |r.value| == CellCount * |fields|
  {
    if fields == [] then Ok([])
    else
      var n := |fields| - 1;
      match TuningSamples(fields[..n])
      case Err(e) => Err(e)
      case Ok(s) =>
        match FieldSamples(fields[n])
        case Err(e) => Err(e)
        case Ok(t) =>
          assert CellCount == 36;
          Ok(s + t)
  }

  /** What calibration produces: the centroid of every type, or the error
      that aborts it. */
  function Calibrated(fields: seq<TuningField>): (r: Result<map<CellType, Color>>)
    ensures r.Ok? ==> TuningSamples(fields).Ok? && r.value.Keys == AllTypes
    ensures TuningSamples(fields).Err? ==> r == Err(TuningSamples(fields).error)
    ensures r.Err? && TuningSamples(fields).Ok? ==> r.error.NoSamples?
  {
    match TuningSamples(fields)
    case Err(e) => Err(e)
    case Ok(s) => Centroids(Collect(s))
  }

  // ---------------------------------------------------------------------
  // Properties of the specification
  // ---------------------------------------------------------------------

  /** The first k cells succeed exactly when each of them does; the samples
      then come in row-major order, one per cell. */
  lemma {:induction false} FieldPrefixCells(f: TuningField, rows: seq<seq<string>>, k: nat)
    ensures FieldPrefix(f, rows, k).Ok? <==> forall j :: 0 <= j < k ==> CellAt(f, rows, j).Ok?
    ensures FieldPrefix(f, rows, k).Ok? ==>
      |FieldPrefix(f, rows, k).value| == k &&
      forall j :: 0 <= j < k ==> FieldPrefix(f, rows, k).value[j] == CellAt(f, rows, j).value
  {
    if k > 0 {
      FieldPrefixCells(f, rows, k - 1);
    }
  }

  /** A failing prefix fails with the error of its first failing cell. */
  lemma {:induction false} FieldPrefixFirstError(f: TuningField, rows: seq<seq<string>>, k: nat)
    requires FieldPrefix(f, rows, k).Err?
    ensures exists j :: (0 <= j < k && CellAt(f, rows, j) == Err(FieldPrefix(f, rows, k).error) &&
      forall i :: 0 <= i < j ==> CellAt(f, rows, i).Ok?)
  {
    var e := FieldPrefix(f, rows, k).error;
    if FieldPrefix(f, rows, k - 1).Err? {
      FieldPrefixFirstError(f, rows, k - 1);
      assert FieldPrefix(f, rows, k - 1).error == e;
    } else {
      FieldPrefixCells(f, rows, k - 1);
      var j := k - 1;
      assert CellAt(f, rows, j) == Err(e);
      assert forall i :: 0 <= i < j ==> CellAt(f, rows, i).Ok?;
    }
  }

  /** Once a prefix fails, every longer prefix fails with the same error. */
  lemma {:induction false} FieldPrefixErrorSticks(f: TuningField, rows: seq<seq<string>>, k: nat, n: nat)
    requires k <= n
    requires FieldPrefix(f, rows, k).Err?
    ensures FieldPrefix(f, rows, n) == FieldPrefix(f, rows, k)
    decreases n - k
  {
    if k < n {
      FieldPrefixErrorSticks(f, rows, k + 1, n);
    }
  }

  /** A mapping `cast_mapping` can label a whole field with: at least six
      rows of at least six tokens, each token a key of the label table. */
  predicate LabelsField(rows: seq<seq<string>>)
  {
    |rows| >= CellNumber &&
    (forall h :: 0 <= h < CellNumber ==> |rows[h]| >= CellNumber) &&
    forall h, w :: 0 <= h < CellNumber && 0 <= w < CellNumber ==> rows[h][w] in LabelKeys
  }

  lemma {:induction false} RowMajor(h: nat, w: nat)
    requires w < CellNumber
    ensures (CellNumber * h + w) / CellNumber == h && (CellNumber * h + w) % CellNumber == w
  {
  }

  /** A field yields its samples exactly when its mapping labels every cell;
      sample 6h + w is then cell (h, w): the type its token names, with the
      colour of its centre crop. */
  lemma {:induction false} FieldSamplesSpec(f: TuningField)
    ensures FieldSamples(f).Ok? <==> LabelsField(Rows(f))
    ensures FieldSamples(f).Ok? ==> |FieldSamples(f).value| == CellCount
    ensures FieldSamples(f).Ok? ==> forall h, w :: 0 <= h < CellNumber && 0 <= w < CellNumber ==>
        FieldSamples(f).value[CellNumber * h + w] ==
          Sample(LabelTable[Rows(f)[h][w]],
                 f.centerColor(CellBox(f.width, f.height, h, w),
                               CenterBox(CellWidth(f.width), CellHeight(f.height))))
  {
    var rows := Rows(f);
    FieldPrefixCells(f, rows, CellCount);
    if LabelsField(rows) {
      forall j | 0 <= j < CellCount ensures CellAt(f, rows, j).Ok? {
        var h, w := j / CellNumber, j % CellNumber;
        assert h < CellNumber;
      }
    }
    if FieldSamples(f).Ok? {
      forall h, w | 0 <= h < CellNumber && 0 <= w < CellNumber
        ensures h < |rows| && w < |rows[h]| && rows[h][w] in LabelKeys
      {
        RowMajor(h, w);
        assert CellAt(f, rows, CellNumber * h + w).Ok?;
      }
      forall h | 0 <= h < CellNumber ensures |rows[h]| >= CellNumber {
        RowMajor(h, CellNumber - 1);
        assert CellAt(f, rows, CellNumber * h + CellNumber - 1).Ok?;
      }
      forall h, w | 0 <= h < CellNumber && 0 <= w < CellNumber
        ensures FieldSamples(f).value[CellNumber * h + w] ==
          Sample(LabelTable[rows[h][w]],
                 f.centerColor(CellBox(f.width, f.height, h, w),
                               CenterBox(CellWidth(f.width), CellHeight(f.height))))
      {
        RowMajor(h, w);
        assert CellAt(f, rows, CellNumber * h + w).Ok?;
      }
    }
  }

  /** Tuning succeeds exactly when every field does. */
  lemma {:induction false} TuningSamplesOk(fields: seq<TuningField>)
    ensures TuningSamples(fields).Ok? <==> forall i :: 0 <= i < |fields| ==> FieldSamples(fields[i]).Ok?
  {
    if fields != [] {
      var init, last := fields[..|fields| - 1], fields[|fields| - 1];
      TuningSamplesOk(init);
      if TuningSamples(init).Err? {
        var i :| 0 <= i < |init| && !FieldSamples(init[i]).Ok?;
        assert init[i] == fields[i];
        assert TuningSamples(fields).Err?;
      } else if FieldSamples(last).Err? {
        assert TuningSamples(fields).Err?;
      } else {
        assert TuningSamples(fields).Ok?;
        forall i | 0 <= i < |fields| ensures FieldSamples(fields[i]).Ok? {
          if i < |init| {
            assert init[i] == fields[i];
          }
        }
      }
    }
  }

  /** Once the fields up to i fail, the whole run fails with the same error. */
  lemma {:induction false} TuningErrorSticks(fields: seq<TuningField>, i: nat)
    requires i <= |fields|
    requires TuningSamples(fields[..i]).Err?
    ensures TuningSamples(fields) == TuningSamples(fields[..i])
    decreases |fields| - i
  {
    if i == |fields| {
      assert fields[..i] == fields;
    } else {
      assert fields[..i + 1][..i] == fields[..i];
      TuningErrorSticks(fields, i + 1);
    }
  }

  /** A run fails with the error of the first failing field. */
  lemma {:induction false} TuningFirstError(fields: seq<TuningField>)
    requires TuningSamples(fields).Err?
    ensures exists i :: (0 <= i < |fields| && FieldSamples(fields[i]) == Err(TuningSamples(fields).error) &&
      forall j :: 0 <= j < i ==> FieldSamples(fields[j]).Ok?)
  {
    var init := fields[..|fields| - 1];
    if TuningSamples(init).Err? {
      TuningFirstError(init);
      var i :| 0 <= i < |init| && FieldSamples(init[i]) == Err(TuningSamples(init).error) &&
        forall j :: 0 <= j < i ==> FieldSamples(init[j]).Ok?;
      assert init[i] == fields[i];
      forall j | 0 <= j < i ensures FieldSamples(fields[j]).Ok? {
        assert init[j] == fields[j];
      }
    } else {
      TuningSamplesOk(init);
      var i := |init|;
      assert FieldSamples(fields[i]) == Err(TuningSamples(fields).error);
      forall j | 0 <= j < i ensures FieldSamples(fields[j]).Ok? {
        assert init[j] == fields[j];
      }
    }
  }

  /** Across the five types, every channel holds 36 entries per field, and
      a type's four lists always have the same length. */
  lemma {:induction false} TuningEntryCount(fields: seq<TuningField>, c: nat)
    requires TuningSamples(fields).Ok?
    requires c < ChannelCount
    ensures var lists := Collect(TuningSamples(fields).value);
      |lists[Empty][c]| + |lists[Skull][c]| + |lists[Red][c]| + |lists[Green][c]| + |lists[Blue][c]|
        == CellCount * |fields|
    ensures forall t: CellType, d :: 0 <= d < ChannelCount ==>
      |Collect(TuningSamples(fields).value)[t][d]| == |Collect(TuningSamples(fields).value)[t][0]|
  {
    var s := TuningSamples(fields).value;
    CountsAddUp(s);
    CollectAt(s, Empty, c);
    CollectAt(s, Skull, c);
    CollectAt(s, Red, c);
    CollectAt(s, Green, c);
    CollectAt(s, Blue, c);
    forall t: CellType, d | 0 <= d < ChannelCount
      ensures |Collect(s)[t][d]| == |Collect(s)[t][0]|
    {
      CollectAt(s, t, d);
      CollectAt(s, t, 0);
    }
  }

  /** A type's lists are non-empty exactly when the type has a sample. */
  lemma {:induction false} CollectNonEmpty(s: seq<Sample>, t: CellType)
    ensures AllNonEmpty(Collect(s)[t]) <==> Count(s, t) > 0
  {
    forall c | 0 <= c < ChannelCount ensures |Collect(s)[t][c]| == Count(s, t) {
      CollectAt(s, t, c);
    }
    CollectAt(s, t, 0);
  }

  /** The centroids of the dictionary built from samples s exist exactly when
      every type has a sample; each channel is then the integer mean of that
      channel over the type's samples, and otherwise the failure names a type
      without samples. */
  lemma {:induction false} CentroidsOfSamples(s: seq<Sample>)
    ensures Centroids(Collect(s)).Ok? <==> forall t: CellType :: Count(s, t) > 0
    ensures Centroids(Collect(s)).Ok? ==> forall t: CellType, c :: 0 <= c < ChannelCount ==>
      |Column(s, t, c)| > 0 && Centroids(Collect(s)).value[t][c] == Mean(Column(s, t, c))
    ensures Centroids(Collect(s)).Err? ==>
      Centroids(Collect(s)).error.NoSamples? && Count(s, Centroids(Collect(s)).error.cellType) == 0
  {
    var lists := Collect(s);
    if forall t: CellType :: Count(s, t) > 0 {
      forall t: CellType ensures AllNonEmpty(lists[t]) {
        CollectNonEmpty(s, t);
      }
      forall t: CellType, c | 0 <= c < ChannelCount
        ensures lists[t][c] == Column(s, t, c) && |Column(s, t, c)| == Count(s, t)
      {
        CollectAt(s, t, c);
      }
    } else {
      var t: CellType :| Count(s, t) == 0;
      CollectNonEmpty(s, t);
      var r := Centroids(lists);
      CollectNonEmpty(s, r.error.cellType);
    }
  }

  /** Calibration succeeds exactly when the tuning fields are well labelled
      and every type occurs in them; each centroid channel is then the
      integer mean of that channel over the type's samples. */
  lemma {:induction false} CalibrationMeans(fields: seq<TuningField>)
    ensures Calibrated(fields).Ok? <==>
      TuningSamples(fields).Ok? && forall t: CellType :: Count(TuningSamples(fields).value, t) > 0
    ensures Calibrated(fields).Ok? ==> Calibrated(fields).value.Keys == AllTypes
    ensures Calibrated(fields).Ok? ==> forall t: CellType, c :: 0 <= c < ChannelCount ==>
      |Column(TuningSamples(fields).value, t, c)| > 0 &&
      Calibrated(fields).value[t][c] == Mean(Column(TuningSamples(fields).value, t, c))
  {
    if TuningSamples(fields).Ok? {
      CentroidsOfSamples(TuningSamples(fields).value);
    }
  }

  /** A type with no samples aborts calibration with NoSamples, naming a type
      that has no samples. */
  lemma {:induction false} CalibrationNoSamples(fields: seq<TuningField>, t: CellType)
    requires TuningSamples(fields).Ok?
    requires Count(TuningSamples(fields).value, t) == 0
    ensures Calibrated(fields).Err? && Calibrated(fields).error.NoSamples?
    ensures Count(TuningSamples(fields).value, Calibrated(fields).error.cellType) == 0
  {
    CentroidsOfSamples(TuningSamples(fields).value);
  }

  /** If every sample of type t has the same colour, the mean of each of t's
      channels is that colour's channel. */
  lemma {:induction false} UniformColumnMean(s: seq<Sample>, t: CellType, color: Color, c: nat)
    requires c < ChannelCount && Count(s, t) > 0
    requires forall i :: 0 <= i < |s| && s[i].cellType == t ==> s[i].color == color
    ensures |Column(s, t, c)| > 0 && Mean(Column(s, t, c)) == color[c]
  {
    var col := Column(s, t, c);
    forall j | 0 <= j < |col| ensures col[j] == color[c] {
      ColumnEntry(s, t, c, j);
    }
    MeanOfConstant(col, color[c]);
  }

  /** A type whose every channel list averages to the matching channel of
      one colour has that colour as its centroid. */
  lemma {:induction false} CentroidOfMeans(lists: TypeLists, t: CellType, color: Color)
    requires WellShaped(lists) && Centroids(lists).Ok?
    requires forall c :: 0 <= c < ChannelCount ==> |lists[t][c]| > 0 && Mean(lists[t][c]) == color[c]
    ensures Centroids(lists).value[t] == color
  {
    var centroid := Centroids(lists).value[t];
    assert |centroid| == |color|;
    forall c | 0 <= c < ChannelCount ensures centroid[c] == color[c] {
      assert centroid[c] == Mean(lists[t][c]);
    }
  }

  /** If every sample of type t has the same colour, the centroid of t is
      that colour. */
  lemma {:induction false} UniformCentroid(s: seq<Sample>, t: CellType, color: Color)
    requires Centroids(Collect(s)).Ok?
    requires forall i :: 0 <= i < |s| && s[i].cellType == t ==> s[i].color == color
    ensures Centroids(Collect(s)).value[t] == color
  {
    var lists := Collect(s);
    assert AllNonEmpty(lists[t]);
    forall c | 0 <= c < ChannelCount ensures |lists[t][c]| > 0 && Mean(lists[t][c]) == color[c] {
      CollectAt(s, t, c);
      UniformColumnMean(s, t, color, c);
    }
    CentroidOfMeans(lists, t, color);
  }

  lemma {:induction false} CalibrationUniform(fields: seq<TuningField>, t: CellType, color: Color)
    requires Calibrated(fields).Ok?
    requires forall i :: (0 <= i < |TuningSamples(fields).value| &&
      TuningSamples(fields).value[i].cellType == t) ==> TuningSamples(fields).value[i].color == color
    ensures Calibrated(fields).value[t] == color
  {
    UniformCentroid(TuningSamples(fields).value, t, color);
  }

  /** A centroid channel lies between the smallest and largest value of that
      channel among the type's samples. */
  lemma {:induction false} CalibrationBetween(fields: seq<TuningField>, t: CellType, c: nat)
    requires Calibrated(fields).Ok?
    requires c < ChannelCount
    ensures var col := Column(TuningSamples(fields).value, t, c);
      |col| > 0 && Min(col) <= Calibrated(fields).value[t][c] <= Max(col)
  {
    CalibrationMeans(fields);
    MeanBetween(Column(TuningSamples(fields).value, t, c));
  }

  // ---------------------------------------------------------------------
  // The imperative run
  // ---------------------------------------------------------------------

  /** Cell k of the row-major walk is cell (h, w) for k = 6h + w, and lies
      in the field when h does. */
  lemma {:induction false} CellAtRowMajor(f: TuningField, rows: seq<seq<string>>, k: nat, h: nat, w: nat)
    requires w < CellNumber && k == CellNumber * h + w
    ensures CellAt(f, rows, k) == CellSample(f, rows, h, w)
    ensures h < CellNumber ==> k < CellCount
  {
    RowMajor(h, w);
  }

  /** A cell that yields sample x extends the prefix by x, which appends x's
      colour to the lists of x's type. */
  lemma {:induction false} CellStep(f: TuningField, rows: seq<seq<string>>, k: nat, done: seq<Sample>, x: Sample)
    requires FieldPrefix(f, rows, k).Ok?
    requires CellAt(f, rows, k) == Ok(x)
    ensures FieldPrefix(f, rows, k + 1) == Ok(FieldPrefix(f, rows, k).value + [x])
    ensures Collect(done + FieldPrefix(f, rows, k + 1).value) ==
      Appended(Collect(done + FieldPrefix(f, rows, k).value), x.cellType, x.color)
  {
    var before := FieldPrefix(f, rows, k).value;
    assert done + (before + [x]) == (done + before) + [x];
    CollectSnoc(done + before, x);
  }

  /** Cell (h, w) of a field: a missing row, a missing column or an unknown
      token fails with that error, in that order of checking; otherwise the
      cell yields the type its token names and the colour of its centre crop. */
  lemma {:induction false} CellSampleCases(f: TuningField, rows: seq<seq<string>>, h: nat, w: nat)
    ensures h >= |rows| ==> CellSample(f, rows, h, w) == Err(MissingRow(h))
    ensures h < |rows| && w >= |rows[h]| ==> CellSample(f, rows, h, w) == Err(MissingColumn(h, w))
    ensures h < |rows| && w < |rows[h]| && rows[h][w] !in LabelTable ==>
      CellSample(f, rows, h, w) == Err(UnknownLabel(rows[h][w]))
    ensures h < |rows| && w < |rows[h]| && rows[h][w] in LabelTable ==>
      CellSample(f, rows, h, w) ==
        Ok(Sample(LabelTable[rows[h][w]],
                  f.centerColor(CellBox(f.width, f.height, h, w),
                                CenterBox(CellWidth(f.width), CellHeight(f.height)))))
  {
  }

  /** A failing cell ends its field with that cell's error. */
  lemma {:induction false} CellErrorEndsField(f: TuningField, rows: seq<seq<string>>, k: nat, e: Error)
    requires k < CellCount
    requires FieldPrefix(f, rows, k).Ok?
    requires CellAt(f, rows, k) == Err(e)
    ensures FieldPrefix(f, rows, CellCount) == Err(e)
  {
    FieldPrefixErrorSticks(f, rows, k + 1, CellCount);
  }

  /** The samples of the first k cells of a field, appended after done. */
  ghost predicate Accumulated(typeColors: TypeColors, field: TuningField, mapping: seq<seq<string>>,
                              k: nat, done: seq<Sample>)
    reads typeColors
  {
    typeColors.Valid() && FieldPrefix(field, mapping, k).Ok? &&
    typeColors.lists == Collect(done + FieldPrefix(field, mapping, k).value)
  }

  /** After the first k cells of a field: their samples appended after done,
      or, when err names an error, the error that ends the field. */
  ghost predicate Progress(typeColors: TypeColors, field: TuningField, mapping: seq<seq<string>>,
                           k: nat, done: seq<Sample>, err: Option<Error>)
    reads typeColors
  {
    typeColors.Valid() &&
    (err.None? ==> Accumulated(typeColors, field, mapping, k, done)) &&
    (err.Some? ==> FieldPrefix(field, mapping, CellCount) == Err(err.value))
  }

  /** Cell (h, w) of a field, the k-th in row-major order: appends the colour
      of its centre crop to the lists of its labelled type, or reports why its
      label cannot be read. */
  method ProcessCell(typeColors: TypeColors, field: TuningField, mapping: seq<seq<string>>,
                     h: nat, w: nat, ghost k: nat, ghost done: seq<Sample>)
    returns (err: Option<Error>)
    requires h < CellNumber && w < CellNumber && k == CellNumber * h + w
    requires Accumulated(typeColors, field, mapping, k, done)
    modifies typeColors
    ensures Progress(typeColors, field, mapping, k + 1, done, err)
  {
    var cell := CellBox(field.width, field.height, h, w);
    var cellCenter := CenterBox(CellWidth(field.width), CellHeight(field.height));
    CellAtRowMajor(field, mapping, k, h, w);
    CellSampleCases(field, mapping, h, w);
    if h >= |mapping| {
      CellErrorEndsField(field, mapping, k, MissingRow(h));
      return Some(MissingRow(h));
    }
    if w >= |mapping[h]| {
      CellErrorEndsField(field, mapping, k, MissingColumn(h, w));
      return Some(MissingColumn(h, w));
    }
    var token := mapping[h][w];
    if token !in LabelTable {
      CellErrorEndsField(field, mapping, k, UnknownLabel(token));
      return Some(UnknownLabel(token));
    }
    var cellType := LabelTable[token];
    var cellColor := field.centerColor(cell, cellCenter);
    CellStep(field, mapping, k, done, Sample(cellType, cellColor));
    typeColors.Append(cellType, cellColor);
    return None;
  }

  /** Row h of a field, whose first cell is the k-th in row-major order:
      processes its six cells left to right, and stops at the first cell
      whose label cannot be read. */
  method ProcessRow(typeColors: TypeColors, field: TuningField, mapping: seq<seq<string>>,
                    h: nat, ghost k: nat, ghost done: seq<Sample>)
    returns (err: Option<Error>)
    requires h < CellNumber && k == CellNumber * h
    requires Accumulated(typeColors, field, mapping, k, done)
    modifies typeColors
    ensures typeColors.Valid()
    ensures err.None? ==> Accumulated(typeColors, field, mapping, k + CellNumber, done)
    ensures err.Some? ==> FieldPrefix(field, mapping, CellCount) == Err(err.value)
  {
    err := None;
    var w := 0;
    ghost var j := k;
    while w < CellNumber && err.None?
      invariant w <= CellNumber && j == k + w
      invariant Progress(typeColors, field, mapping, j, done, err)
    {
      err := ProcessCell(typeColors, field, mapping, h, w, j, done);
      w, j := w + 1, j + 1;
    }
  }

  /** The body of the loop over fields, given the rows read from the field's
      mapping: processes the six rows of cells top to bottom, and stops at
      the first cell whose label cannot be read. */
  method ProcessField(typeColors: TypeColors, field: TuningField, mapping: seq<seq<string>>,
                      ghost done: seq<Sample>)
    returns (err: Option<Error>)
    requires typeColors.Valid() && typeColors.lists == Collect(done)
    modifies typeColors
    ensures typeColors.Valid()
    ensures err.None? <==> FieldPrefix(field, mapping, CellCount).Ok?
    ensures err.None? ==> typeColors.lists == Collect(done + FieldPrefix(field, mapping, CellCount).value)
    ensures err.Some? ==> FieldPrefix(field, mapping, CellCount) == Err(err.value)
  {
    assert done + FieldPrefix(field, mapping, 0).value == done;
    err := None;
    var h := 0;
    ghost var k := 0;
    while h < CellNumber && err.None?
      invariant h <= CellNumber && k == CellNumber * h && typeColors.Valid()
      invariant err.None? ==> Accumulated(typeColors, field, mapping, k, done)
      invariant err.Some? ==> FieldPrefix(field, mapping, CellCount) == Err(err.value)
    {
      err := ProcessRow(typeColors, field, mapping, h, k, done);
      h, k := h + 1, k + CellNumber;
    }
  }

  /** Field i extends a successful run over the fields before it by its
      samples, or ends the run with its error. */
  lemma {:induction false} TuningStep(fields: seq<TuningField>, i: nat)
    requires i < |fields| && TuningSamples(fields[..i]).Ok?
    ensures FieldSamples(fields[i]).Ok? ==>
      TuningSamples(fields[..i + 1]) == Ok(TuningSamples(fields[..i]).value + FieldSamples(fields[i]).value)
    ensures FieldSamples(fields[i]).Err? ==> TuningSamples(fields[..i + 1]) == FieldSamples(fields[i])
  {
    assert fields[..i + 1][..i] == fields[..i];
    assert fields[..i + 1][i] == fields[i];
  }

  /** `process_tuning_fields`: starts from four empty lists per type and
      processes every field in turn. It yields the dictionary of the
      specification, or the error of the first cell whose label cannot be
      read. */
  method ProcessTuningFields(fields: seq<TuningField>) returns (r: Result<TypeColors>)
    ensures r.Ok? <==> TuningSamples(fields).Ok?
    ensures r.Ok? ==> fresh(r.value) && r.value.Valid()
    ensures r.Ok? ==> r.value.lists == Collect(TuningSamples(fields).value)
    ensures r.Err? ==> r.error == TuningSamples(fields).error
  {
    var typeColors := new TypeColors();
    for i := 0 to |fields|
      invariant fresh(typeColors) && typeColors.Valid()
      invariant TuningSamples(fields[..i]).Ok?
      invariant typeColors.lists == Collect(TuningSamples(fields[..i]).value)
    {
      TuningStep(fields, i);
      var mapping := CastMapping(fields[i].mapping);
      var err := ProcessField(typeColors, fields[i], mapping, TuningSamples(fields[..i]).value);
      if err.Some? {
        TuningErrorSticks(fields, i + 1);
        return Err(err.value);
      }
    }
    assert fields[..|fields|] == fields;
    return Ok(typeColors);
  }

  /** The definer's constructor: processes the tuning fields and reduces every
      type's lists to their integer means. */
  method Calibrate(fields: seq<TuningField>) returns (r: Result<map<CellType, Color>>)
    ensures r == Calibrated(fields)
  {
    var processed := ProcessTuningFields(fields);
    if processed.Err? {
      return Err(processed.error);
    }
    r := Centroids(processed.value.lists);
  }
}
