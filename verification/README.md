# Cell type definer: calibration core

This project models the calibration step of `CellTypeDefiner` in `prepare.py`.
That step learns one representative colour per cell type from labelled
screenshots of a 6×6 game field (the "tuning fields"):

- Each tuning field pairs a screenshot with a mapping file. The mapping file
  has one line per row of the grid and one token per cell: `e`, `s`, `r`,
  `g` or `b`.
- `cast_mapping` turns the mapping file into rows of tokens.
- `process_tuning_fields` cuts the screenshot into 36 cells and crops each
  cell to its centre. It then looks up the cell's type through the label
  table `map`, and appends the four channels of the centre's average colour
  to that type's four lists (red, green, blue, alpha).
- The constructor reduces every list to `sum // len`. The result is one
  (r, g, b, a) centroid per type.

The model has six modules:

- `CellTypes` (`cell_types.dfy`) holds the five cell types, the label table
  and the errors that abort a run.
- `Mapping` (`mapping.dfy`) holds line iteration over a text, Python's
  argument-less `str.split`, and `cast_mapping`.
- `Geometry` (`geometry.dfy`) holds the cell boxes and the centre box. The
  centre box is written as the source writes it.
- `Accumulator` (`accumulator.dfy`) holds `type_colors` as a class whose map
  field is updated in place. The specification function `Collect` describes
  the dictionary after a sequence of samples.
- `Centroid` (`centroid.dfy`) holds the truncating mean and the per-type
  centroids.
- `Calibration` (`calibration.dfy`) holds the whole run:
  - a functional specification (`FieldPrefix`, `TuningSamples`,
    `Calibrated`);
  - the imperative nested loops (`ProcessCell`, `ProcessRow`,
    `ProcessField`, `ProcessTuningFields`, `Calibrate`), each proved against
    that specification;
  - lemmas about what calibration computes.

Python's exceptions become `Err` values of type `Result`:

- an `IndexError` on a mapping with too few rows or tokens becomes
  `MissingRow` or `MissingColumn`;
- a `KeyError` on an unknown token becomes `UnknownLabel`;
- a `ZeroDivisionError` for a type that never occurs becomes `NoSamples`.

A run stops at the first failing cell in the order fields, rows, then
columns, just as the exception would propagate.

The centre crop is passed to the image library as `(offset_y, offset_x,
cw - offset_x, ch - offset_y)`, where `offset_x = cw // 4` and
`offset_y = ch // 4` (`prepare.py:97-104`). The model keeps that order.
`Geometry.CenterBoxMargins` states the margins the code actually produces,
and proves that the box is centred exactly when `cw // 4 == ch // 4`. This
always holds for square cells (`Geometry.CenterBoxOfSquareCell`). For cells
far from square the box is inverted (`Geometry.InvertedCenterBox`).

## Model

| member | source | states |
|---|---|---|
| CellTypes.Name | prepare.py:16-20 | each type's name is one of the five source strings `empty`, `skull`, `red`, `green`, `blue`: at least three lower-case letters |
| CellTypes.NamesDistinct | prepare.py:16-20 | distinct types have distinct names |
| CellTypes.Lookup | prepare.py:23-29 | a token has a type exactly when it is one of the five label keys |
| CellTypes.Label | prepare.py:23-29 | every type has a one-character key in the label table |
| CellTypes.LabelTableDomain | prepare.py:23-29 | the table's keys are exactly `e s r g b` and its values are all five types |
| CellTypes.LookupBijective | prepare.py:23-29 | the label table is a bijection: each type's label looks up to that type, distinct keys give distinct types, and each found type's label is the key |
| CellTypes.AllTypesComplete | prepare.py:57-63 | the dictionary's key set holds every cell type |
| CellTypes.TypeOrderComplete | prepare.py:57-63 | the declared order lists each of the five types exactly once |
| Mapping.Split | prepare.py:42 | `str.split()` yields only non-empty tokens without whitespace (that these are exactly the line's tokens is `Mapping.SplitInterleave` with `Mapping.GapsInterleave`) |
| Mapping.SplitSkipSpace | prepare.py:42 | leading whitespace of any length does not change the tokens of a line |
| Mapping.SplitToken | prepare.py:42 | a token followed by whitespace or by the end of the line is the line's first token, and the rest of the line gives the rest |
| Mapping.SplitInterleave | prepare.py:42 | for any tokens `t0 … tn-1` and whitespace runs `w0 … wn` whose inner runs are non-empty, `(w0 + t0 + w1 + … + tn-1 + wn).split()` is exactly `[t0, …, tn-1]` |
| Mapping.GapsInterleave | prepare.py:42 | every line is its own `split()` tokens interleaved with whitespace runs whose inner runs are non-empty, so with `Mapping.SplitInterleave` the tokens of a line are determined uniquely |
| Mapping.WordLength | prepare.py:42 | a token ends at the first whitespace character or at the end of the line |
| Mapping.SplitAllSpace | prepare.py:42 | a line of whitespace alone yields no tokens |
| Mapping.SplitJoin | prepare.py:42 | splitting tokens joined by single spaces, followed by any trailing whitespace, gives back exactly those tokens in order |
| Mapping.JoinNoNewline | prepare.py:42 | a joined row of tokens holds no newline |
| Mapping.LineLength | prepare.py:42 | a line ends just after its first newline, or at the end of the text |
| Mapping.Lines | prepare.py:42 | iterating a text yields non-empty lines, each with a newline at most as its last character |
| Mapping.LinesConcat | prepare.py:42 | the lines concatenate back to the text |
| Mapping.LinesEndInNewline | prepare.py:42 | every line except the last ends with a newline |
| Mapping.LineLengthOfLine | prepare.py:42 | a newline-free line followed by a newline is read as one line |
| Mapping.CastMapping | prepare.py:40-43 | one row per line of the file, and row h is the token list of line h |
| Mapping.MappingTextLines | prepare.py:40-43 | a mapping file's first line is its first row joined, plus the newline; the other lines belong to the remaining rows |
| Mapping.CastMappingCons | prepare.py:40-43 | the rows of a text are its first line's tokens followed by the rows of the rest |
| Mapping.CastMappingRoundTrip | prepare.py:40-43 | `cast_mapping` of a grid written one space-joined row per line gives back that grid |
| Geometry.CellWidth | prepare.py:81 | `width // 6` is the largest cell width of which six fit in the image |
| Geometry.CellHeight | prepare.py:82 | `height // 6` is the largest cell height of which six fit in the image |
| Geometry.CellBox | prepare.py:92-94 | the cell crop starts at non-negative coordinates and measures `cell_width × cell_height` |
| Geometry.CenterBox | prepare.py:83-84 | the centre crop in the source's (offset_y, offset_x, cw - offset_x, ch - offset_y) order: it starts at or after the cell's left and upper edges and ends at or before its right and lower edges, and it is `cw - cw//4 - ch//4` wide and `ch - ch//4 - cw//4` high (negative when inverted) |
| Geometry.CellSizeBounds | prepare.py:80-82 | six cell widths (heights) fit in the image, with fewer than six pixels left over |
| Geometry.CellBoxInImage | prepare.py:92-94 | each of the 36 cell crops lies inside the image and measures exactly `cell_width × cell_height` |
| Geometry.CellContainsIff | prepare.py:92-94 | a pixel is in cell (h, w) exactly when it is in the covered area and its coordinates divided by the cell size are (w, h) |
| Geometry.CellsDisjoint | prepare.py:88-94 | two cells never share a pixel |
| Geometry.PixelInItsCell | prepare.py:88-94 | a pixel of the covered area lies in the cell its coordinates name |
| Geometry.CellsCover | prepare.py:88-94 | a pixel lies in some cell exactly when it is in `[0, 6cw) × [0, 6ch)`; the leftover columns and rows lie in none |
| Geometry.CenterBoxMargins | prepare.py:83-104 | the centre crop starts at or after the cell's left and upper edges and ends at or before its right and lower edges; its left and right margins are `ch//4` and `cw//4`, its top and bottom margins `cw//4` and `ch//4`; it is centred exactly when `cw//4 == ch//4`; left <= right exactly when `ch//4 <= cw - cw//4`, upper <= lower exactly when `cw//4 <= ch - ch//4` |
| Geometry.InvertedCenterBox | prepare.py:97-104 | for a 4 × 20 cell the crop is `(5, 1, 3, 15)`, whose left edge lies right of its right edge |
| Geometry.CenterBoxOfSquareCell | prepare.py:97-104 | for a square cell the crop is centred, each side keeps `c - 2*(c//4)` pixels, and that is at least half the cell |
| Accumulator.Column | prepare.py:116-117 | channel c of the samples of type t, in order: one entry per sample of that type |
| Accumulator.Count | prepare.py:112 | the number of samples of type t is at most the number of samples |
| Accumulator.Collect | prepare.py:57-63 | the dictionary always has the five type keys, each with four channel lists |
| Accumulator.Appended | prepare.py:113-117 | appending one colour keeps the dictionary well shaped |
| Accumulator.AppendedTouchesOneType | prepare.py:113-117 | appending to type t changes only t's lists, and there adds `color[c]` at the end of list c |
| Accumulator.CollectEmpty | prepare.py:57-63 | before any sample each type holds four empty lists |
| Accumulator.CollectSnoc | prepare.py:112-117 | processing one more sample is one append step |
| Accumulator.ColumnAppend | prepare.py:116-117 | lists only grow: samples processed later come after earlier entries |
| Accumulator.ColumnEntry | prepare.py:116-117 | entry j of list c of type t is channel c of the j-th sample of type t |
| Accumulator.CollectAt | prepare.py:113-117 | list c of type t equals the column of channel c over t's samples, and its length is t's sample count |
| Accumulator.CountsAddUp | prepare.py:112-117 | summed over the five types, the sample counts equal the number of samples |
| Accumulator.CountAppend | prepare.py:67-117 | a type's count over concatenated runs is the sum of the counts |
| Accumulator.TypeColors.constructor | prepare.py:57-63 | a new dictionary holds four empty lists for each of the five types |
| Accumulator.TypeColors.Append | prepare.py:113-117 | the channel loop appends each channel of the colour to the matching list of the type, and changes nothing else |
| Centroid.Mean | prepare.py:36 | `sum // len` is the largest m with `len * m <= sum` |
| Centroid.MeanBetween | prepare.py:36 | the mean lies between the smallest and the largest entry |
| Centroid.MeanOfConstant | prepare.py:36 | the mean of equal entries is that entry |
| Centroid.MeanExample | prepare.py:36 | the mean of 10 and 20 is 15 |
| Centroid.CentroidColor | prepare.py:36 | each channel of a type's centroid lies between the smallest and largest entry of that channel's list |
| Centroid.FirstEmpty | prepare.py:35-38 | finds the first type, in declaration order, with an empty list, or reports that every type is non-empty |
| Centroid.Centroids | prepare.py:35-38 | the centroids exist exactly when every type has samples; then every type maps to its per-channel means; otherwise the error names a type without samples |
| Centroid.SkullExample | prepare.py:35-38 | Skull samples (10,10,10,255) and (20,20,20,255) give centroid (15,15,15,255) |
| Calibration.CellLabel | prepare.py:112 | the cell's token has a type exactly when the row and column exist and the token is a label key; a missing row fails with MissingRow, a missing token with MissingColumn, an unknown token with UnknownLabel |
| Calibration.CellSample | prepare.py:92-114 | a cell yields a sample exactly when its label can be read; the sample has the labelled type and the colour of the centre crop of the cell crop; a failure is the label's error |
| Calibration.FieldPrefix | prepare.py:88-117 | the samples of the first k cells in row-major order, k of them when they all succeed |
| Calibration.FieldSamples | prepare.py:86-117 | a field that succeeds yields 36 samples |
| Calibration.TuningSamples | prepare.py:67-117 | a run that succeeds yields 36 samples per field |
| Calibration.Calibrated | prepare.py:31-38 | a successful calibration has all five types as keys and needs every field to succeed; a failing field's error is the result; otherwise a failure is NoSamples |
| Calibration.RowMajor | prepare.py:88-89 | cell 6h + w of the nested loop is row h, column w |
| Calibration.FieldPrefixCells | prepare.py:88-117 | the first k cells succeed exactly when each does; the samples are then one per cell, in row-major order |
| Calibration.FieldPrefixFirstError | prepare.py:88-117 | a failing field fails with the error of its first failing cell |
| Calibration.FieldPrefixErrorSticks | prepare.py:88-117 | after a cell fails, no later cell changes the outcome |
| Calibration.FieldSamplesSpec | prepare.py:86-117 | a field succeeds exactly when its mapping labels all 36 cells with known tokens; sample 6h + w is then cell (h, w), with its labelled type and the colour of its centre crop |
| Calibration.TuningSamplesOk | prepare.py:67-117 | a run succeeds exactly when every field does |
| Calibration.TuningErrorSticks | prepare.py:67-117 | once a field fails, later fields do not change the outcome |
| Calibration.TuningFirstError | prepare.py:67-117 | a failing run fails with the error of its first failing field |
| Calibration.TuningEntryCount | prepare.py:67-117 | each channel holds 36 entries per field in total across the five types, and a type's four lists have equal length |
| Calibration.CollectNonEmpty | prepare.py:113-117 | a type's lists are non-empty exactly when the type has a sample |
| Calibration.CentroidsOfSamples | prepare.py:35-38 | the centroids exist exactly when every type has a sample; each channel is then the mean of that channel over the type's samples; otherwise the error names a type with no samples |
| Calibration.CalibrationMeans | prepare.py:31-38 | calibration succeeds exactly when every field is well labelled and every type occurs; every centroid channel is then the truncated mean of that channel over the type's samples |
| Calibration.CalibrationNoSamples | prepare.py:35-38 | a type that never occurs aborts calibration with a NoSamples error for a type that has no samples |
| Calibration.UniformColumnMean | prepare.py:36 | if all samples of a type have one colour, each channel's mean is that colour's channel |
| Calibration.CentroidOfMeans | prepare.py:35-38 | a type whose every channel list averages to the matching channel of one colour has that colour as its centroid |
| Calibration.UniformCentroid | prepare.py:35-38 | if all samples of a type have one colour, its centroid is that colour |
| Calibration.CalibrationUniform | prepare.py:31-38 | as above, for a whole calibration run |
| Calibration.CalibrationBetween | prepare.py:31-38 | each centroid channel lies between the smallest and largest sampled value of that channel |
| Calibration.CellAtRowMajor | prepare.py:88-89 | step k of the walk is cell (h, w) for k = 6h + w, inside the field when h < 6 |
| Calibration.CellStep | prepare.py:112-117 | a successful cell extends the field's samples by one and appends its colour to its type's lists |
| Calibration.CellSampleCases | prepare.py:92-114 | a missing row, a missing column and an unknown token fail in that order; otherwise the cell yields its labelled type and the colour of its centre crop |
| Calibration.CellErrorEndsField | prepare.py:112 | a failing cell ends its field with that cell's error |
| Calibration.ProcessCell | prepare.py:91-117 | one loop iteration either appends the cell's sample to the dictionary or returns the error that ends the field |
| Calibration.ProcessRow | prepare.py:89-117 | the inner loop processes a row's six cells left to right; the dictionary then reflects them, or the field's error is returned |
| Calibration.ProcessField | prepare.py:80-117 | the nested loops succeed exactly when the field does; the dictionary then equals the specification after this field's 36 samples, otherwise the field's error is returned |
| Calibration.TuningStep | prepare.py:67-118 | the next field extends a successful run by its 36 samples, or ends the run with its error |
| Calibration.ProcessTuningFields | prepare.py:53-118 | succeeds exactly when the specification does, with the dictionary of all samples; otherwise returns the specification's error |
| Calibration.Calibrate | prepare.py:31-38 | the constructor's centroid table equals the specification `Calibrated`, whose properties the lemmas above state |

## Left out

- Image I/O is not modelled: opening the PNG, `crop`, `resize((1, 1))`, `getpixel` and `get_color` (`prepare.py:45-51`). The colour of a cell's centre crop is the input function `centerColor` of each `TuningField`. Its arguments are the cell box and the centre box, so the geometry that selects the pixels is modelled, but the averaging inside the image library is not.
- Geometry.CenterBox: for cells far from square the swapped offsets give an inverted box (`Geometry.InvertedCenterBox`). The image library's `crop` refuses such a box, but the model still samples its colour through `centerColor` instead of failing the run.
- Colour channels are unbounded naturals. The model does not use the 0..255 range of an RGBA pixel.
- Directory discovery is not modelled: `get_tuning_field_folder_paths` and `rglob("field_*")`, and the opening of `image.PNG` and `mapping.txt`. The run takes the sequence of fields, in discovery order, as input.
- The `SAVE_TUNING_FIELD_IMAGE_CELLS` branch (`mkdir` and `save` of cell and centre crops) is not modelled. It writes files only and does not affect the result.
- The `__main__` block that prints the table is not modelled.
- Mapping.Lines: reads the text after universal-newline translation. A `\r\n` or lone `\r` line ending is not converted to `\n`.
- Calibration.ProcessTuningFields: a failing run returns only the error. The source has already appended to the dictionary when the exception escapes, but that partial dictionary is not observable by a caller.
- The single loop body of `process_tuning_fields` is split into the methods `ProcessCell` (one cell), `ProcessRow` (the `for w` loop) and `ProcessField` (the `for h` loop). The mapping rows are computed by `CastMapping` in `ProcessTuningFields` and passed in.
- Accumulator.TypeColors.Append: the source appends through `type_color`, an alias of the dictionary's tuple of lists. The model copies that entry into a local sequence, appends channel by channel, and writes it back.
