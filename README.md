# DataFrame reindex, retype and align: a Dafny model

This project models three table transformations of a C++ columnar data frame.
The behaviour follows what its test driver `dataframe.cpp` asserts. A frame is
a row index plus named, typed columns. A column's length is independent of the
index length and of the other columns.

- **Reindex** (`get_reindexed`, `get_reindexed_view`). An existing column
  becomes the row index, verbatim and in order. The old index is kept as an
  ordinary column under a name the caller picks. Every other column is cut to
  `min(own length, new index length)`: the front is kept and nothing is padded.
  The reindexed column itself leaves the columns.
  - The copying variant is the function `Reindex.Reindexed` on frame values.
  - The view variant is `DataFrames.DataFrame.GetReindexedView`. It builds a
    `FrameView` whose index and columns are views of the owner's own arrays,
    so nothing is copied. The view is proved to show exactly the frame
    `Reindexed` builds, and its aliasing is stated buffer by buffer. A write
    through a mutable view is read back through the owning frame.
- **Retype** (`retype_column<From, To>`). One column changes its element type
  in place. Without a converter this is C++ `static_cast` between integral
  types, modelled as arithmetic modulo 2^32 or 2^64 with two's complement for
  `int`. With a converter, the converter is applied to each element in
  position order. The specification is the function `Retype.Retyped`. The
  in-place operation is `DataFrames.DataFrame.RetypeColumn`, which converts
  into a fresh buffer with a loop and installs it only once every element has
  converted.
- **Align** (`load_align_column`). This builds a column as long as the index.
  Coarse value `k` lands on row `k*stride`, or on row `k*stride + stride`
  when the column is not anchored at the start. Every other row holds the
  fill value, and targets past the last row are dropped. The specification is
  `Align.Aligned` / `Align.AlignLoaded`. The in-place operation is
  `DataFrames.DataFrame.LoadAlignColumn`, whose scatter loop is
  `DataFrames.Scatter`.

The test driver never exercises a failure, so `dataframe.cpp` fixes none of
them. These are the errors the model reports for the cases the driver does
not reach:
- a missing column gives `ColumnNotFound`;
- a declared type that differs from the stored one gives `TypeMismatch`;
- an old-index name that collides with an existing column, or a zero stride,
  gives `InvalidArgument`;
- a converter or default cast that fails on some element gives
  `ConversionFailure`.

Reindex and retype are all-or-nothing: on failure the frame is left exactly
as it was.

The driver has misspellings that would stop it compiling: `std:end1` (line
18), `std::end1` (lines 78, 173 and 215), `std:make_pair` (line 37), `dlbvec`
(lines 37 and 97), `result` for `result1` (line 56), `get_colum` (line 144)
and `quite_NaN` (line 231). The model follows the evident intent in each case.

A mutable frame (`DataFrames.DataFrame`) is valid when every element has
its column's declared type and its index and columns each own a separate
array, as an owning C++ frame does.

The values the driver asserts are restated as lemmas in module `Examples`.
The view test's write-through is replayed in module `Scenario`.

Files:
- `values.dfy`: cell values, element types and the default casts.
- `table.dfy`: frames, errors and the well-typedness invariant.
- `reindex.dfy`, `retype.dfy`, `align.dfy`: the specifications on values,
  with their lemmas.
- `dataframe.dfy`: the mutable frame, the view frame and their methods.
- `examples.dfy`, `scenario.dfy`: the driver's own cases.

## Model

| member | source | states |
|---|---|---|
| Values.ToUInt32 | dataframe.cpp:193-195 | the unsigned 32-bit reading of an int lies in [0, 2^32) and agrees with it modulo 2^32 (-1 becomes 4294967295) |
| Values.ToInt32 | dataframe.cpp:190 | the 32-bit two's-complement reading lies in [-2^31, 2^31) and agrees with its input modulo 2^32 |
| Values.ToUInt64 | dataframe.cpp:190 | the unsigned 64-bit reading lies in [0, 2^64) and agrees with its input modulo 2^64 |
| Values.Cast | dataframe.cpp:190 | the default conversion exists exactly between integral types, yields a legal element of the target type, and keeps the value modulo the target's width |
| Values.CastKeepsRepresentable | dataframe.cpp:194-196 | a value that fits the target type is not changed by the default conversion (2 stays 2, 11 stays 11) |
| Values.IntUIntRoundTrip | dataframe.cpp:190-196 | int to unsigned int and back restores every int, so the wrap-around loses no information |
| Values.UIntIntRoundTrip | dataframe.cpp:190-196 | unsigned int to int and back restores every unsigned int |
| Table.Truncate | dataframe.cpp:63-67 | cutting to n rows leaves min(length, n) elements, equal to the front of the original, and never pads |
| Reindex.Reindexed | dataframe.cpp:44-72 | each failure case; success exactly when the column exists with the requested type and the old-index name is free; the new index is the column verbatim; the column set is the old one minus the column plus the old-index name; the old index is kept with its type and front, cut to the new length; every other column keeps its type and front, with length min(own, new index length) |
| Reindex.ReindexPreservesWellTyped | dataframe.cpp:44-46 | a successful reindex of a well-typed frame is well typed |
| Retype.Convert | dataframe.cpp:190-203 | an element converts exactly when the converter (if given) yields a legal element of the target type, or, without one, when both types are integral; a converted element is always a legal element of the target type; without a converter it is the default cast; with one it is the converter's result |
| Retype.ConvertAll | dataframe.cpp:200-203 | converting a column succeeds exactly when every element converts, keeps the length, and holds each element's conversion at its own position |
| Retype.Retyped | dataframe.cpp:190-210 | each failure case; success exactly when the column exists with the source type and every element converts; the index, the column names and every other column are unchanged; the column has the target type, the same length and each element converted in place |
| Retype.RetypedTo | dataframe.cpp:190-210 | when each element converts to the element of a given sequence at its position, the retype succeeds with exactly that sequence as the column |
| Retype.RetypePreservesWellTyped | dataframe.cpp:190-206 | a successful retype of a well-typed frame is well typed |
| Retype.IntToUIntWraps | dataframe.cpp:190-196 | retyping int to unsigned int with no converter always succeeds and maps each v to v mod 2^32 |
| Retype.IntUIntRetypeRoundTrip | dataframe.cpp:190-196 | retyping int to unsigned int and back with the default casts gives back the original frame |
| Align.Aligned | dataframe.cpp:241-242 | the aligned column has exactly as many rows as the frame |
| Align.TargetDivides | dataframe.cpp:227-231 | the period of the row a coarse value lands on gives back that value's position |
| Align.CoveredByItsSource | dataframe.cpp:243-249 | a row that some coarse value lands on is the target of exactly the coarse value placed there |
| Align.CoveredStep | dataframe.cpp:227-253 | letting one more coarse value through covers the rows already covered plus that value's target row, and no other |
| Align.AlignedPlacesCoarse | dataframe.cpp:243-249 | row k*stride (plus stride when not anchored) holds coarse value k whenever that row exists |
| Align.AlignedFillsUncovered | dataframe.cpp:244-253 | every row that no coarse value targets holds the fill value |
| Align.AlignLoaded | dataframe.cpp:227-242 | a zero stride, and only a zero stride, is an invalid argument; every positive stride succeeds, and then the index and every other column are unchanged, and the named column is added or replaced with the given type, the index's length and exactly the aligned contents `Align.Aligned` |
| Align.AlignPreservesWellTyped | dataframe.cpp:227-231 | aligning typed coarse values with a typed fill keeps the frame well typed |
| DataFrames.DataFrame.constructor | dataframe.cpp:36-39 | a new frame holds the given index and no columns |
| DataFrames.DataFrame.Install | dataframe.cpp:40-42 | installing a buffer not already owned by the frame replaces or adds exactly that column, changes nothing else, and keeps every buffer owned by one part of the frame only |
| DataFrames.DataFrame.LoadColumn | dataframe.cpp:40-42 | loading without padding attaches the column at its own length, keeps the frame valid and leaves every other column and its buffer as it was |
| DataFrames.DataFrame.RetypeColumn | dataframe.cpp:190-210 | the new frame is exactly `Retype.Retyped` of the old one and the outcome is a pass; on failure the same error is reported and the frame is unchanged; the frame stays valid; every other column keeps its buffer |
| DataFrames.DataFrame.InstallRetyped | dataframe.cpp:190-210 | installing a buffer that holds each element of the column converted in place gives exactly the successful `Retype.Retyped` frame, replaces only that column's storage, and keeps the frame valid |
| DataFrames.ConvertedBuffer | dataframe.cpp:200-203 | the loop reports success exactly when every element converts, and then holds each element's conversion at its own position in a fresh buffer |
| DataFrames.DataFrame.LoadAlignColumn | dataframe.cpp:227-239 | the new frame is exactly `Align.AlignLoaded` of the old one; a zero stride fails and leaves the frame unchanged; the frame stays valid; every other column keeps its buffer |
| DataFrames.AlignedBuffer | dataframe.cpp:227-241 | a fresh buffer of the frame's row count holding the aligned column |
| DataFrames.Scatter | dataframe.cpp:227-253 | starting from an all-fill buffer, the scatter loop leaves exactly the aligned column |
| DataFrames.DataFrame.GetReindexedView | dataframe.cpp:104-163 | on a mutable or a const frame, the view fails exactly as the copying reindex does; otherwise it shows exactly the copying reindex's frame, its index is the chosen column's own buffer, its old-index column is the frame's index buffer, and every other column is that column's own buffer |
| DataFrames.ViewShowsReindexed | dataframe.cpp:112-163 | a view frame laid over the owner's buffers in this way shows the copying reindex's frame |
| DataFrames.FrameView.Set | dataframe.cpp:165-166 | a write through a mutable view changes that one element of the shared buffer, and the view's column reads it |
| DataFrames.ReindexedView | dataframe.cpp:105-110 | a reindexed view that the copying reindex says succeeds is valid, has the requested write permission, shows the copying reindex's frame, aliases the owner's buffers as `GetReindexedView` states, and leaves the owning frame as it was |
| DataFrames.MutableAndConstViews | dataframe.cpp:104-111 | the views taken from a frame and from a const reference to it are mutable and read-only respectively and show the same frame, the copying reindex's |
| DataFrames.WriteThroughView | dataframe.cpp:165-168 | a write through the view is visible through the view and at the same row of the owning frame's column; the owner's index, its other columns and that column's other rows are unchanged, and the owner stays valid |
| DataFrames.WriteThroughReindexedView | dataframe.cpp:136-168 | after writing a row of a kept column through the mutable reindexed view, the view and the owning frame both read the written value, and the owner's frame differs from before at that one row of that one column only |
| Examples.ReindexByDoubleColumn | dataframe.cpp:44-58 | reindexing by `dbl_col` gives the sizes and elements the driver asserts (15 rows, `int_col` left at 11) |
| Examples.ReindexByIntColumn | dataframe.cpp:60-72 | reindexing by `int_col` cuts every column to 11 with the asserted elements |
| Examples.IntColumnCastsToUInt | dataframe.cpp:193-196 | each element of the driver's int column casts to the asserted unsigned value |
| Examples.RetypeIntToUInt | dataframe.cpp:190 | the first retype yields the frame with the unsigned column and nothing else changed |
| Examples.RetypedOnceValues | dataframe.cpp:191-198 | that frame has the sizes and elements the driver asserts |
| Examples.StrColumnConverts | dataframe.cpp:200-203 | a converter that parses each of the driver's strings converts the string column element by element |
| Examples.RetypeStrToIntWithConverter | dataframe.cpp:200-203 | the second retype, with such a converter, yields the frame with both columns retyped |
| Examples.RetypedTwiceValues | dataframe.cpp:204-210 | that frame has the sizes and elements the driver asserts |
| Examples.AlignAnchoredAtStart | dataframe.cpp:227-251 | anchored alignment puts 100, 200 and 500 on rows 0, 5 and 20 and leaves rows 6, 26 and 27 as fill |
| Examples.AlignShiftedByOnePeriod | dataframe.cpp:235-253 | unanchored alignment puts 102 and 502 on rows 5 and 25 and leaves rows 0, 26 and 27 as fill |
| Scenario.BuildViewFrame | dataframe.cpp:80-102 | loading the view test's index and columns gives exactly the frame it describes |
| Scenario.ReindexViewFrameByDouble | dataframe.cpp:112-134 | reindexing that frame by `dbl_col` gives the sizes and elements the test reads through both views |
| Scenario.ReindexViewFrameByInt | dataframe.cpp:143-163 | reindexing that frame by `int_col` cuts every column to 11 rows, with the elements the test reads through both views |
| Scenario.ViewsByDouble | dataframe.cpp:104-111 | the mutable and the const view by `dbl_col` of the loaded frame are valid and both show the frame `ReindexViewFrameByDouble` describes |
| Scenario.ViewsByInt | dataframe.cpp:136-141 | the mutable and the const view by `int_col` of the loaded frame are valid and both show the frame `ReindexViewFrameByInt` describes |
| Scenario.ViewWriteThrough | dataframe.cpp:165-168 | after `dbl_col[3] = 1002.45` through the mutable view, the view and the owning frame both read 1002.45 |

## Left out

- Console output and the `assert` harness of the driver: I/O and test plumbing.
- Double arithmetic: a double is an opaque value compared only by equality, and NaN is its own constructor standing for the fill sentinel.
- `std::stoi` inside the converter: a library call. The converter is a total function parameter that returns `None` where it would fail. Only its results on the driver's strings are used.
- `load_data` with padding policies other than "don't pad": not exercised. The model builds a frame from its index and loads columns at their own length.
- The type-erased `get_column<T>` access, the `Ts...` type list of the reindex calls, and the visitors and `RandGen` included by the driver: none is shown here. A column's type is a tag checked at the operation.
- `vector view.cpp`, `priority queue.cpp` and `rend tester.cpp` are not part of this model.
- Reindex.Reindexed: requires the chosen column to be no longer than the old index. The longer case is never exercised and its behaviour is not known.
- DataFrames.DataFrame.GetReindexedView: carries the same requirement.
- Values.Cast: covers default casts between integral types only. A default cast from or to `double` or `std::string` is reported as a conversion failure instead of modelling floating-point truncation or a compile-time rejection.
- Retype.Convert: a converter result of the wrong type is rejected as a conversion failure. The C++ converter's return type rules this out statically.
- A view that outlives its buffer is not detected. `LoadColumn`, `RetypeColumn` and `LoadAlignColumn` on an existing column name install a new buffer for that column. A view taken earlier keeps reading the old buffer, which the frame no longer holds; in C++ such a view dangles. The model states which buffer each view names but gives no contract that rules out or flags this use.
- DataFrames.FrameView.Set: the const view's refusal to write is a precondition (`!readOnly`), standing for the C++ compile-time const check.
- Concurrency: none in the source.
