/** The reindexed-view test replayed as a verified method on the mutable
    model: a frame is built and loaded, mutable and const reindexed views are
    taken from it, and an element written through the mutable view is read
    back through the frame that owns the storage. */
module Scenario {
  import opened Values
  import opened Table
  import Reindex
  import DataFrames
  import Examples

  /** The index of the view test. */
  const VIEW_INDEX: seq<Value> :=
    [ULong(1), ULong(2), ULong(3), ULong(10), ULong(5), ULong(7), ULong(8), ULong(12),
     ULong(9), ULong(12), ULong(10), ULong(13), ULong(10), ULong(15), ULong(14)]

  /** The frame of the view test once loaded. */
  function ViewFrame(): Frame {
    Frame(ULongT, VIEW_INDEX,
          map["dbl_col" := Column(DblT, Examples.DBL_COL),
              "dbl_col_2" := Column(DblT, Examples.DBL_COL_2),
              "str_col" := Column(StrT, Examples.STR_COL),
              "int_col" := Column(IntT, Examples.INT_COL)])
  }

  lemma IndexTyped()
    ensures AllOfType(VIEW_INDEX, ULongT)
  {
  }

  lemma DoubleColumnsTyped()
    ensures AllOfType(Examples.DBL_COL, DblT) && AllOfType(Examples.DBL_COL_2, DblT)
  {
  }

  lemma StrColumnTyped()
    ensures AllOfType(Examples.STR_COL, StrT)
  {
  }

  lemma IntColumnTyped()
    ensures AllOfType(Examples.INT_COL, IntT)
  {
  }

  /** Loads the view test's frame. */
  method BuildViewFrame() returns (df: DataFrames.DataFrame)
    ensures fresh(df) && df.Valid() && df.Abs() == ViewFrame()
    ensures "dbl_col" in df.columns && fresh(df.columns["dbl_col"].buf)
  {
    IndexTyped();
    DoubleColumnsTyped();
    StrColumnTyped();
    IntColumnTyped();
    df := new DataFrames.DataFrame(ULongT, VIEW_INDEX);
    df.LoadColumn("dbl_col", DblT, Examples.DBL_COL);
    df.LoadColumn("dbl_col_2", DblT, Examples.DBL_COL_2);
    df.LoadColumn("str_col", StrT, Examples.STR_COL);
    df.LoadColumn("int_col", IntT, Examples.INT_COL);
  }

  /** Reindexing the view test's frame by `dbl_col`: the sizes and elements
      the test reads through both views. */
  lemma ReindexViewFrameByDouble()
    ensures var r := Reindex.Reindexed(ViewFrame(), "dbl_col", "OLD_IDX", DblT);
      r.Success? &&
      |r.value.index| == 15 &&
      |r.value.columns["dbl_col_2"].data| == 15 &&
      |r.value.columns["OLD_IDX"].data| == 15 &&
      |r.value.columns["str_col"].data| == 15 &&
      |r.value.columns["int_col"].data| == 11 &&
      r.value.index[0] == Dbl(Num(0.0)) && r.value.index[14] == Dbl(Num(10.0)) &&
      r.value.columns["int_col"].data[3] == Int(4) &&
      r.value.columns["int_col"].data[9] == Int(14) &&
      r.value.columns["str_col"].data[5] == Str("ff") &&
      r.value.columns["dbl_col_2"].data[10] == Dbl(Num(112.0))
  {
    assert "dbl_col" in ViewFrame().columns && "OLD_IDX" !in ViewFrame().columns;
  }

  /** Reindexing the view test's frame by `int_col`: every column is cut to 11
      rows, with the elements the test reads through both views. */
  lemma ReindexViewFrameByInt()
    ensures var r := Reindex.Reindexed(ViewFrame(), "int_col", "OLD_IDX", IntT);
      r.Success? &&
      |r.value.index| == 11 &&
      |r.value.columns["dbl_col_2"].data| == 11 &&
      |r.value.columns["dbl_col"].data| == 11 &&
      |r.value.columns["OLD_IDX"].data| == 11 &&
      |r.value.columns["str_col"].data| == 11 &&
      r.value.columns["dbl_col_2"].data[10] == Dbl(Num(112.0)) &&
      r.value.columns["dbl_col"].data[3] == Dbl(Num(2.0)) &&
      r.value.columns["str_col"].data[5] == Str("ff") &&
      r.value.index[0] == Int(1) && r.value.index[10] == Int(9)
  {
    assert "int_col" in ViewFrame().columns && "OLD_IDX" !in ViewFrame().columns;
  }

  /** The column names and lengths of the view test's frame. */
  lemma ViewFrameShape()
    ensures var f := ViewFrame();
      "dbl_col" in f.columns && "int_col" in f.columns && "OLD_IDX" !in f.columns &&
      f.columns["dbl_col"].ty == DblT && f.columns["int_col"].ty == IntT &&
      |f.columns["dbl_col"].data| == 15 && |f.columns["int_col"].data| == 11 && |f.index| == 15
  {
  }

  /** The mutable and the const view of the loaded frame by `dbl_col` show
      the frame `ReindexViewFrameByDouble` describes. */
  method ViewsByDouble() returns (mv: DataFrames.FrameView, cv: DataFrames.FrameView)
    ensures !mv.readOnly && cv.readOnly && mv.Valid() && cv.Valid()
    ensures mv.Abs() == cv.Abs() == Reindex.Reindexed(ViewFrame(), "dbl_col", "OLD_IDX", DblT).value
  {
    var df := BuildViewFrame();
    ViewFrameShape();
    assert df.columns["dbl_col"].buf.Length == 15 && df.index.Length == 15;
    mv, cv := DataFrames.MutableAndConstViews(df, "dbl_col", "OLD_IDX", DblT);
    assert df.Abs() == ViewFrame();
  }

  /** The mutable and the const view of the loaded frame by `int_col` show
      the frame `ReindexViewFrameByInt` describes. */
  method ViewsByInt() returns (mv: DataFrames.FrameView, cv: DataFrames.FrameView)
    ensures !mv.readOnly && cv.readOnly && mv.Valid() && cv.Valid()
    ensures mv.Abs() == cv.Abs() == Reindex.Reindexed(ViewFrame(), "int_col", "OLD_IDX", IntT).value
  {
    var df := BuildViewFrame();
    ViewFrameShape();
    assert df.columns["int_col"].buf.Length == 11 && df.index.Length == 15;
    mv, cv := DataFrames.MutableAndConstViews(df, "int_col", "OLD_IDX", IntT);
    assert df.Abs() == ViewFrame();
  }

  /** After `dbl_col[3]` is written through the mutable view by `int_col`,
      the frame that owns the storage reads the written value at the same
      position. */
  method ViewWriteThrough() returns (viaView: Value, viaFrame: Value)
    ensures viaView == Dbl(Num(1002.45)) && viaFrame == viaView
  {
    var df := BuildViewFrame();
    ViewFrameShape();
    ReindexViewFrameByInt();
    assert df.columns["int_col"].buf.Length == 11 && df.index.Length == 15;
    assert df.columns["dbl_col"].ty == DblT;
    viaView, viaFrame := DataFrames.WriteThroughReindexedView(df, "int_col", "OLD_IDX", IntT,
                                                              "dbl_col", 3, Dbl(Num(1002.45)));
  }
}
