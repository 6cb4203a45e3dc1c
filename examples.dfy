/** The frames and calls of the source's own test driver, with the values it
    asserts, restated about the model. */
module Examples {
  import opened Values
  import opened Table
  import Reindex
  import Retype
  import Align
  import DataFrames

  const DBL_COL: seq<Value> :=
    [Dbl(Num(0.0)), Dbl(Num(15.0)), Dbl(Num(14.0)), Dbl(Num(2.0)), Dbl(Num(1.0)), Dbl(Num(12.0)),
     Dbl(Num(11.0)), Dbl(Num(8.0)), Dbl(Num(7.0)), Dbl(Num(6.0)), Dbl(Num(5.0)), Dbl(Num(4.0)),
     Dbl(Num(3.0)), Dbl(Num(9.0)), Dbl(Num(10.0))]
  const DBL_COL_2: seq<Value> :=
    [Dbl(Num(100.0)), Dbl(Num(101.0)), Dbl(Num(102.0)), Dbl(Num(103.0)), Dbl(Num(104.0)),
     Dbl(Num(105.0)), Dbl(Num(106.55)), Dbl(Num(107.34)), Dbl(Num(1.8)), Dbl(Num(111.0)),
     Dbl(Num(112.0)), Dbl(Num(113.0)), Dbl(Num(114.0)), Dbl(Num(115.0)), Dbl(Num(116.0))]
  const INT_COL: seq<Value> := [Int(1), Int(2), Int(3), Int(4), Int(5), Int(8), Int(6), Int(7), Int(11), Int(14), Int(9)]
  const STR_COL: seq<Value> :=
    [Str("zz"), Str("bb"), Str("cc"), Str("ww"), Str("ee"), Str("ff"), Str("gg"), Str("hh"),
     Str("ii"), Str("jj"), Str("kk"), Str("ll"), Str("mm"), Str("nn"), Str("oo")]

  /** The frame of the reindexing test: a 15-row index, three 15-element
      columns and an 11-element int column loaded without padding. */
  function ReindexFrame(): Frame {
    Frame(ULongT,
          [ULong(1), ULong(2), ULong(3), ULong(4), ULong(5), ULong(6), ULong(7), ULong(8), ULong(12),
           ULong(9), ULong(10), ULong(13), ULong(10), ULong(15), ULong(14)],
          map["dbl_col" := Column(DblT, DBL_COL),
              "dbl_col_2" := Column(DblT, DBL_COL_2),
              "str_col" := Column(StrT, STR_COL),
              "int_col" := Column(IntT, INT_COL)])
  }

  /** Reindexing by the 15-element double column. */
  lemma ReindexByDoubleColumn()
    ensures var r := Reindex.Reindexed(ReindexFrame(), "dbl_col", "OLD_IDX", DblT);
      r.Success? &&
      |r.value.index| == 15 &&
      |r.value.columns["dbl_col_2"].data| == 15 &&
      |r.value.columns["OLD_IDX"].data| == 15 &&
      |r.value.columns["str_col"].data| == 15 &&
      |r.value.columns["int_col"].data| == 11 &&
      r.value.index[0] == Dbl(Num(0.0)) && r.value.index[14] == Dbl(Num(10.0)) &&
      r.value.columns["int_col"].data[3] == Int(4) &&
      r.value.columns["int_col"].data[9] == Int(14) &&
      r.value.columns["str_col"].data[5] == Str("ff") &&
      r.value.columns["dbl_col_2"].data[10] == Dbl(Num(112.0))
  {
    var f := ReindexFrame();
    assert "dbl_col" in f.columns && "OLD_IDX" !in f.columns;
  }

  /** Reindexing by the 11-element int column cuts everything else to 11. */
  lemma ReindexByIntColumn()
    ensures var r := Reindex.Reindexed(ReindexFrame(), "int_col", "OLD_IDX", IntT);
      r.Success? &&
      |r.value.index| == 11 &&
      |r.value.columns["dbl_col_2"].data| == 11 &&
      |r.value.columns["dbl_col"].data| == 11 &&
      |r.value.columns["OLD_IDX"].data| == 11 &&
      |r.value.columns["str_col"].data| == 11 &&
      r.value.columns["dbl_col_2"].data[10] == Dbl(Num(112.0)) &&
      r.value.columns["dbl_col"].data[3] == Dbl(Num(2.0)) &&
      r.value.columns["str_col"].data[5] == Str("ff") &&
      r.value.index[0] == Int(1) && r.value.index[10] == Int(9)
  {
    var f := ReindexFrame();
    assert "int_col" in f.columns && "OLD_IDX" !in f.columns;
  }

  /** The frame of the retyping test. */
  function RetypeFrame(): Frame {
    Frame(ULongT,
          [ULong(1), ULong(2), ULong(3), ULong(10), ULong(5), ULong(7), ULong(8), ULong(12),
           ULong(9), ULong(12), ULong(10), ULong(13), ULong(10), ULong(15), ULong(14)],
          map["str_col" := Column(StrT, RETYPE_STR_COL),
              "int_col" := Column(IntT, RETYPE_INT_COL)])
  }

  const RETYPE_INT_COL: seq<Value> :=
    [Int(-1), Int(2), Int(3), Int(4), Int(5), Int(8), Int(-6), Int(7), Int(11), Int(14), Int(-9),
     Int(12), Int(13), Int(14), Int(15)]

  /** The int column read back as unsigned int. */
  const RETYPE_UINT_COL: seq<Value> :=
    [UInt(4294967295), UInt(2), UInt(3), UInt(4), UInt(5), UInt(8), UInt(4294967290), UInt(7),
     UInt(11), UInt(14), UInt(4294967287), UInt(12), UInt(13), UInt(14), UInt(15)]

  lemma IntColumnCastsToUInt()
    ensures forall j :: 0 <= j < 15 ==>
              Some(RETYPE_UINT_COL[j]) == Retype.Convert(RETYPE_INT_COL[j], UIntT, None)
  {
  }


  const RETYPE_STR_COL: seq<Value> :=
    [Str("11"), Str("22"), Str("33"), Str("44"), Str("55"), Str("66"), Str("-77"), Str("88"),
     Str("99"), Str("100"), Str("101"), Str("102"), Str("103"), Str("104"), Str("-105")]

  /** The string column as `std::stoi` reads it. */
  const PARSED_STR_COL: seq<Value> :=
    [Int(11), Int(22), Int(33), Int(44), Int(55), Int(66), Int(-77), Int(88),
     Int(99), Int(100), Int(101), Int(102), Int(103), Int(104), Int(-105)]

  /** The frame after the first retype of the test. */
  function RetypedOnce(): Frame {
    RetypeFrame().(columns := RetypeFrame().columns["int_col" := Column(UIntT, RETYPE_UINT_COL)])
  }

  /** Retyping int to unsigned int with no converter yields `RetypedOnce()`. */
  lemma RetypeIntToUInt()
    ensures Retype.Retyped(RetypeFrame(), "int_col", IntT, UIntT, None) == Success(RetypedOnce())
  {
    IntColumnCastsToUInt();
    Retype.RetypedTo(RetypeFrame(), "int_col", IntT, UIntT, None, RETYPE_UINT_COL);
  }

  /** The values the test reads back after the first retype. */
  lemma RetypedOnceValues()
    ensures var g := RetypedOnce();
      |g.index| == 15 &&
      g.columns["int_col"].ty == UIntT &&
      |g.columns["int_col"].data| == 15 &&
      g.columns["int_col"].data[0] == UInt(4294967295) &&
      g.columns["int_col"].data[1] == UInt(2) &&
      g.columns["int_col"].data[6] == UInt(4294967290) &&
      g.columns["int_col"].data[8] == UInt(11) &&
      g.columns["str_col"].data[0] == Str("11") &&
      g.columns["str_col"].data[6] == Str("-77")
  {
    assert RetypedOnce().columns["str_col"] == Column(StrT, RETYPE_STR_COL);
  }

  /** Retyping the string column to int with a parsing converter, after the
      int column became unsigned: the converter is given as any function that
      parses each of the column's strings as `std::stoi` does. */
  lemma RetypeStrToIntWithConverter(conv: Retype.Converter)
    requires forall j :: 0 <= j < 15 ==> conv(RETYPE_STR_COL[j]) == Some(PARSED_STR_COL[j])
    ensures Retype.Retyped(RetypedOnce(), "str_col", StrT, IntT, Some(conv)) == Success(RetypedTwice())
  {
    var g := RetypedOnce();
    assert g.columns["str_col"] == Column(StrT, RETYPE_STR_COL);
    StrColumnConverts(conv);
    Retype.RetypedTo(g, "str_col", StrT, IntT, Some(conv), PARSED_STR_COL);
  }

  /** The frame after both retypes of the test. */
  function RetypedTwice(): Frame {
    RetypedOnce().(columns := RetypedOnce().columns["str_col" := Column(IntT, PARSED_STR_COL)])
  }

  /** The values the test reads back after the second retype. */
  lemma RetypedTwiceValues()
    ensures var g := RetypedTwice();
      |g.index| == 15 &&
      |g.columns["int_col"].data| == 15 &&
      g.columns["str_col"].ty == IntT &&
      |g.columns["str_col"].data| == 15 &&
      g.columns["int_col"].data[6] == UInt(4294967290) &&
      g.columns["int_col"].data[8] == UInt(11) &&
      g.columns["str_col"].data[0] == Int(11) &&
      g.columns["str_col"].data[6] == Int(-77)
  {
    assert RetypedTwice().columns["int_col"] == Column(UIntT, RETYPE_UINT_COL);
  }

  lemma StrColumnConverts(conv: Retype.Converter)
    requires forall j :: 0 <= j < 15 ==> conv(RETYPE_STR_COL[j]) == Some(PARSED_STR_COL[j])
    ensures forall j :: 0 <= j < 15 ==>
              Some(PARSED_STR_COL[j]) == Retype.Convert(RETYPE_STR_COL[j], IntT, Some(conv))
  {
    forall j | 0 <= j < 15
      ensures Some(PARSED_STR_COL[j]) == Retype.Convert(RETYPE_STR_COL[j], IntT, Some(conv))
    {
      assert HasType(PARSED_STR_COL[j], IntT);
    }
  }

  /** The frame of the alignment test: 28 rows. */
  function AlignFrame(): Frame {
    Frame(ULongT,
          seq(28, i requires 0 <= i < 28 => ULong(i + 1)),
          map["int_col" := Column(IntT, RETYPE_INT_COL)])
  }

  const SUMMARY: seq<Value> := [Dbl(Num(100.0)), Dbl(Num(200.0)), Dbl(Num(300.0)), Dbl(Num(400.0)), Dbl(Num(500.0))]
  const SUMMARY_2: seq<Value> := [Dbl(Num(102.0)), Dbl(Num(202.0)), Dbl(Num(302.0)), Dbl(Num(402.0)), Dbl(Num(502.0))]

  /** Aligning five values at stride 5, anchored at the start of each period. */
  lemma AlignAnchoredAtStart()
    ensures var r := Align.AlignLoaded(AlignFrame(), "summary_col", DblT, SUMMARY, 5, true, Dbl(NaN));
      r.Success? &&
      |r.value.columns["summary_col"].data| == 28 &&
      r.value.columns["summary_col"].data[0] == Dbl(Num(100.0)) &&
      r.value.columns["summary_col"].data[5] == Dbl(Num(200.0)) &&
      r.value.columns["summary_col"].data[20] == Dbl(Num(500.0)) &&
      r.value.columns["summary_col"].data[6] == Dbl(NaN) &&
      r.value.columns["summary_col"].data[26] == Dbl(NaN) &&
      r.value.columns["summary_col"].data[27] == Dbl(NaN)
  {
    Align.AlignedPlacesCoarse(28, SUMMARY, 5, true, Dbl(NaN), 0);
    Align.AlignedPlacesCoarse(28, SUMMARY, 5, true, Dbl(NaN), 1);
    Align.AlignedPlacesCoarse(28, SUMMARY, 5, true, Dbl(NaN), 4);
    Align.AlignedFillsUncovered(28, SUMMARY, 5, true, Dbl(NaN), 6);
    Align.AlignedFillsUncovered(28, SUMMARY, 5, true, Dbl(NaN), 26);
    Align.AlignedFillsUncovered(28, SUMMARY, 5, true, Dbl(NaN), 27);
  }

  /** The same at one period later: every value moves forward by 5 rows, row 0
      is left as fill and the last value falls past the end. */
  lemma AlignShiftedByOnePeriod()
    ensures var r := Align.AlignLoaded(AlignFrame(), "summary_col_2", DblT, SUMMARY_2, 5, false, Dbl(NaN));
      r.Success? &&
      |r.value.columns["summary_col_2"].data| == 28 &&
      r.value.columns["summary_col_2"].data[0] == Dbl(NaN) &&
      r.value.columns["summary_col_2"].data[5] == Dbl(Num(102.0)) &&
      r.value.columns["summary_col_2"].data[25] == Dbl(Num(502.0)) &&
      r.value.columns["summary_col_2"].data[26] == Dbl(NaN) &&
      r.value.columns["summary_col_2"].data[27] == Dbl(NaN)
  {
    Align.AlignedFillsUncovered(28, SUMMARY_2, 5, false, Dbl(NaN), 0);
    Align.AlignedPlacesCoarse(28, SUMMARY_2, 5, false, Dbl(NaN), 0);
    Align.AlignedPlacesCoarse(28, SUMMARY_2, 5, false, Dbl(NaN), 4);
    Align.AlignedFillsUncovered(28, SUMMARY_2, 5, false, Dbl(NaN), 26);
    Align.AlignedFillsUncovered(28, SUMMARY_2, 5, false, Dbl(NaN), 27);
  }
}
