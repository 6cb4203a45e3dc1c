/** The frame as mutable storage: an owning `DataFrame` whose index and
    columns live in arrays, the operations that change it in place (loading a
    column, retyping, aligning), and the reindexed view, a second frame that
    owns nothing and aliases the arrays of the first. Each operation is proved
    against the value-level function that specifies it. */
module DataFrames {
  import opened Values
  import opened Table
  import Reindex
  import Retype
  import Align

  /** A column's owned storage: its declared element type and its buffer. */
  datatype Stored = Stored(ty: ElemType, buf: array<Value>)

  /** A non-owning view of the first `size` elements of a buffer: a begin and
      a length over storage that someone else owns. */
  datatype VectorView = VectorView(buf: array<Value>, size: nat) {
    predicate Valid() {
      size <= buf.Length
    }

    function Contents(): (s: seq<Value>)
      reads buf
      requires Valid()
      ensures |s| == size
    {
      buf[..size]
    }
  }

  /** A column of a view frame: its declared element type and its view. */
  datatype ViewColumn = ViewColumn(ty: ElemType, view: VectorView)

  /** The owning frame: the row index and every column own their arrays. */
  class DataFrame {
    var indexType: ElemType
    var index: array<Value>
    var columns: map<string, Stored>

    ghost function Buffers(): set<array<Value>>
      reads this
    {
      {index} + set n | n in columns :: columns[n].buf
    }

    /** The frame this storage holds. */
    function Abs(): Frame
      reads this, Buffers()
    {
      Frame(indexType, index[..], map n | n in columns :: Column(columns[n].ty, columns[n].buf[..]))
    }

    /** Every buffer is owned by exactly one part of the frame: the index and
        the columns never share an array. */
    ghost predicate Disjoint()
      reads this
    {
      (forall n :: n in columns ==> columns[n].buf != index) &&
      (forall n, m :: n in columns && m in columns && n != m ==> columns[n].buf != columns[m].buf)
    }

    ghost predicate Valid()
      reads this, Buffers()
    {
      Disjoint() && WellTyped(Abs())
    }

    /** Puts `buf` in place as the storage of column `name`, replacing any
        column of that name; the buffers already held are not touched. */
    method Install(name: string, ty: ElemType, buf: array<Value>)
      requires Disjoint() && buf !in Buffers()
      modifies this
      ensures Disjoint()
      ensures indexType == old(indexType) && index == old(index)
      ensures columns == old(columns)[name := Stored(ty, buf)]
      ensures Abs() == old(Abs()).(columns := old(Abs()).columns[name := Column(ty, buf[..])])
    {
      columns := columns[name := Stored(ty, buf)];
      assert Abs().columns == old(Abs()).columns[name := Column(ty, buf[..])];
    }

    /** `load_data(index)`: a frame with the given index and no columns. */
    constructor (indexType: ElemType, idx: seq<Value>)
      requires AllOfType(idx, indexType)
      ensures Valid() && Abs() == Frame(indexType, idx, map[])
      ensures fresh(index)
    {
      this.indexType := indexType;
      index := new Value[|idx|](i requires 0 <= i < |idx| => idx[i]);
      columns := map[];
      new;
      assert index[..] == idx;
    }

    /** `load_column(name, data, nan_policy::dont_pad_with_nans)`: attaches a
        column at its own length, replacing any column of that name. */
    method LoadColumn(name: string, ty: ElemType, data: seq<Value>)
      requires Valid() && AllOfType(data, ty)
      modifies this
      ensures Valid()
      ensures Abs() == old(Abs()).(columns := old(Abs()).columns[name := Column(ty, data)])
      ensures indexType == old(indexType) && index == old(index)
      ensures name in columns && fresh(columns[name].buf)
      ensures forall n :: n in old(columns) && n != name ==> n in columns && columns[n] == old(columns[n])
    {
      var buf := new Value[|data|](i requires 0 <= i < |data| => data[i]);
      assert buf[..] == data;
      Install(name, ty, buf);
    }

    /** `retype_column<From, To>(name, conv)`: converts the column into a new
        buffer, element by element in position order, and installs it only
        once every element has converted. */
    method RetypeColumn(name: string, from: ElemType, to: ElemType, conv: Option<Retype.Converter>)
      returns (res: Outcome)
      requires Valid()
      modifies this
      ensures Valid()
      ensures indexType == old(indexType) && index == old(index)
      ensures forall n :: n in old(columns) && n != name ==> n in columns && columns[n] == old(columns[n])
      ensures match Retype.Retyped(old(Abs()), name, from, to, conv)
              case Success(g) => res == Pass && Abs() == g
              case Failure(e) => res == Fail(e) && Abs() == old(Abs())
    {
      if name !in columns {
        return Fail(ColumnNotFound);
      }
      if columns[name].ty != from {
        return Fail(TypeMismatch);
      }
      ghost var before := Abs();
      var ok, buf := ConvertedBuffer(columns[name].buf, to, conv);
      assert Abs() == before;
      if !ok {
        return Fail(ConversionFailure);
      }
      InstallRetyped(name, from, to, conv, buf);
      res := Pass;
    }

    /** The success step of retyping: `buf` holds every element of column
        `name` converted in place, and replaces that column's storage. */
    method InstallRetyped(name: string, from: ElemType, to: ElemType, conv: Option<Retype.Converter>,
                          buf: array<Value>)
      requires Valid() && name in columns && columns[name].ty == from && buf !in Buffers()
      requires buf.Length == columns[name].buf.Length
      requires forall j :: 0 <= j < buf.Length ==> Some(buf[j]) == Retype.Convert(columns[name].buf[j], to, conv)
      modifies this
      ensures Valid()
      ensures indexType == old(indexType) && index == old(index)
      ensures columns == old(columns)[name := Stored(to, buf)]
      ensures Retype.Retyped(old(Abs()), name, from, to, conv) == Success(Abs())
    {
      ghost var before := Abs();
      Retype.RetypedTo(before, name, from, to, conv, buf[..]);
      Install(name, to, buf);
      Retype.RetypePreservesWellTyped(before, name, from, to, conv);
    }

    /** `load_align_column(name, coarse, stride, anchorAtStart, fill)`: a new
        buffer of the index length starts as all fill, then a scatter loop
        writes coarse value k to its target row when that row exists. */
    method LoadAlignColumn(name: string, ty: ElemType, coarse: seq<Value>, stride: nat,
                           anchorAtStart: bool, fill: Value)
      returns (res: Outcome)
      requires Valid() && AllOfType(coarse, ty) && HasType(fill, ty)
      modifies this
      ensures Valid()
      ensures indexType == old(indexType) && index == old(index)
      ensures forall n :: n in old(columns) && n != name ==> n in columns && columns[n] == old(columns[n])
      ensures match Align.AlignLoaded(old(Abs()), name, ty, coarse, stride, anchorAtStart, fill)
              case Success(g) => res == Pass && Abs() == g
              case Failure(e) => res == Fail(e) && Abs() == old(Abs())
    {
      if stride == 0 {
        return Fail(InvalidArgument);
      }
      ghost var before := Abs();
      var buf := AlignedBuffer(index.Length, coarse, stride, anchorAtStart, fill);
      assert Abs() == before;
      Install(name, ty, buf);
      Align.AlignPreservesWellTyped(before, name, ty, coarse, stride, anchorAtStart, fill);
      res := Pass;
    }

    /** `get_reindexed_view<T, Ts...>(column, oldName)`, on a mutable frame
        (`readOnly` false) or through a const reference (`readOnly` true): the
        same frame as the copying reindex, but every column of the result is a
        view of this frame's own storage; nothing is copied. */
    method GetReindexedView(column: string, oldName: string, ty: ElemType, readOnly: bool)
      returns (r: Result<FrameView>)
      requires Valid()
      requires column in columns ==> columns[column].buf.Length <= index.Length
      ensures Reindex.Reindexed(Abs(), column, oldName, ty).Failure? ==>
                r == Failure(Reindex.Reindexed(Abs(), column, oldName, ty).error)
      ensures Reindex.Reindexed(Abs(), column, oldName, ty).Success? ==>
                r.Success? && r.value.Valid() && r.value.readOnly == readOnly &&
                r.value.Abs() == Reindex.Reindexed(Abs(), column, oldName, ty).value
      // the new index aliases the chosen column, the old-index column aliases
      // the old index, and every other column aliases its own buffer
      ensures r.Success? ==>
                column in columns && oldName in r.value.columns &&
                r.value.index.buf == columns[column].buf &&
                r.value.columns[oldName].view.buf == index &&
                forall n :: n in columns && n != column ==>
                  n in r.value.columns && r.value.columns[n].view.buf == columns[n].buf
    {
      if column !in columns {
        return Failure(ColumnNotFound);
      }
      if columns[column].ty != ty {
        return Failure(TypeMismatch);
      }
      if oldName in columns {
        return Failure(InvalidArgument);
      }
      var newLen := columns[column].buf.Length;
      var idx := VectorView(columns[column].buf, newLen);
      var cols := KeptViews(columns, column, newLen)[oldName := ViewColumn(indexType, VectorView(index, Min(index.Length, newLen)))];
      var v := new FrameView(ty, idx, cols, readOnly);
      ViewShowsReindexed(this, v, column, oldName, ty);
      r := Success(v);
    }
  }

  /** The views of every column except `column`, each cut to `newLen` rows. */
  function KeptViews(columns: map<string, Stored>, column: string, newLen: nat): (m: map<string, ViewColumn>)
    ensures m.Keys == columns.Keys - {column}
    ensures forall n :: n in m ==> m[n].view.buf == columns[n].buf && m[n].view.Valid()
  {
    map n | n in columns && n != column ::
      ViewColumn(columns[n].ty, VectorView(columns[n].buf, Min(columns[n].buf.Length, newLen)))
  }

  /** A view frame laid over `df` as the reindexed view lays it shows exactly
      the frame the copying reindex builds. */
  lemma ViewShowsReindexed(df: DataFrame, v: FrameView, column: string, oldName: string, ty: ElemType)
    requires column in df.columns && df.columns[column].ty == ty && oldName !in df.columns
    requires df.columns[column].buf.Length <= df.index.Length
    requires v.indexType == ty && v.index == VectorView(df.columns[column].buf, df.columns[column].buf.Length)
    requires v.columns == KeptViews(df.columns, column, df.columns[column].buf.Length)[oldName :=
               ViewColumn(df.indexType, VectorView(df.index, Min(df.index.Length, df.columns[column].buf.Length)))]
    ensures v.Valid()
    ensures Reindex.Reindexed(df.Abs(), column, oldName, ty).Success?
    ensures v.Abs() == Reindex.Reindexed(df.Abs(), column, oldName, ty).value
  {
    var f := df.Abs();
    var newLen := df.columns[column].buf.Length;
    var g := Reindex.Reindexed(f, column, oldName, ty).value;
    var a := v.Abs();
    assert a.index == g.index;
    forall n | n in g.columns
      ensures n in a.columns && a.columns[n] == g.columns[n]
    {
      if n != oldName {
        assert f.columns[n] == Column(df.columns[n].ty, df.columns[n].buf[..]);
        assert a.columns[n].data == Truncate(f.columns[n].data, newLen);
      } else {
        assert a.columns[n].data == Truncate(f.index, newLen);
      }
    }
    assert a.columns == g.columns;
  }

  /** Converts `src` into a fresh buffer in position order, stopping at the
      first element that does not convert; `src` itself is only read. */
  method ConvertedBuffer(src: array<Value>, to: ElemType, conv: Option<Retype.Converter>)
    returns (ok: bool, buf: array<Value>)
    ensures fresh(buf)
    ensures ok <==> forall j :: 0 <= j < src.Length ==> Retype.Convert(src[j], to, conv).Some?
    ensures ok ==> buf.Length == src.Length &&
                   forall j :: 0 <= j < src.Length ==> Some(buf[j]) == Retype.Convert(src[j], to, conv)
  {
    buf := new Value[src.Length];
    for i := 0 to src.Length
      invariant forall j :: 0 <= j < i ==> Some(buf[j]) == Retype.Convert(src[j], to, conv)
    {
      var c := Retype.Convert(src[i], to, conv);
      if c.None? {
        return false, buf;
      }
      buf[i] := c.value;
    }
    ok := true;
  }

  /** A fresh buffer of `n` rows holding the aligned column. */
  method AlignedBuffer(n: nat, coarse: seq<Value>, stride: nat, anchorAtStart: bool, fill: Value)
    returns (buf: array<Value>)
    requires stride > 0
    ensures fresh(buf) && buf[..] == Align.Aligned(n, coarse, stride, anchorAtStart, fill)
  {
    buf := new Value[n](_ => fill);
    Scatter(buf, coarse, stride, anchorAtStart, fill);
  }

  /** The scatter loop of alignment: with `buf` all fill, writes coarse value
      k to row k*stride (+ stride when not anchored) when that row exists. */
  method Scatter(buf: array<Value>, coarse: seq<Value>, stride: nat, anchorAtStart: bool, fill: Value)
    requires stride > 0
    requires forall row :: 0 <= row < buf.Length ==> buf[row] == fill
    modifies buf
    ensures buf[..] == Align.Aligned(buf.Length, coarse, stride, anchorAtStart, fill)
  {
    var n := buf.Length;
    var offset := if anchorAtStart then 0 else stride;
    var k := 0;
    while k < |coarse|
      invariant 0 <= k <= |coarse|
      invariant forall row :: 0 <= row < n ==>
                  buf[row] == if Align.Covered(row, k, stride, anchorAtStart)
                              then coarse[Align.Source(row, stride, anchorAtStart)]
                              else fill
    {
      var target := k * stride + offset;
      if target < n {
        buf[target] := coarse[k];
        Align.TargetDivides(k, stride);
      }
      forall row | 0 <= row < n
        ensures Align.Covered(row, k + 1, stride, anchorAtStart) <==>
                  Align.Covered(row, k, stride, anchorAtStart) || row == target
      {
        Align.CoveredStep(row, k, stride, anchorAtStart);
      }
      k := k + 1;
    }
  }

  /** A frame whose index and columns are views of storage owned elsewhere.
      Writes through a mutable view land in the owner's buffers. */
  class FrameView {
    const indexType: ElemType
    const index: VectorView
    const columns: map<string, ViewColumn>
    /** Obtained through a const frame: no write is allowed through it. */
    const readOnly: bool

    ghost function Buffers(): set<array<Value>> {
      {index.buf} + set n | n in columns :: columns[n].view.buf
    }

    predicate Valid() {
      index.Valid() && forall n :: n in columns ==> columns[n].view.Valid()
    }

    /** The frame this view shows. */
    function Abs(): Frame
      reads Buffers()
      requires Valid()
    {
      Frame(indexType, index.Contents(), map n | n in columns :: Column(columns[n].ty, columns[n].view.Contents()))
    }

    constructor (indexType: ElemType, index: VectorView, columns: map<string, ViewColumn>, readOnly: bool)
      ensures this.indexType == indexType && this.index == index
      ensures this.columns == columns && this.readOnly == readOnly
    {
      this.indexType := indexType;
      this.index := index;
      this.columns := columns;
      this.readOnly := readOnly;
    }

    /** `get_column<T>(name)[i] = x` through a mutable view: the element of
        the aliased buffer changes, and with it this view's column. */
    method Set(name: string, i: nat, x: Value)
      requires Valid() && !readOnly
      requires name in columns && i < columns[name].view.size && HasType(x, columns[name].ty)
      modifies columns[name].view.buf
      ensures columns[name].view.buf[..] == old(columns[name].view.buf[..])[i := x]
      ensures Abs().columns[name].data == old(Abs().columns[name].data)[i := x]
    {
      columns[name].view.buf[i] := x;
    }
  }

  /** A write through a reindexed view is read back through the frame it was
      taken from: both name the same buffer. Since the frame's buffers are
      disjoint, only that column of the frame changes, at that one row, and
      the frame stays well typed. */
  method WriteThroughView(df: DataFrame, v: FrameView, name: string, i: nat, x: Value)
    requires df.Valid() && v.Valid() && !v.readOnly
    requires name in v.columns && name in df.columns && v.columns[name].view.buf == df.columns[name].buf
    requires v.columns[name].ty == df.columns[name].ty
    requires i < v.columns[name].view.size && HasType(x, v.columns[name].ty)
    modifies df.columns[name].buf
    ensures v.Abs().columns[name].data[i] == x
    ensures df.Valid()
    ensures df.Abs() == old(df.Abs()).(columns := old(df.Abs()).columns[name :=
              Column(old(df.columns[name].ty), old(df.Abs().columns[name].data)[i := x])])
  {
    ghost var before := df.Abs();
    v.Set(name, i, x);
    ghost var after := df.Abs();
    ghost var expected := before.(columns := before.columns[name := Column(df.columns[name].ty, before.columns[name].data[i := x])]);
    forall n | n in df.columns
      ensures after.columns[n] == expected.columns[n]
    {
      if n != name {
        assert df.columns[n].buf != df.columns[name].buf;
      }
    }
    assert after.index == before.index;
    assert after.columns == expected.columns;
    assert WellTyped(after) by {
      forall n | n in after.columns
        ensures AllOfType(after.columns[n].data, after.columns[n].ty)
      {
        assert AllOfType(before.columns[n].data, before.columns[n].ty);
      }
    }
  }

  /** Takes the mutable reindexed view of `df` by `column`, writes `x` at row
      `i` of the kept column `name` through it, and reads that row back
      through the view and through `df`: both see `x`, and `df` changes at
      that one row of that one column only. */
  method WriteThroughReindexedView(df: DataFrame, column: string, oldName: string, ty: ElemType,
                                   name: string, i: nat, x: Value)
    returns (viaView: Value, viaFrame: Value)
    requires df.Valid()
    requires column in df.columns ==> df.columns[column].buf.Length <= df.index.Length
    requires Reindex.Reindexed(df.Abs(), column, oldName, ty).Success?
    requires name in df.columns && name != column
    requires i < |Reindex.Reindexed(df.Abs(), column, oldName, ty).value.columns[name].data|
    requires HasType(x, df.columns[name].ty)
    modifies df.columns[name].buf
    ensures viaView == x && viaFrame == x
    ensures df.Valid()
    ensures df.Abs() == old(df.Abs()).(columns := old(df.Abs()).columns[name :=
              Column(old(df.columns[name].ty), old(df.Abs().columns[name].data)[i := x])])
  {
    var v := ReindexedView(df, column, oldName, ty, false);
    assert v.columns[name].ty == v.Abs().columns[name].ty;
    WriteThroughView(df, v, name, i, x);
    viaView := v.columns[name].view.buf[i];
    viaFrame := df.columns[name].buf[i];
  }

  /** The frame a `DataFrame` holds depends only on its fields and the
      contents of its own buffers. */
  twostate lemma AbsUnchanged(df: DataFrame)
    requires unchanged(df) && unchanged(df.index)
    requires forall n :: n in df.columns ==> unchanged(df.columns[n].buf)
    ensures df.Abs() == old(df.Abs())
  {
    assert df.index[..] == old(df.index[..]);
    forall n | n in df.columns
      ensures df.columns[n].buf[..] == old(df.columns[n].buf[..])
    {
    }
    assert df.Abs().columns == old(df.Abs().columns);
  }

  /** One reindexed view of `df` that is known to succeed; taking it leaves
      the frame as it was. */
  method ReindexedView(df: DataFrame, column: string, oldName: string, ty: ElemType, readOnly: bool)
    returns (v: FrameView)
    requires df.Valid()
    requires column in df.columns ==> df.columns[column].buf.Length <= df.index.Length
    requires Reindex.Reindexed(df.Abs(), column, oldName, ty).Success?
    ensures v.readOnly == readOnly && v.Valid()
    ensures v.Abs() == Reindex.Reindexed(df.Abs(), column, oldName, ty).value
    ensures df.Valid() && df.Abs() == old(df.Abs())
    ensures column in df.columns && oldName in v.columns &&
            v.index.buf == df.columns[column].buf && v.columns[oldName].view.buf == df.index &&
            forall n :: n in df.columns && n != column ==>
              n in v.columns && v.columns[n].view.buf == df.columns[n].buf
  {
    label taken:
    var r := df.GetReindexedView(column, oldName, ty, readOnly);
    AbsUnchanged@taken(df);
    v := r.value;
  }

  /** `df.get_reindexed_view(...)` and `const_df.get_reindexed_view(...)` on
      the same frame: a mutable and a read-only view that show the same frame,
      the copying reindex's. */
  method MutableAndConstViews(df: DataFrame, column: string, oldName: string, ty: ElemType)
    returns (mv: FrameView, cv: FrameView)
    requires df.Valid()
    requires column in df.columns ==> df.columns[column].buf.Length <= df.index.Length
    requires Reindex.Reindexed(df.Abs(), column, oldName, ty).Success?
    ensures !mv.readOnly && cv.readOnly && mv.Valid() && cv.Valid()
    ensures mv.Abs() == cv.Abs() == Reindex.Reindexed(df.Abs(), column, oldName, ty).value
    ensures df.Abs() == old(df.Abs())
  {
    mv := ReindexedView(df, column, oldName, ty, false);
    cv := ReindexedView(df, column, oldName, ty, true);
  }
}
