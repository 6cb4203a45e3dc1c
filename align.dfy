/** Alignment (`load_align_column(name, coarse, stride, anchorAtStart, fill)`):
    a column of one value per period of `stride` rows is spread back onto the
    frame's full row count. Coarse value k lands on the single row
    k*stride (anchored at the start of its period) or k*stride + stride (one
    period later); every other row holds the fill value, and a target past the
    last row is dropped. */
module Align {
  import opened Values
  import opened Table

  /** Offset of the row a coarse value lands on within the periods. */
  function Offset(stride: nat, anchorAtStart: bool): nat {
    if anchorAtStart then 0 else stride
  }

  /** The row coarse value `k` is written to. */
  function Target(k: nat, stride: nat, anchorAtStart: bool): nat {
    k * stride + Offset(stride, anchorAtStart)
  }

  /** Row `row` is the target of one of the first `count` coarse values. */
  predicate Covered(row: nat, count: nat, stride: nat, anchorAtStart: bool)
    requires stride > 0
  {
    var off := Offset(stride, anchorAtStart);
    row >= off && (row - off) % stride == 0 && (row - off) / stride < count
  }

  /** The index of the coarse value that lands on a covered row. */
  function Source(row: nat, stride: nat, anchorAtStart: bool): nat
    requires stride > 0 && row >= Offset(stride, anchorAtStart)
  {
    (row - Offset(stride, anchorAtStart)) / stride
  }

  /** The aligned column, row by row, for a frame of `n` rows. */
  function Aligned(n: nat, coarse: seq<Value>, stride: nat, anchorAtStart: bool, fill: Value): (r: seq<Value>)
    requires stride > 0
    ensures |r| == n
  {
    seq(n, row requires 0 <= row =>
      if Covered(row, |coarse|, stride, anchorAtStart)
      then coarse[Source(row, stride, anchorAtStart)]
      else fill)
  }

  lemma MulAtLeast(a: int, b: int)
    requires a >= 1 && b > 0
    ensures a * b >= b
  {
  }

  lemma Distributes(a: int, b: int, c: int)
    ensures (a - b) * c == a * c - b * c
  {
  }

  /** Exact division: the period of a target row is recovered. */
  lemma TargetDivides(k: nat, stride: nat)
    requires stride > 0
    ensures (k * stride) % stride == 0
    ensures (k * stride) / stride == k
  {
    var q, r := (k * stride) / stride, (k * stride) % stride;
    assert k * stride == q * stride + r && 0 <= r < stride;
    Distributes(k, q, stride);
    if k > q {
      MulAtLeast(k - q, stride);
    } else if k < q {
      MulAtLeast(q - k, stride);
      Distributes(q, k, stride);
    }
  }

  /** A covered row is the target of exactly the coarse value it holds. */
  lemma CoveredByItsSource(row: nat, count: nat, stride: nat, anchorAtStart: bool)
    requires stride > 0 && Covered(row, count, stride, anchorAtStart)
    ensures Source(row, stride, anchorAtStart) < count
    ensures Target(Source(row, stride, anchorAtStart), stride, anchorAtStart) == row
  {
  }

  /** Letting one more coarse value through covers exactly its target row in
      addition: this is the step of the scatter loop that fills the column. */
  lemma CoveredStep(row: nat, k: nat, stride: nat, anchorAtStart: bool)
    requires stride > 0
    ensures Covered(row, k + 1, stride, anchorAtStart) <==>
              Covered(row, k, stride, anchorAtStart) || row == Target(k, stride, anchorAtStart)
  {
    if row == Target(k, stride, anchorAtStart) {
      TargetDivides(k, stride);
    }
    if Covered(row, k + 1, stride, anchorAtStart) {
      CoveredByItsSource(row, k + 1, stride, anchorAtStart);
    }
  }

  /** Row k*stride (+ stride when not anchored) holds coarse value k whenever
      that row exists. */
  lemma AlignedPlacesCoarse(n: nat, coarse: seq<Value>, stride: nat, anchorAtStart: bool, fill: Value, k: nat)
    requires stride > 0 && k < |coarse| && Target(k, stride, anchorAtStart) < n
    ensures Aligned(n, coarse, stride, anchorAtStart, fill)[Target(k, stride, anchorAtStart)] == coarse[k]
  {
    TargetDivides(k, stride);
  }

  /** Every row that no coarse value targets holds the fill value. */
  lemma AlignedFillsUncovered(n: nat, coarse: seq<Value>, stride: nat, anchorAtStart: bool, fill: Value, row: nat)
    requires stride > 0 && row < n
    requires forall k :: 0 <= k < |coarse| ==> Target(k, stride, anchorAtStart) != row
    ensures Aligned(n, coarse, stride, anchorAtStart, fill)[row] == fill
  {
    if Covered(row, |coarse|, stride, anchorAtStart) {
      CoveredByItsSource(row, |coarse|, stride, anchorAtStart);
      assert false;
    }
  }

  /** `load_align_column` on the frame `f`: the column `name` (replacing any
      column of that name) becomes the aligned column of type `ty`. */
  function AlignLoaded(f: Frame, name: string, ty: ElemType, coarse: seq<Value>, stride: nat,
                       anchorAtStart: bool, fill: Value): (r: Result<Frame>)
    ensures stride == 0 <==> r == Failure(InvalidArgument)
    ensures r.Success? <==> stride > 0
    ensures r.Success? ==> r.value.indexType == f.indexType && r.value.index == f.index
    ensures r.Success? ==> r.value.columns.Keys == f.columns.Keys + {name}
    ensures r.Success? ==> forall n :: n in f.columns && n != name ==> r.value.columns[n] == f.columns[n]
    ensures r.Success? ==> r.value.columns[name].ty == ty && |r.value.columns[name].data| == |f.index|
    ensures r.Success? ==> r.value.columns[name].data == Aligned(|f.index|, coarse, stride, anchorAtStart, fill)
  {
    if stride == 0 then Failure(InvalidArgument)
    else Success(f.(columns := f.columns[name := Column(ty, Aligned(|f.index|, coarse, stride, anchorAtStart, fill))]))
  }

  /** Aligning typed values keeps the frame well typed. */
  lemma AlignPreservesWellTyped(f: Frame, name: string, ty: ElemType, coarse: seq<Value>, stride: nat,
                                anchorAtStart: bool, fill: Value)
    requires WellTyped(f) && stride > 0
    requires AllOfType(coarse, ty) && HasType(fill, ty)
    ensures WellTyped(AlignLoaded(f, name, ty, coarse, stride, anchorAtStart, fill).value)
  {
    var g := AlignLoaded(f, name, ty, coarse, stride, anchorAtStart, fill).value;
    var a := g.columns[name].data;
    forall row | 0 <= row < |a|
      ensures HasType(a[row], ty)
    {
      if Covered(row, |coarse|, stride, anchorAtStart) {
        CoveredByItsSource(row, |coarse|, stride, anchorAtStart);
      }
    }
    forall n | n in g.columns
      ensures AllOfType(g.columns[n].data, g.columns[n].ty)
    {
      if n != name {
        assert g.columns[n] == f.columns[n];
      }
    }
  }
}
