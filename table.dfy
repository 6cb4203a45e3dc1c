/** The columnar table as a value: a row index and a map from column names to
    typed columns. Column lengths are independent of each other and of the
    index length (a column loaded without padding may be shorter). */
module Table {
  import opened Values

  /** The failures the table operations report to their caller. */
  datatype Error = ColumnNotFound | TypeMismatch | InvalidArgument | ConversionFailure

  datatype Result<+T> = Success(value: T) | Failure(error: Error)

  /** What an operation that changes a frame in place reports. */
  datatype Outcome = Pass | Fail(error: Error)

  datatype Column = Column(ty: ElemType, data: seq<Value>)

  datatype Frame = Frame(indexType: ElemType, index: seq<Value>, columns: map<string, Column>)

  /** Every element of `s` is a legal `t`. */
  predicate AllOfType(s: seq<Value>, t: ElemType) {
    forall i :: 0 <= i < |s| ==> HasType(s[i], t)
  }

  /** The frame's invariant: the index and every column hold elements of their
      declared type only. */
  predicate WellTyped(f: Frame) {
    AllOfType(f.index, f.indexType) &&
    forall n :: n in f.columns ==> AllOfType(f.columns[n].data, f.columns[n].ty)
  }

  function Min(a: nat, b: nat): nat {
    if a <= b then a else b
  }

  /** `s` cut to at most `n` elements, keeping the front; never padded. */
  function Truncate<T>(s: seq<T>, n: nat): (r: seq<T>)
    ensures |r| == Min(|s|, n)
    ensures |r| <= n && |r| <= |s|
    ensures forall i :: 0 <= i < |r| ==> r[i] == s[i]
  {
    s[..Min(|s|, n)]
  }
}
