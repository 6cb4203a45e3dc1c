/** Reindexing: an existing column is promoted to be the row index, the old
    index is kept as an ordinary column, and every other column is cut to the
    new row count. This module is the copying variant (`get_reindexed`), which
    builds a fresh frame and leaves its source alone; the aliasing variant is
    `DataFrames.DataFrame.GetReindexedView`, specified by this function. */
module Reindex {
  import opened Values
  import opened Table

  /** `get_reindexed<T, Ts...>(column, oldName)`: the frame indexed by `column`
      (read as type `ty`), with the old index stored under `oldName`. The case
      of a column longer than the old index is not covered by the source, so it
      is excluded. */
  function Reindexed(f: Frame, column: string, oldName: string, ty: ElemType): (r: Result<Frame>)
    requires column in f.columns ==> |f.columns[column].data| <= |f.index|
    ensures column !in f.columns ==> r == Failure(ColumnNotFound)
    ensures column in f.columns && f.columns[column].ty != ty ==> r == Failure(TypeMismatch)
    ensures column in f.columns && f.columns[column].ty == ty && oldName in f.columns ==>
              r == Failure(InvalidArgument)
    ensures r.Success? <==> column in f.columns && f.columns[column].ty == ty && oldName !in f.columns
    // the new index is the chosen column, verbatim and in order
    ensures r.Success? ==> r.value.indexType == ty && r.value.index == f.columns[column].data
    // the chosen column leaves the columns, the old index joins them
    ensures r.Success? ==> r.value.columns.Keys == f.columns.Keys - {column} + {oldName}
    ensures r.Success? ==>
              var newLen := |f.columns[column].data|;
              var old_idx := r.value.columns[oldName];
              old_idx.ty == f.indexType && |old_idx.data| == Min(|f.index|, newLen) &&
              forall i :: 0 <= i < |old_idx.data| ==> old_idx.data[i] == f.index[i]
    // every other column keeps its type and its front, cut to the new length, never padded
    ensures r.Success? ==>
              forall n :: n in f.columns && n != column ==>
                var c := r.value.columns[n];
                c.ty == f.columns[n].ty &&
                |c.data| == Min(|f.columns[n].data|, |f.columns[column].data|) &&
                forall i :: 0 <= i < |c.data| ==> c.data[i] == f.columns[n].data[i]
  {
    if column !in f.columns then Failure(ColumnNotFound)
    else if f.columns[column].ty != ty then Failure(TypeMismatch)
    else if oldName in f.columns then Failure(InvalidArgument)
    else
      var newIndex := f.columns[column].data;
      var newLen := |newIndex|;
      var kept := map n | n in f.columns && n != column ::
                    Column(f.columns[n].ty, Truncate(f.columns[n].data, newLen));
      Success(Frame(ty, newIndex, kept[oldName := Column(f.indexType, Truncate(f.index, newLen))]))
  }

  /** Reindexing keeps the frame well typed: the new index has the type the
      caller read the column with, and every moved or cut column keeps its
      elements and declared type. */
  lemma ReindexPreservesWellTyped(f: Frame, column: string, oldName: string, ty: ElemType)
    requires WellTyped(f)
    requires column in f.columns ==> |f.columns[column].data| <= |f.index|
    requires Reindexed(f, column, oldName, ty).Success?
    ensures WellTyped(Reindexed(f, column, oldName, ty).value)
  {
    var g := Reindexed(f, column, oldName, ty).value;
    forall n | n in g.columns
      ensures AllOfType(g.columns[n].data, g.columns[n].ty)
    {
      if n != oldName {
        assert AllOfType(f.columns[n].data, f.columns[n].ty);
      }
    }
  }
}
