/** Retyping (`retype_column<From, To>(name, converter)`): one column's element
    type changes in place, element by element, with its name, length and row
    positions kept. Without a converter the default cast `Values.Cast` is used;
    with one, the converter is applied to each element in position order. The
    whole converted column is built before it replaces the old one, so a
    failing element leaves the frame as it was. */
module Retype {
  import opened Values
  import opened Table

  /** A caller-supplied converter; `None` from it means it failed on that
      element. */
  type Converter = Value -> Option<Value>

  /** The conversion applied to one element: the converter when one is given,
      else the default cast. It fails unless it yields a legal `to` element
      (the C++ converter's return type guarantees that statically). */
  function Convert(v: Value, to: ElemType, conv: Option<Converter>): (r: Option<Value>)
    ensures r.Some? <==> if conv.Some? then conv.value(v).Some? && HasType(conv.value(v).value, to)
                         else IsIntegral(TypeOf(v)) && IsIntegral(to)
    ensures r.Some? ==> HasType(r.value, to)
    ensures conv.None? && IsIntegral(TypeOf(v)) && IsIntegral(to) ==> r == Cast(v, to)
    ensures conv.Some? && conv.value(v).Some? && HasType(conv.value(v).value, to) ==> r == conv.value(v)
  {
    var c := if conv.Some? then conv.value(v) else Cast(v, to);
    if c.Some? && HasType(c.value, to) then c else None
  }

  /** Converts the elements of `s` from the front, stopping at the first one
      that fails. */
  function ConvertAll(s: seq<Value>, to: ElemType, conv: Option<Converter>): (r: Option<seq<Value>>)
    ensures r.Some? <==> forall i :: 0 <= i < |s| ==> Convert(s[i], to, conv).Some?
    ensures r.Some? ==> |r.value| == |s|
    ensures r.Some? ==> forall i :: 0 <= i < |s| ==> r.value[i] == Convert(s[i], to, conv).value
    decreases |s|
  {
    if s == [] then Some([])
    else
      match Convert(s[0], to, conv)
      case None => None
      case Some(x) =>
        match ConvertAll(s[1..], to, conv)
        case None => None
        case Some(rest) => Some([x] + rest)
  }

  /** `retype_column<From, To>(name, conv)` on the frame `f`. */
  function Retyped(f: Frame, name: string, from: ElemType, to: ElemType, conv: Option<Converter>): (r: Result<Frame>)
    ensures name !in f.columns ==> r == Failure(ColumnNotFound)
    ensures name in f.columns && f.columns[name].ty != from ==> r == Failure(TypeMismatch)
    ensures r.Success? <==>
              name in f.columns && f.columns[name].ty == from &&
              forall i :: 0 <= i < |f.columns[name].data| ==> Convert(f.columns[name].data[i], to, conv).Some?
    ensures r.Failure? && name in f.columns && f.columns[name].ty == from ==> r.error == ConversionFailure
    // the index and every other column are untouched
    ensures r.Success? ==> r.value.indexType == f.indexType && r.value.index == f.index
    ensures r.Success? ==> r.value.columns.Keys == f.columns.Keys
    ensures r.Success? ==> forall n :: n in f.columns && n != name ==> r.value.columns[n] == f.columns[n]
    // the column has the new type, the same length, and each element converted in place
    ensures r.Success? ==>
              var c := r.value.columns[name];
              c.ty == to && |c.data| == |f.columns[name].data| &&
              forall i :: 0 <= i < |c.data| ==> Some(c.data[i]) == Convert(f.columns[name].data[i], to, conv)
  {
    if name !in f.columns then Failure(ColumnNotFound)
    else if f.columns[name].ty != from then Failure(TypeMismatch)
    else
      match ConvertAll(f.columns[name].data, to, conv)
      case None => Failure(ConversionFailure)
      case Some(s) => Success(f.(columns := f.columns[name := Column(to, s)]))
  }

  /** Retyping succeeds with exactly the converted column `s` when every
      element converts to the element of `s` at its position. */
  lemma RetypedTo(f: Frame, name: string, from: ElemType, to: ElemType, conv: Option<Converter>, s: seq<Value>)
    requires name in f.columns && f.columns[name].ty == from
    requires |s| == |f.columns[name].data|
    requires forall j :: 0 <= j < |s| ==> Some(s[j]) == Convert(f.columns[name].data[j], to, conv)
    ensures Retyped(f, name, from, to, conv) == Success(f.(columns := f.columns[name := Column(to, s)]))
  {
    var t := ConvertAll(f.columns[name].data, to, conv);
    assert t.Some?;
    assert t.value == s;
  }

  /** A successful retype keeps the frame well typed. */
  lemma RetypePreservesWellTyped(f: Frame, name: string, from: ElemType, to: ElemType, conv: Option<Converter>)
    requires WellTyped(f)
    requires Retyped(f, name, from, to, conv).Success?
    ensures WellTyped(Retyped(f, name, from, to, conv).value)
  {
    var g := Retyped(f, name, from, to, conv).value;
    forall n | n in g.columns
      ensures AllOfType(g.columns[n].data, g.columns[n].ty)
    {
      if n == name {
        forall i | 0 <= i < |g.columns[n].data|
          ensures HasType(g.columns[n].data[i], to)
        {
          assert Some(g.columns[n].data[i]) == Convert(f.columns[name].data[i], to, conv);
        }
      } else {
        assert g.columns[n] == f.columns[n];
      }
    }
  }

  /** Retyping an int column to unsigned int with no converter always succeeds
      and maps every element v to v mod 2^32, the two's-complement bit pattern
      read as unsigned. */
  lemma IntToUIntWraps(f: Frame, name: string)
    requires WellTyped(f) && name in f.columns && f.columns[name].ty == IntT
    ensures Retyped(f, name, IntT, UIntT, None).Success?
    ensures forall i :: 0 <= i < |f.columns[name].data| ==>
              Retyped(f, name, IntT, UIntT, None).value.columns[name].data[i]
                == UInt(ToUInt32(f.columns[name].data[i].i))
  {
    var s := f.columns[name].data;
    assert AllOfType(s, IntT);
    forall i | 0 <= i < |s|
      ensures Convert(s[i], UIntT, None) == Some(UInt(ToUInt32(s[i].i)))
    {
      assert HasType(s[i], IntT);
    }
  }

  /** Retyping int to unsigned int and back with the default casts restores
      the frame exactly. */
  lemma IntUIntRetypeRoundTrip(f: Frame, name: string)
    requires WellTyped(f) && name in f.columns && f.columns[name].ty == IntT
    ensures Retyped(f, name, IntT, UIntT, None).Success?
    ensures Retyped(Retyped(f, name, IntT, UIntT, None).value, name, UIntT, IntT, None) == Success(f)
  {
    var s := f.columns[name].data;
    assert AllOfType(s, IntT);
    IntToUIntWraps(f, name);
    var g := Retyped(f, name, IntT, UIntT, None).value;
    var u := g.columns[name].data;
    forall i | 0 <= i < |u|
      ensures Convert(u[i], IntT, None) == Some(s[i])
    {
      assert HasType(s[i], IntT);
      IntUIntRoundTrip(s[i]);
    }
    var h := Retyped(g, name, UIntT, IntT, None);
    assert h.Success?;
    assert h.value.columns[name].data == s;
    assert h.value.columns == f.columns;
  }
}
