/**
  Tensors as seen by the memory bank: a leading batch axis of rows and the
  shape of everything below it. Concatenation along axis 0 joins the rows.
 */
module Tensors {
  import opened Wrappers

  /** One row along the batch axis; its numeric content is never inspected. */
  type Row = seq<int>

  /** A tensor with a batch axis: `inner` is its shape without that axis. */
  datatype Tensor = Tensor(inner: seq<nat>, rows: seq<Row>)

  /** What flows through a block: one tensor, or named tensors (TabularData). */
  datatype Batch = Single(tensor: Tensor) | Keyed(fields: map<string, Tensor>)

  /** A Keras input shape: one tensor shape, or one per named field. */
  datatype Shape = TensorShape(dims: seq<nat>) | KeyedShape(fieldDims: map<string, seq<nat>>)

  /** The full shape of a tensor, batch axis first. */
  function TensorDims(t: Tensor): (d: seq<nat>)
    ensures |d| == 1 + |t.inner| && d[0] == |t.rows| && d[1..] == t.inner
  {
    [|t.rows|] + t.inner
  }

  /** The shape of a batch, field by field for a mapping. */
  function ShapeOf(b: Batch): (s: Shape)
    ensures b.Single? <==> s.TensorShape?
    ensures b.Keyed? ==> s.fieldDims.Keys == b.fields.Keys
  {
    match b
    case Single(t) => TensorShape(TensorDims(t))
    case Keyed(m) => KeyedShape(map k | k in m :: TensorDims(m[k]))
  }

  /** Every entry is a tensor rather than a mapping of tensors. */
  predicate AllTensors(bs: seq<Batch>)
  {
    forall i :: 0 <= i < |bs| ==> bs[i].Single?
  }

  /** The sum of the entries' row counts (their batch sizes). */
  function TotalRows(bs: seq<Batch>): (n: nat)
    requires AllTensors(bs)
  {
    if bs == [] then 0 else |bs[0].tensor.rows| + TotalRows(bs[1..])
  }

  /** The rows of all entries, in order: concatenation along axis 0. */
  function Flatten(bs: seq<Batch>): (rows: seq<Row>)
    requires AllTensors(bs)
  {
    if bs == [] then [] else bs[0].tensor.rows + Flatten(bs[1..])
  }

  /** Flattening a concatenation of lists is concatenating their flattenings. */
  lemma {:induction false} FlattenAppend(a: seq<Batch>, b: seq<Batch>)
    requires AllTensors(a) && AllTensors(b)
    ensures AllTensors(a + b)
    ensures Flatten(a + b) == Flatten(a) + Flatten(b)
    ensures TotalRows(a + b) == TotalRows(a) + TotalRows(b)
  {
    if a == [] {
      assert a + b == b;
    } else {
      assert (a + b)[1..] == a[1..] + b;
      FlattenAppend(a[1..], b);
    }
  }

  /** The concatenation has exactly as many rows as the entries together. */
  lemma {:induction false} FlattenLength(bs: seq<Batch>)
    requires AllTensors(bs)
    ensures |Flatten(bs)| == TotalRows(bs)
  {
    if bs != [] {
      FlattenLength(bs[1..]);
    }
  }

  /**
    Entry k's rows appear in `out` right after the rows of every earlier
    entry, so order is kept and nothing is interleaved.
   */
  predicate EntryPlaced(out: seq<Row>, bs: seq<Batch>, k: nat)
    requires AllTensors(bs) && k < |bs|
  {
    assert AllTensors(bs[..k]);
    var start := TotalRows(bs[..k]);
    start + |bs[k].tensor.rows| <= |out| && out[start..start + |bs[k].tensor.rows|] == bs[k].tensor.rows
  }

  /** The concatenation places every entry after all the entries before it. */
  lemma FlattenPlacesEntry(bs: seq<Batch>, k: nat)
    requires AllTensors(bs) && k < |bs|
    ensures EntryPlaced(Flatten(bs), bs, k)
  {
    var before, rest := bs[..k], bs[k..];
    assert bs == before + rest;
    assert AllTensors(before) && AllTensors(rest);
    FlattenAppend(before, rest);
    FlattenLength(before);
    var rows := bs[k].tensor.rows;
    assert Flatten(rest) == rows + Flatten(rest[1..]);
    var n := |Flatten(before)|;
    assert Flatten(bs) == Flatten(before) + (rows + Flatten(rest[1..]));
    assert Flatten(bs)[n..n + |rows|] == rows;
  }

  /** Why `tf.concat(values, axis=0)` refuses its arguments. */
  datatype ConcatError =
    | EmptyConcat    // no values at all
    | NotATensor     // some value is a mapping, which cannot become a tensor
    | ShapeMismatch  // the values disagree below the batch axis

  /** When a concatenation along axis 0 is defined. */
  predicate Concatenable(bs: seq<Batch>)
  {
    |bs| > 0 && AllTensors(bs) &&
    forall i :: 0 <= i < |bs| ==> bs[i].tensor.inner == bs[0].tensor.inner
  }

  /** `tf.concat(values, axis=0)`. */
  function Concat(bs: seq<Batch>): (r: Result<Tensor, ConcatError>)
    ensures r.Success? <==> Concatenable(bs)
    ensures bs == [] ==> r == Failure(EmptyConcat)
    ensures r.Success? ==> r.value.inner == bs[0].tensor.inner
    ensures r.Success? ==> AllTensors(bs) && |r.value.rows| == TotalRows(bs)
    ensures r.Success? ==> forall k :: 0 <= k < |bs| ==> EntryPlaced(r.value.rows, bs, k)
  {
    if bs == [] then Failure(EmptyConcat)
    else if !AllTensors(bs) then Failure(NotATensor)
    else if exists i :: 0 <= i < |bs| && bs[i].tensor.inner != bs[0].tensor.inner then Failure(ShapeMismatch)
    else
      FlattenLength(bs);
      assert forall k :: 0 <= k < |bs| ==> EntryPlaced(Flatten(bs), bs, k) by {
        forall k | 0 <= k < |bs| ensures EntryPlaced(Flatten(bs), bs, k) {
          FlattenPlacesEntry(bs, k);
        }
      }
      Success(Tensor(bs[0].tensor.inner, Flatten(bs)))
  }
}
