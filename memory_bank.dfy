/**
  A memory bank block: a layer that, on every training-mode call, remembers
  the batch it sees (or one named field of it) in a deque bounded by
  `num_batches + 1`, and whose `sample` concatenates every remembered entry
  except the newest one, to serve as extra (for example negative) examples.
 */
module Sampling {
  import opened Wrappers
  import opened Tensors

  function Min(a: nat, b: nat): (m: nat)
    ensures m <= a && m <= b && (m == a || m == b)
  {
    if a <= b then a else b
  }

  // ---------------------------------------------------------------------
  // The bounded deque, as values
  // ---------------------------------------------------------------------

  /** The last n entries of s, in their order; all of s when it is shorter. */
  function KeepLast<T>(s: seq<T>, n: nat): (r: seq<T>)
    ensures |r| == Min(|s|, n)
    ensures forall i :: 0 <= i < |r| ==> r[i] == s[|s| - |r| + i]
  {
    if |s| <= n then s else s[|s| - n..]
  }

  /**
    `deque.append(x)` on a deque whose `maxlen` is maxLen: a full deque first
    drops its oldest entry, and a deque bounded by 0 keeps nothing.
   */
  function Appended<T>(q: seq<T>, x: T, maxLen: nat): (r: seq<T>)
    requires |q| <= maxLen
    ensures |r| == Min(|q| + 1, maxLen)
  {
    if |q| < maxLen then q + [x]
    else if maxLen == 0 then []
    else q[1..] + [x]
  }

  /** The deque after appending each of xs in turn to an empty one. */
  function History<T>(xs: seq<T>, maxLen: nat): (r: seq<T>)
    ensures |r| == Min(|xs|, maxLen)
    decreases |xs|
  {
    if xs == [] then []
    else Appended(History(xs[..|xs| - 1], maxLen), xs[|xs| - 1], maxLen)
  }

  /** `list(queue)[:-1]`: every entry but the newest, oldest first. */
  function Window<T>(q: seq<T>): (w: seq<T>)
    ensures |q| == 0 ==> w == []
    ensures |q| > 0 ==> w + [q[|q| - 1]] == q
  {
    if |q| == 0 then [] else q[..|q| - 1]
  }

  /** Appending to a bounded deque keeps the last maxLen of old entries plus the new one. */
  lemma AppendedKeepsLast<T>(q: seq<T>, x: T, maxLen: nat)
    requires |q| <= maxLen
    ensures Appended(q, x, maxLen) == KeepLast(q + [x], maxLen)
  {
  }

  /** Trimming to n and then appending and trimming again loses nothing more than trimming once. */
  lemma KeepLastAppend<T>(s: seq<T>, x: T, n: nat)
    ensures KeepLast(KeepLast(s, n) + [x], n) == KeepLast(s + [x], n)
  {
  }

  /** Trimming to n and then to m <= n is trimming to m. */
  lemma KeepLastTwice<T>(s: seq<T>, n: nat, m: nat)
    requires m <= n
    ensures KeepLast(KeepLast(s, n), m) == KeepLast(s, m)
  {
  }

  /**
    Eviction order: after N appends to an empty deque bounded by maxLen it
    holds exactly the last min(N, maxLen) entries appended, in order.
   */
  lemma {:induction false} HistoryIsLastN<T>(xs: seq<T>, maxLen: nat)
    ensures History(xs, maxLen) == KeepLast(xs, maxLen)
  {
    if xs != [] {
      var prefix, x := xs[..|xs| - 1], xs[|xs| - 1];
      assert xs == prefix + [x];
      HistoryIsLastN(prefix, maxLen);
      AppendedKeepsLast(History(prefix, maxLen), x, maxLen);
      KeepLastAppend(prefix, x, maxLen);
    }
  }

  /**
    The lag, and why the bound is one more than the number of batches: right
    after an append, the window is exactly the last maxLen - 1 entries that
    were there before it, and never the entry just appended.
   */
  lemma WindowAfterAppend<T>(q: seq<T>, x: T, maxLen: nat)
    requires |q| <= maxLen && maxLen >= 1
    ensures Window(Appended(q, x, maxLen)) == KeepLast(q, maxLen - 1)
  {
  }

  /**
    After training calls that appended xs, the sampled window is the last
    maxLen - 1 (that is, num_batches) entries appended before the newest one.
   */
  lemma {:induction false} LaggedWindow<T>(xs: seq<T>, maxLen: nat)
    requires maxLen >= 1 && |xs| >= 1
    ensures Window(History(xs, maxLen)) == KeepLast(xs[..|xs| - 1], maxLen - 1)
  {
    var prefix := xs[..|xs| - 1];
    var h := History(prefix, maxLen);
    WindowAfterAppend(h, xs[|xs| - 1], maxLen);
    HistoryIsLastN(prefix, maxLen);
    KeepLastTwice(prefix, maxLen, maxLen - 1);
  }

  /**
    With num_batches = -1 the deque is bounded by 0: it never retains
    anything, so there is never anything to sample.
   */
  lemma ZeroBoundRetainsNothing<T>(xs: seq<T>)
    ensures History(xs, 0) == [] && Window(History(xs, 0)) == []
  {
  }

  /**
    A block built with num_batches = 2 (deque bound 3) that is trained on
    b1, b2, b3, b4 retains [b2, b3, b4] and samples from [b2, b3]; after b1
    alone it has nothing to sample.
   */
  lemma FourBatchScenario<T>(b1: T, b2: T, b3: T, b4: T)
    ensures History([b1, b2, b3, b4], 3) == [b2, b3, b4]
    ensures Window(History([b1, b2, b3, b4], 3)) == [b2, b3]
    ensures Window(History([b1], 3)) == []
  {
    HistoryIsLastN([b1, b2, b3, b4], 3);
    HistoryIsLastN([b1], 3);
  }

  // ---------------------------------------------------------------------
  // What a call retains and returns
  // ---------------------------------------------------------------------

  /** Python's truthiness of the optional key: None and "" both mean "no key". */
  predicate KeySet(key: Option<string>)
  {
    key.Some? && key.value != ""
  }

  /** Why `inputs[self.key]` raises. */
  datatype CallError =
    | KeyError(missing: string)    // a mapping without the key
    | NotAMapping(missing: string) // a single tensor indexed by a field name

  /** `inputs[self.key] if self.key else inputs`: the entry a training call retains. */
  function SelectEntry(key: Option<string>, inputs: Batch): (r: Result<Batch, CallError>)
    ensures !KeySet(key) ==> r == Success(inputs)
    ensures KeySet(key) ==> (r.Success? <==> inputs.Keyed? && key.value in inputs.fields)
    ensures KeySet(key) && r.Success? ==> r.value == Single(inputs.fields[key.value])
    ensures r.Failure? ==> KeySet(key) && r.error.missing == key.value
  {
    if !KeySet(key) then Success(inputs)
    else
      match inputs
      case Single(_) => Failure(NotAMapping(key.value))
      case Keyed(m) =>
        if key.value in m then Success(Single(m[key.value])) else Failure(KeyError(key.value))
  }

  /** What a call that did not raise returns: `{}` when no_outputs is set, else its input. */
  function CallResult(noOutputs: bool, inputs: Batch): (r: Batch)
    ensures noOutputs ==> r == Keyed(map[])
    ensures !noOutputs ==> r == inputs
  {
    if noOutputs then Keyed(map[]) else inputs
  }

  /** What `sample` returns: a tensor, and whether it is cut from the gradient graph. */
  datatype Sampled = Sampled(value: Tensor, detached: bool)

  // ---------------------------------------------------------------------
  // The block
  // ---------------------------------------------------------------------

  class MemoryBankBlock {
    const numBatches: int
    const key: Option<string>
    /** The optional block applied to the sample, an opaque function of its value. */
    const post: Option<Tensor -> Tensor>
    const noOutputs: bool
    const stopGradient: bool
    /** The deque's `maxlen`. */
    const maxLen: nat
    /** The retained entries, oldest first. */
    var queue: seq<Batch>

    ghost predicate Valid()
      reads this
    {
      maxLen == numBatches + 1 && |queue| <= maxLen
    }

    /** A deque with `maxlen` below zero is refused, hence numBatches >= -1. */
    constructor (numBatches: int := 1, key: Option<string> := None, post: Option<Tensor -> Tensor> := None,
                 noOutputs: bool := false, stopGradient: bool := true)
      requires numBatches >= -1
      ensures Valid() && queue == [] && maxLen == numBatches + 1
      ensures this.numBatches == numBatches && this.key == key && this.post == post
      ensures this.noOutputs == noOutputs && this.stopGradient == stopGradient
    {
      this.key := key;
      this.numBatches := numBatches;
      this.maxLen := numBatches + 1;
      this.queue := [];
      this.noOutputs := noOutputs;
      this.post := post;
      this.stopGradient := stopGradient;
    }

    /**
      The forward pass. In training mode the selected entry is appended to the
      deque (dropping the oldest when full); outside training nothing changes.
      A lookup of a missing key raises before anything is appended.
     */
    method Call(inputs: Batch, training: bool := true) returns (r: Result<Batch, CallError>)
      requires Valid()
      modifies this
      ensures Valid()
      ensures r.Failure? <==> training && SelectEntry(key, inputs).Failure?
      ensures r.Failure? ==> r.error == SelectEntry(key, inputs).error
      ensures r.Success? ==> r.value == CallResult(noOutputs, inputs)
      ensures !training || r.Failure? ==> queue == old(queue)
      ensures training && r.Success? ==> queue == Appended(old(queue), SelectEntry(key, inputs).value, maxLen)
    {
      if training {
        var toAdd := SelectEntry(key, inputs);
        if toAdd.Failure? {
          return Failure(toAdd.error);
        }
        queue := queue + [toAdd.value];
        if |queue| > maxLen {
          queue := queue[1..];
        }
      }
      if noOutputs {
        return Success(Keyed(map[]));
      }
      return Success(inputs);
    }

    /**
      `sample`: the entries but the newest, concatenated along the batch axis,
      then passed through `post` when there is one; `stop_gradient` leaves the
      value as it is and only marks it as detached.
     */
    function Sample(): (r: Result<Sampled, ConcatError>)
      reads this
      ensures |queue| < 2 ==> r == Failure(EmptyConcat)
      ensures r.Success? <==> Concatenable(Window(queue))
      ensures r.Success? ==> r.value.detached == stopGradient
      ensures r.Success? && post.None? ==> r.value.value == Concat(Window(queue)).value
      ensures r.Success? && post.None? ==>
        r.value.value.inner == Window(queue)[0].tensor.inner &&
        AllTensors(Window(queue)) && |r.value.value.rows| == TotalRows(Window(queue)) &&
        forall k :: 0 <= k < |queue| - 1 ==> EntryPlaced(r.value.value.rows, Window(queue), k)
      ensures r.Success? && post.Some? ==> r.value.value == post.value(Concat(Window(queue)).value)
    {
      match Concat(Window(queue))
      case Failure(e) => Failure(e)
      case Success(t) =>
        var outputs := if post.Some? then post.value(t) else t;
        Success(Sampled(outputs, stopGradient))
    }

    /** `compute_output_shape`, as written: the input shape, whatever no_outputs says. */
    function ComputeOutputShape(inputShape: Shape): (s: Shape)
      ensures s == inputShape
    {
      inputShape
    }

    /** The shape a call actually returns: that of `{}` when no_outputs is set. */
    function CorrectedOutputShape(inputShape: Shape): (s: Shape)
      ensures !noOutputs ==> s == inputShape
      ensures noOutputs ==> s.KeyedShape? && s.fieldDims == map[]
    {
      if noOutputs then KeyedShape(map[]) else inputShape
    }
  }

  /** With no_outputs unset, the declared output shape is that of what a call returns. */
  lemma OutputShapeMatchesCall(b: MemoryBankBlock, inputs: Batch)
    ensures ShapeOf(CallResult(b.noOutputs, inputs)) == b.CorrectedOutputShape(ShapeOf(inputs))
    ensures !b.noOutputs ==> ShapeOf(CallResult(b.noOutputs, inputs)) == b.ComputeOutputShape(ShapeOf(inputs))
  {
  }

  /**
    With no_outputs set, the shape `compute_output_shape` declares is not that
    of the `{}` a call returns, for any input other than `{}` itself.
   */
  lemma OutputShapeIgnoresNoOutputs(b: MemoryBankBlock, inputs: Batch)
    requires b.noOutputs && (inputs.Single? || inputs.fields != map[])
    ensures ShapeOf(CallResult(b.noOutputs, inputs)) != b.ComputeOutputShape(ShapeOf(inputs))
  {
  }

  /**
    The scenario of a block built with num_batches = 2 and trained on four
    single-tensor batches of one shape: its sample is the rows of the second
    batch followed by those of the third, and it is detached by default.
   */
  method FourTrainingCalls(t1: Tensor, t2: Tensor, t3: Tensor, t4: Tensor) returns (s: Result<Sampled, ConcatError>)
    requires t2.inner == t3.inner
    ensures s.Success? && s.value.detached
    ensures s.value.value.rows == t2.rows + t3.rows
  {
    var bank := new MemoryBankBlock(2);
    var out := bank.Call(Single(t1));
    out := bank.Call(Single(t2));
    out := bank.Call(Single(t3));
    out := bank.Call(Single(t4));
    assert bank.queue == [Single(t2), Single(t3), Single(t4)];
    assert Window(bank.queue) == [Single(t2), Single(t3)];
    s := bank.Sample();
    var w, rows := Window(bank.queue), s.value.value.rows;
    assert EntryPlaced(rows, w, 0) && EntryPlaced(rows, w, 1);
    assert w[..0] == [] && w[..1] == [Single(t2)];
    assert TotalRows(w[..1]) == |t2.rows| && TotalRows(w) == |t2.rows| + |t3.rows|;
    assert rows == rows[..|t2.rows|] + rows[|t2.rows|..];
  }

  /**
    Training calls, one per batch, on a freshly built block without a key:
    the queue is then `History` of the batches with bound num_batches + 1,
    so the lemmas about `History` and `Window` describe the block itself.
   */
  method TrainingCalls(numBatches: int, bs: seq<Batch>) returns (bank: MemoryBankBlock)
    requires numBatches >= -1
    ensures bank.Valid() && bank.maxLen == numBatches + 1
    ensures bank.queue == History(bs, numBatches + 1)
  {
    bank := new MemoryBankBlock(numBatches);
    for i := 0 to |bs|
      invariant bank.Valid() && bank.maxLen == numBatches + 1 && bank.key == None
      invariant bank.queue == History(bs[..i], numBatches + 1)
    {
      var out := bank.Call(bs[i]);
      assert bs[..i + 1][..i] == bs[..i];
    }
    assert bs[..|bs|] == bs;
  }
}
