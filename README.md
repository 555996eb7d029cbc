# MemoryBankBlock, modelled in Dafny

This project models `MemoryBankBlock`, the memory-bank layer of the Merlin
models TensorFlow blocks. The layer keeps a history of training batches for
use as extra (for example negative) examples. On every training-mode forward
call it appends the incoming batch to a `deque`, or only the field named by
`key`. The deque's `maxlen` is `num_batches + 1`, so once it is full the
oldest entry is dropped. `sample` concatenates every retained entry except the
newest along the batch axis. It then applies the optional `post` block and
`stop_gradient`.

Files:

- `wrappers.dfy` (module `Wrappers`): `Option` and `Result`.
- `tensors.dfy` (module `Tensors`): a tensor is its shape below the batch axis
  plus a sequence of rows. A batch is one tensor (`Single`) or a mapping of named
  tensors (`Keyed`, TabularData). `Concat` models `tf.concat(values, axis=0)`
  together with its failures.
- `memory_bank.dfy` (module `Sampling`): the deque's behaviour as functions on
  sequences (`Appended`, `History`, `Window`), the lemmas about them, and the
  class `MemoryBankBlock`. The class has the constructor, `Call`, `Sample`
  and the output-shape functions.

Modelling decisions:

- The deque is the field `queue: seq<Batch>`, oldest entry first. `Call`
  reassigns it. The configuration fields are `const`, because nothing in the
  source changes them after `__init__`.
- Errors the source raises are results, not preconditions:
  - A training call whose `key` lookup fails returns `Failure` and leaves the
    queue as it was, because Python raises before `append`. A mapping without
    the key is `KeyError`. A single tensor indexed by a name is `NotAMapping`.
  - `Sample` with fewer than two retained entries returns `Failure(EmptyConcat)`.
    In the source, `tf.concat` of an empty list raises.
  - `Sample` also fails (`NotATensor`) when an entry in the window is a mapping.
    This happens when a whole dict batch was retained because no key was set.
  - It fails (`ShapeMismatch`) when the entries differ below the batch axis.
- `key` is tested for Python truthiness, so `None` and `""` both retain the whole
  batch (`KeySet`).
- `post` is an opaque total function `Tensor -> Tensor`. `stop_gradient` gives
  the same value back, so `Sample` returns the tensor together with a `detached`
  flag equal to `stop_gradient`.
- There are no dedicated error types in the source:
  - a missing key raises whatever `inputs[self.key]` raises;
  - `sample` with fewer than two entries fails inside `tf.concat`, which
    refuses an empty list.
- `num_batches = -1` gives `deque(maxlen=0)`, which is legal and never
  retains anything. The model keeps that case.

## Model

| member | source | states |
|---|---|---|
| `Sampling.MemoryBankBlock.constructor` | merlin_models/tf/block/sampling.py:28-43 | the queue starts empty. Its bound `maxLen` is `numBatches + 1`. Every configuration field is stored as given, with the source's defaults (1, None, None, False, True) |
| `Sampling.MemoryBankBlock.Call` | merlin_models/tf/block/sampling.py:45-53 | it fails exactly when training with a key that the input lacks, and then the queue is unchanged. Outside training the queue is unchanged. Otherwise the queue is the old queue with the selected entry appended under the deque bound. The return value is `{}` when `no_outputs` is set and the input otherwise, whatever the training flag. The bound \|queue\| <= num_batches + 1 is preserved |
| `Sampling.SelectEntry` | merlin_models/tf/block/sampling.py:47 | with a truthy key the retained entry is the named field alone, and a missing key or a non-mapping input is an error naming the key. With `None` or `""` the whole input is retained |
| `Sampling.Appended` | merlin_models/tf/block/sampling.py:40-48 | appending to a deque bounded by `maxLen` yields min(\|q\| + 1, maxLen) entries |
| `Sampling.AppendedKeepsLast` | merlin_models/tf/block/sampling.py:40-48 | a bounded append keeps exactly the last `maxLen` entries of old queue + [x]. So when full, the head alone is evicted |
| `Sampling.History` | merlin_models/tf/block/sampling.py:40-48 | after N training appends from empty, the length is min(N, num_batches + 1) |
| `Sampling.HistoryIsLastN` | merlin_models/tf/block/sampling.py:40-48 | after appending xs from empty, the queue is exactly the last min(\|xs\|, maxLen) of xs, in order (FIFO eviction) |
| `Sampling.Window` | merlin_models/tf/block/sampling.py:56 | `list(queue)[:-1]` is every entry but the newest, in order. Adding the newest back gives the queue |
| `Sampling.WindowAfterAppend` | merlin_models/tf/block/sampling.py:40-56 | right after an append, the sample window is the last `num_batches` entries that were there before it. It never contains the one just appended |
| `Sampling.LaggedWindow` | merlin_models/tf/block/sampling.py:40-56 | after training on xs, the window is the last `num_batches` entries of xs without its newest. This is the one-entry lag the +1 bound makes lossless |
| `Sampling.ZeroBoundRetainsNothing` | merlin_models/tf/block/sampling.py:40-56 | with num_batches = -1 (`deque(maxlen=0)`) the queue stays empty after any appends, and the sample window is always empty |
| `Sampling.FourBatchScenario` | merlin_models/tf/block/sampling.py:40-56 | with num_batches = 2 and batches b1..b4, the queue is [b2, b3, b4] and the window is [b2, b3]. After b1 alone the window is empty |
| `Sampling.MemoryBankBlock.Sample` | merlin_models/tf/block/sampling.py:55-64 | fails with fewer than two retained entries. Succeeds exactly when the window is concatenable. Without `post` the result is the concatenation of the window: it keeps the window's shape below the batch axis, has the summed row count of the window, and holds every windowed entry's rows in its place, oldest first. With `post` it is `post` of that concatenation. `detached` equals `stop_gradient`. The queue is only read |
| `Sampling.FourTrainingCalls` | merlin_models/tf/block/sampling.py:45-64 | a default-configured block with num_batches = 2, trained on four tensors of which the second and third have the same inner shape, samples the rows of the second tensor followed by those of the third, detached |
| `Sampling.TrainingCalls` | merlin_models/tf/block/sampling.py:28-48 | N training calls with any batches (tensors or mappings) on a freshly built block with no key leave its queue equal to `History` of those batches with bound `num_batches + 1`, so `HistoryIsLastN` and `LaggedWindow` apply to the block |
| `Tensors.Concat` | merlin_models/tf/block/sampling.py:56 | `tf.concat(axis=0)` succeeds exactly on a non-empty list of tensors with equal inner shape, and fails on the empty list. The result keeps the inner shape, has the summed row count, and places each entry's rows after those of all earlier entries |
| `Tensors.FlattenLength` | merlin_models/tf/block/sampling.py:56 | the concatenation's row count is the sum of the entries' row counts |
| `Tensors.FlattenAppend` | merlin_models/tf/block/sampling.py:56 | concatenating two lists of entries concatenates their rows and adds their row counts |
| `Tensors.FlattenPlacesEntry` | merlin_models/tf/block/sampling.py:56 | entry k's rows occupy the slice that starts after the rows of entries 0..k-1 |
| `Tensors.ShapeOf` | merlin_models/tf/block/sampling.py:66-67 | a batch's shape is a tensor shape for a tensor, and has one entry per field for a mapping |
| `Sampling.CallResult` | merlin_models/tf/block/sampling.py:50-53 | a call that does not raise returns `{}` when `no_outputs` is set and its input unchanged otherwise |
| `Sampling.MemoryBankBlock.ComputeOutputShape` | merlin_models/tf/block/sampling.py:66-67 | the declared shape is the input shape, whatever `no_outputs` says |
| `Sampling.MemoryBankBlock.CorrectedOutputShape` | merlin_models/tf/block/sampling.py:50-67 | the declared output shape is the input shape unless `no_outputs` is set, and then it is the shape of `{}` |
| `Sampling.OutputShapeMatchesCall` | merlin_models/tf/block/sampling.py:50-67 | the corrected declared shape is always the shape of what a call returns. With `no_outputs` unset, the as-written identity `compute_output_shape` agrees with it |
| `Sampling.OutputShapeIgnoresNoOutputs` | merlin_models/tf/block/sampling.py:66-67 | with `no_outputs` set and any input other than `{}` (a tensor or a non-empty mapping), the as-written identity shape differs from the shape of the `{}` that a call returns |

## Left out

- The numeric content of tensors and their dtypes. Rows are opaque, and
  `ShapeMismatch` covers only the shape below the batch axis. Scalars cannot
  be expressed, because every tensor here has a batch axis; `tf.concat`
  refuses two or more scalars but returns a single one unchanged.
- Graph tracing: the model describes eager execution, where every training
  call runs the Python body and appends exactly once. When `call` is traced
  inside `tf.function` (the Keras default for `fit` and `predict` unless
  `run_eagerly` is set), `self.queue.append` runs only while tracing, so the
  queue does not follow `History` there.
- The behaviour of the `post` block: it is an arbitrary total function, and a
  failure inside it is not modelled.
- The gradient semantics of `stop_gradient`: only the value (unchanged) and
  the `detached` flag are modelled.
- Keras serialization registration (line 26), the `Block` and `Sampler` base
  classes, and the `**kwargs` passed to them. Saving and restoring a block's
  configuration is not part of this source file, so it is not modelled.
- Re-assignment of the configuration attributes after construction: the
  fields are constants here.
- The deque as a linked block structure: it is modelled as a value sequence
  that each call reassigns, so aliasing of the deque object is not captured.
- `Sampling.MemoryBankBlock.constructor`: a negative `maxlen` raises
  `ValueError` in the source. This becomes the precondition `numBatches >= -1`,
  because a constructor cannot return an error. Non-integer `num_batches` is
  not modelled.
- `src/merlin_models/tensorflow/architectures/wide_and_deep.py`: Keras model
  assembly over foreign layers, and floating-point forward passes.
- `tests/tf/features/test_continuous.py`: it tests `ContinuousFeatures`, which
  is not part of this model.

## Findings

| source | as written | input that shows it | evidently intended | confidence | as-written member | corrected member |
|---|---|---|---|---|---|---|
| merlin_models/tf/block/sampling.py:66-67 | `compute_output_shape` returns `input_shape` unconditionally | a block with `no_outputs=True` called on a tensor or a non-empty mapping: `call` returns `{}`, but the declared output shape is the tensor's shape | the declared shape is that of `{}` when `no_outputs` is set, and the input shape otherwise | low, not executed | `Sampling.OutputShapeIgnoresNoOutputs` | `Sampling.MemoryBankBlock.CorrectedOutputShape` |
