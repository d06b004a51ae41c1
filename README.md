# TorchKeras bookkeeping, modelled in Dafny

GraphGallery's `TorchKeras` (graphgallery/nn/models/torch_keras.py) gives a
PyTorch network a Keras-style surface: `compile`, `train_step_on_batch`,
`test_step_on_batch`, `save_weights` and the like.
Its numerical work all happens in PyTorch, but it also keeps some bookkeeping
of its own, and this project models that part:

- a keyed get-or-insert cache (`from_cache`, `empty_cache`);
- the training configuration stored by `compile`, and the names `metrics_names` reports;
- `reset_metrics`, which calls `reset_states()` on each metric;
- the checkpoint-path rule that `save_weights`, `load_weights`, `save` and `load` share,
  and the overwrite decision of the two saving methods;
- the one-level `reset` walk over a module tree;
- the list-wrapping and pass-through behaviour of `to_device`.

Layout, one module per file:

- `py.dfy` (`Py`): Python's `None`, the exceptions raised, call results, opaque framework objects.
- `cache.dfy` (`Cache`): the semantics of `from_cache` as the function `Fetch`, plus the lemmas about it.
- `metrics.dfy` (`Metrics`): how `compile` normalises `metrics`, and `metrics_names`.
- `checkpoint.dfy` (`Checkpoint`): the extension rule and the saving target.
- `reset.dfy` (`Reset`): the `reset` walk.
- `device.dfy` (`Device`): `to_device` as written and as evidently intended.
- `torch_keras.dfy` (`TorchKeras`): the class, with fields `cache`, `loss`, `optimizer`,
  `scheduler` and `metrics`, and methods that update them in place.

Modelling choices:

- Keyword arguments are a sequence of `Kwarg(name, value)` in call order. Python forbids
  repeated keywords, so the lemmas that need distinct names require it.
- The `BunchDict` cache is a `map<string, Option<V>>`, so a `None` entry counts as a miss.
- The failed `assert value is not None` is an error result, not a precondition. The
  dictionary keeps the insertions made for the keywords before the failing one,
  because the generator has already run them.
- A metrics element is `Element(name, hasResetStates)`: its `name` attribute, if it has
  one, and whether it has a `reset_states` method. The two are independent, so an object
  can pass `metrics_names` and still make `reset_metrics` raise. Python's `None`, which
  `compile()` stores when called with its default `metrics=None`, has neither.
- The `scheduler` attribute is only assigned in `compile` (line 117). Before that it is `Unset`.
- The extension from `gg.file_ext()`, the file-existence test and the overwrite prompt
  are parameters.
- The PyTorch calls (`reset_parameters`, `reset_states`, `t.to(device)`) are modelled
  by what they are applied to: `reset` and `reset_metrics` return the objects they act
  on, in call order, and `to_device` takes the move as a function parameter `move`,
  with `hasTo` saying which objects have a `to` method.
- `reset` treats a module without a `children` attribute like one whose children list
  is empty, because both take the same branch (line 207).

## Model

| member | source | states |
|---|---|---|
| `TorchKeras.TorchKeras.constructor` | graphgallery/nn/models/torch_keras.py:26-32 | a new object has no loss, optimizer or metrics, an unassigned scheduler, and an empty cache |
| `TorchKeras.TorchKeras.FromCache` | graphgallery/nn/models/torch_keras.py:34-50 | the cache ends up as `Fetch` leaves it, failed insertions included; the result is `None` for no keywords (cache untouched), otherwise a value or an `AssertionError`; a cache with no `None` entries stays that way |
| `TorchKeras.TorchKeras.Get` | graphgallery/nn/models/torch_keras.py:38-45 | the inner `get`: one `Step` of `Fetch`; it returns the cached object on a hit, and on a miss stores and returns the supplied value or raises `AssertionError` for `None` |
| `TorchKeras.TorchKeras.EmptyCache` | graphgallery/nn/models/torch_keras.py:52-53 | the cache becomes empty, and nothing else changes |
| `TorchKeras.TorchKeras.Compile` | graphgallery/nn/models/torch_keras.py:113-120 | loss, optimizer and scheduler are replaced; `metrics` becomes a list or tuple holding the given elements; the cache is kept |
| `TorchKeras.TorchKeras.ResetMetrics` | graphgallery/nn/models/torch_keras.py:122-125 | before `compile`: `AssertionError` and no calls; otherwise the elements are reset in order, an `AttributeError` is raised exactly when some element lacks `reset_states`, and the calls are exactly the elements before the first such one |
| `Cache.Step` | graphgallery/nn/models/torch_keras.py:38-45 | one `get`: it fails exactly on a miss with a `None` value; otherwise it appends one result, which the cache now holds under the name; a hit leaves the cache unchanged, and at most the named entry changes |
| `Cache.Fetch` | graphgallery/nn/models/torch_keras.py:47 | the generator over the keywords: no key is ever removed; a successful run gives one result per keyword, and a failed run gives fewer |
| `Cache.Shape` | graphgallery/nn/models/torch_keras.py:48-49 | no values gives `None`, exactly one gives that bare value, several give all of them |
| `Cache.Answer` | graphgallery/nn/models/torch_keras.py:47-50 | the call raises `AssertionError` exactly when the generator failed; otherwise one value is returned bare and several as a tuple |
| `Cache.FetchExtend` | graphgallery/nn/models/torch_keras.py:47 | fetching one more keyword is one more `get` |
| `Cache.FetchKeepsCached` | graphgallery/nn/models/torch_keras.py:38-45 | an entry that is present and not `None` is never overwritten |
| `Cache.FetchFrame` | graphgallery/nn/models/torch_keras.py:38-47 | cache keys not named in the call keep their presence and their value, whether the call succeeds or raises |
| `Cache.FetchInOrder` | graphgallery/nn/models/torch_keras.py:47 | one result per keyword, in argument order, and each equals what the cache now holds under that keyword |
| `Cache.FetchEntry` | graphgallery/nn/models/torch_keras.py:39-44 | with distinct keywords, each keyword's final entry is its old entry on a hit, or the supplied value on a miss |
| `Cache.FetchHit` | graphgallery/nn/models/torch_keras.py:39-45 | on a hit the cached object is returned, the supplied value is ignored, and the entry is unchanged |
| `Cache.FetchMiss` | graphgallery/nn/models/torch_keras.py:40-44 | on a miss (absent or `None` entry) of a call that succeeds, the supplied value is not `None`, and it is stored and returned |
| `Cache.FetchFails` | graphgallery/nn/models/torch_keras.py:41-42 | the assertion fails if and only if some keyword misses the cache and its value is `None` |
| `Cache.FetchFailurePoint` | graphgallery/nn/models/torch_keras.py:42-47 | on failure, there is a first failing keyword, and the cache holds exactly the insertions made before it |
| `Cache.FetchStaysFailed` | graphgallery/nn/models/torch_keras.py:47 | after an assertion failure, later keywords are not processed |
| `Cache.FetchNoneFree` | graphgallery/nn/models/torch_keras.py:42-43 | `from_cache` never stores `None` |
| `Cache.FetchAllHits` | graphgallery/nn/models/torch_keras.py:39-45 | when every keyword hits, the cache is only read, and the results are its entries in order |
| `Cache.FetchAgain` | graphgallery/nn/models/torch_keras.py:34-50 | repeating a successful call returns the same objects and leaves the cache unchanged |
| `Cache.AnswerShape` | graphgallery/nn/models/torch_keras.py:35-49 | no keywords gives `None` with the cache untouched; one keyword gives the bare object, not a 1-tuple; several give a tuple whose i-th object is what the cache now holds under the i-th keyword; a failure raises `AssertionError` |
| `Metrics.NameList` | graphgallery/nn/models/torch_keras.py:133 | the name comprehension succeeds if and only if every element has a name; then it gives one name per element, in order |
| `Metrics.MetricsNames` | graphgallery/nn/models/torch_keras.py:130-133 | `AssertionError` while `metrics` is `None`; otherwise `['loss']` followed by each metric's name (length `1 + |metrics|`), or `AttributeError` when an element has no name |
| `Metrics.Normalise` | graphgallery/nn/models/torch_keras.py:118-119 | the stored value is a list or tuple holding the given elements: a list or tuple argument is kept as it is, anything else becomes a one-element list |
| `Metrics.CompiledNames` | graphgallery/nn/models/torch_keras.py:113-133 | after `compile`, the names are `'loss'` plus one name per given metric; a single metric `m` gives `['loss', m.name]`; the default `metrics=None` makes `metrics_names` raise |
| `Checkpoint.EndsWith` | graphgallery/nn/models/torch_keras.py:155 | `str.endswith`: the suffix is no longer than the string, and matches its last characters one by one |
| `Checkpoint.WithExtension` | graphgallery/nn/models/torch_keras.py:153-156 | the path always ends with `ext` and starts with the original path: it is unchanged if it already ends with `ext`, and is exactly `filepath + ext` otherwise (the same lines recur at 166-169, 175-178 and 189-192) |
| `Checkpoint.WithExtensionIdempotent` | graphgallery/nn/models/torch_keras.py:166-169 | applying the rule twice is the same as applying it once |
| `Checkpoint.SaveTarget` | graphgallery/nn/models/torch_keras.py:148-163 | the save is skipped if and only if `overwrite` is false, the suffixed file exists, and the user declines; otherwise the suffixed path is written; with `overwrite` it is always written (`save`, lines 174-185, has the same logic) |
| `Reset.ResettableAt` | graphgallery/nn/models/torch_keras.py:208-209 | the positions of the children that have `reset_parameters`: strictly increasing, in range, and including every such child |
| `Reset.Resettable` | graphgallery/nn/models/torch_keras.py:202-204 | `_reset` acts on exactly those items that have `reset_parameters` |
| `Reset.ResettableOrder` | graphgallery/nn/models/torch_keras.py:208-209 | the calls follow the children's order, one per child that has `reset_parameters`: call k goes to the child at the k-th listed position |
| `Reset.ResetTargets` | graphgallery/nn/models/torch_keras.py:206-211 | nothing for `None`; for a module with children, exactly `_reset` over those children; for a module without children, the module itself if it has the method; every target has `reset_parameters` |
| `Reset.ResetModule` | graphgallery/nn/models/torch_keras.py:201-211 | the loop calls `reset_parameters` on exactly the modules `ResetTargets` names, in order |
| `Reset.ResetNone` | graphgallery/nn/models/torch_keras.py:206 | a `None` module resets nothing |
| `Reset.ResetParent` | graphgallery/nn/models/torch_keras.py:207-209 | a module with children resets exactly its direct children that have `reset_parameters`, in their order and once per occurrence, and never itself |
| `Reset.ResetSkipsGrandchildren` | graphgallery/nn/models/torch_keras.py:207-209 | a grandchild that is not also a direct child is never reset |
| `Reset.ResetLeaf` | graphgallery/nn/models/torch_keras.py:210-211 | a module without children resets itself exactly when it has the method |
| `Device.MoveAllIf` | graphgallery/nn/models/torch_keras.py:217 | the comprehension keeps the length, and moves either every element or none, depending on the container test |
| `Device.MoveEach` | graphgallery/nn/models/torch_keras.py:217 | the per-element comprehension keeps the length and moves exactly the elements that have `to` |
| `Device.ToDevice` | graphgallery/nn/models/torch_keras.py:214-226 | `to_device` as written: a non-list `x` is wrapped in a one-element list; `x` elements, and elements of list or tuple labels, come back unchanged; single labels are moved, or raise `AttributeError` when they have no `to`; the pair is returned exactly when `y` is given |
| `Device.ToDeviceIntended` | graphgallery/nn/models/torch_keras.py:214-226 | the corrected `to_device`: every element of `x`, and of list or tuple labels, that has `to` is moved and the rest pass through; same errors and return shape as written |
| `Device.ToDeviceIntendedMoves` | graphgallery/nn/models/torch_keras.py:217-221 | the corrected version succeeds and raises on the same calls as the code as written, returns the same shape and moves single labels alike; it differs only by moving the elements of the inputs, and of list or tuple labels, that have `to`, which the code as written returns unmoved |
| `Device.ToDeviceSkipsMove` | graphgallery/nn/models/torch_keras.py:215-217 | for a single movable tensor `t`, the code as written returns `[t]` unmoved, while the corrected version returns it moved |
| `Device.ToDeviceCounterexample` | graphgallery/nn/models/torch_keras.py:217 | a concrete input on which the two versions differ |

## Left out

- `train_step_on_batch`, `test_step_on_batch`, `predict_step_on_batch`: forward and backward passes, optimizer and scheduler steps and metric updates are PyTorch numerics. The dictionary `zip(self.metrics_names, results)` is not modelled beyond `MetricsNames`.
- `torch.save`, `torch.load`, `state_dict` and `load_state_dict` in `save_weights`/`load_weights`/`save`/`load`: file I/O, represented only by the path the rule yields (`WithExtension`) and by whether a save takes place (`SaveTarget`).
- The file-existence test and `ask_to_proceed_with_overwrite`: file system and user interaction, taken as the parameters `isFile` and `confirm`.
- `gg.file_ext()` and the internals of `gf.BunchDict`: not part of this model. The extension is a parameter, and the cache is a plain map with `get` and item assignment.
- The TensorFlow compatibility attributes (`_in_multi_worker_mode`, `_is_graph_network`, `distribute_strategy`, the counters), and the no-op methods `build`, `summary` and `on_*_begin`: they hold no logic.
- `reset_parameter` only calls `reset(self)`. It is covered by `Reset.ResetModule` applied to the model's own module tree, which is not part of the class model.
- Metric state and module parameters live in PyTorch objects. `ResetMetrics` and `ResetModule` report which objects are acted on, not how those objects change.
- Object identity and aliasing: modules, metrics and the metrics list are values. A module shared by two parents is two equal values, so "never a grandchild" is stated for grandchildren that are not also direct children. `compile` stores the caller's own list or tuple (line 120), so if the caller later changes that list, `self.metrics` and `metrics_names` change with it; the model stores a copy and does not capture this.
- Assertions stripped by `python -O`: the model assumes `assert` statements run. Without them, `from_cache` would store and return `None` on a miss (line 42), and `reset_metrics` and `metrics_names` would raise `TypeError` on `None` metrics (lines 123-124 and 132-133) instead of `AssertionError`.
- graphgallery/nn/models/supervised/supervised_model.py (the training drivers) is not part of this model. Its `.h5` suffixing is the same rule as `WithExtension`.

## Findings

| source | as written | input that shows it | evidently intended | confidence | as-written member | corrected member |
|---|---|---|---|---|---|---|
| graphgallery/nn/models/torch_keras.py:217 | `_x.to(device) if hasattr(x, 'to') else _x` tests the list `x`, which never has `to`, so no input is ever moved (the same holds for list labels at line 221) | `to_device(t, device='cuda')` for a tensor `t` returns `[t]` with `t` still in place | `hasattr(_x, 'to')` (and `hasattr(_y, 'to')` at line 221): move each element that can be moved | not executed; medium (callers may already place inputs on the device) | `Device.ToDeviceSkipsMove` | `Device.ToDeviceIntendedMoves` |
