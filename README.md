# libsvm-wasm: the shim and its TypeScript wrapper, modelled in Dafny

libsvm-wasm compiles libsvm to WebAssembly. A small C shim (`libsvm-wasm.c`)
exposes flat entry points to JavaScript. It builds libsvm's sparse rows from
dense, row-major buffers, fills parameter structs, and wraps training,
cross-validation, prediction and saving with their `malloc`s and `free`s. A
TypeScript layer (`src/index.ts`) offers `SVMParam`, a configuration object
with defaults and a derived `gamma`, and `SVM`, which holds three handles into
the module's memory (parameter, problem, model) and sets them by calling the
shim.

The project has six modules:

- `Memory` (memory.dfy): the module's linear memory. Dafny's allocator stands
  for `malloc`. A `Heap` object keeps a log of `Malloc`, `Free` and
  `DestroyParam` events. `Live(log)` is the set of blocks allocated and not
  yet freed.
- `Libsvm` (libsvm.dfy): the parts of libsvm's interface the shim uses. These
  are `svm_node`, `svm_problem`, `svm_parameter` and an opaque `svm_model`.
  The library's numeric results come from an `Engine` value, with one
  uninterpreted function per call. Prediction is applied to the row's
  contents: the entries before the first terminator (`UntilTerminator`).
  Cross-validation, the class count and saving are applied to the problem,
  parameter or model handle itself, not to what it holds.
- `Layout` (layout.dfy): the index arithmetic and the sparse encoding. Row `i`
  of a problem starts at slot `i * (nb_dim + 1)`. Feature `j` of sample `i` is
  read at `i * nb_dim + j`. A dense row `v` becomes the entries
  `(k + 1, v[k])` followed by a terminator of index -1.
- `Shim` (shim.dfy): every function of `libsvm-wasm.c` but `print_null`, as imperative methods
  over arrays and the heap. The loops and in-place writes are kept.
- `Params` (params.dfy): `SVMParam` as a class whose constructor runs the
  key-copying loop. It is specified by pure functions (`Defaults`, `Override`,
  `WithDerivedGamma`, `Configure`), and lemmas state what each key ends up as.
- `Binding` (binding.dfy): the `SVM` class. It covers the constructor,
  `feedParam`, `feedSamples` (with the `reduce`/`concat` flattening), `train`
  and `predict`. Also here: lemmas showing that the row-major flattening puts
  `data[i][j]` where the shim reads it, and that what libsvm reads back as
  row `i` is the sparse form of `data[i]`.

A `train` after an earlier `train` calls `train_model` again with the same
parameter struct. `train_model` has already called `svm_destroy_param` on that
struct. The model shows this as a second `DestroyParam` event for the same
struct in the log (`Binding.SVM.Train`).

## Model

| member | source | states |
|---|---|---|
| Memory.Heap.Alloc | libsvm-wasm.c:10 | `MALLOC(type, n)`: a fresh block of `n` elements, logged as one `Malloc` |
| Memory.Heap.NoteMalloc | libsvm-wasm.c:57 | `MALLOC(svm_problem, 1)` and `MALLOC(svm_parameter, 1)` of a single struct: the log grows by exactly one `Malloc` of that struct |
| Memory.Heap.Release | libsvm-wasm.c:141 | `free(p)` logs one `Free` of `p`, and nothing for a null pointer |
| Memory.LiveMalloced | libsvm-wasm.c:10 | a block can be live only if the log holds its `malloc`, so a block fresh from a call was not live before it |
| Memory.ScratchLeavesLiveUnchanged | libsvm-wasm.c:137-143 | a block allocated and freed within one call, as `predict_one`'s node buffer, leaves the set of live blocks as it was |
| Libsvm.SvmTrain | libsvm-wasm.c:116 | `svm_train` returns a new, logged model tied to the problem and parameter it was given |
| Libsvm.SvmPredict | libsvm-wasm.c:140 | `svm_predict`'s result depends on the model and on the row's entries before its terminator only |
| Libsvm.SvmPredictProbability | libsvm-wasm.c:149 | the prediction and one estimate per class are functions of the row up to its terminator; only the first `classes` entries of the caller's buffer change |
| Libsvm.SvmCrossValidation | libsvm-wasm.c:132 | one prediction per sample written to `target[0 .. l)`, the rest untouched |
| Libsvm.SvmSaveModel | libsvm-wasm.c:35 | the status of `svm_save_model` for this model and file name |
| Libsvm.SvmDestroyParam | libsvm-wasm.c:117 | `svm_destroy_param` is logged; the struct itself is not freed |
| Libsvm.SvmFreeAndDestroyModel | libsvm-wasm.c:52 | the model is freed |
| Layout.SparseIndices | libsvm-wasm.c:25 | the indices of an encoded row are 1-based, strictly ascending and never the terminator |
| Layout.UntilFirstTerminator | libsvm-wasm.c:28 | a reader that stops at a terminator stops exactly at the first one |
| Layout.ReadBack | libsvm-wasm.c:20-30 | round trip: reading an encoded row up to its terminator gives back exactly the sparse form of the dense row, whatever value the terminator node holds |
| Layout.SlotInBlock | libsvm-wasm.c:61-64 | every node of every row, terminator included, lies inside the block of `nb_feat * (nb_dim + 1)` nodes |
| Layout.CellInData | libsvm-wasm.c:78 | every feature read `data[i * nb_dim + j]` lies inside the buffer of `nb_feat * nb_dim` values |
| Layout.SlotInjective | libsvm-wasm.c:64 | rows do not overlap: each row, terminator included, lies wholly before the next row's first node |
| Layout.SlotApart | libsvm-wasm.c:77-80 | the slot written for (i, j) is distinct from every other (row, column) slot, so no write disturbs an earlier one |
| Layout.RowsTileBlock | libsvm-wasm.c:61-64 | the rows tile the block in order from slot 0 to its end, each starting right after the previous terminator |
| Shim.InitNode | libsvm-wasm.c:20-30 | a fresh, logged block of `size + 1` nodes holding `(k + 1, data[k])` for `k < size` and then a terminator |
| Shim.SaveModel | libsvm-wasm.c:33-39 | true exactly when libsvm's status is not negative |
| Shim.FreeModel | libsvm-wasm.c:50-53 | the model is freed and nothing else happens to memory |
| Shim.MakeSamplesInternal | libsvm-wasm.c:55-67 | four fresh, logged blocks (struct, labels, row pointers, node block), `l == nb_feat`, and row pointer `i` points at slot `i * (nb_dim + 1)` of the node block |
| Shim.MakeSamples | libsvm-wasm.c:70-84 | the problem's node `j` of row `i` is `(j + 1, data[i * nb_dim + j])`, each row ends in a terminator, label `i` is `labels[i]`, with exactly the four allocations of `make_samples_internal` |
| Shim.RowReadsBack | libsvm-wasm.c:70-84 | what libsvm reads through row pointer `i` of such a problem is the sparse form of `data[i * nb_dim .. (i + 1) * nb_dim)` |
| Shim.MakeParam | libsvm-wasm.c:87-110 | a fresh, logged struct whose every field is the argument of the same name; the weight arrays are stored by reference |
| Shim.TrainModel | libsvm-wasm.c:113-119 | a fresh model trained on these handles, then the parameter destroyed: log gains `Malloc(model), DestroyParam(param)` in that order |
| Shim.FreeSample | libsvm-wasm.c:122-127 | frees labels, row pointers and the struct, in that order, and nothing else |
| Shim.FreeSampleLeaksBlock | libsvm-wasm.c:122-127 | `make_samples` followed by `free_sample` leaves the node block live: the live set grows by exactly that block |
| Shim.LiveStepsMallocs | libsvm-wasm.c:57-61 | the four allocations of `make_samples_internal` add exactly their four blocks to the live set |
| Shim.MakeThenFreeSample | libsvm-wasm.c:122-127 | the real `make_samples` followed by the real `free_sample`: the live set afterwards is the one before plus exactly the fresh node block of `nb_feat * (nb_dim + 1)` nodes |
| Shim.FreeSampleWhole | libsvm-wasm.c:122-127 | the corrected release, allowed only while no live model was trained on the problem: for a problem with rows, the node block is freed first, reached through row pointer 0 |
| Shim.MakeThenFreeSampleWhole | libsvm-wasm.c:122-127 | the real `make_samples` followed by the corrected release: with at least one row the live set is as before; with none, only the zero-node block stays |
| Shim.FreeSampleWholeReleasesAll | libsvm-wasm.c:122-127 | with the corrected release, building a problem and releasing it leaves the live set as it was |
| Shim.CrossValidModel | libsvm-wasm.c:130-134 | `target[i]` is the cross-validation prediction for sample `i` for every `i < l`, the rest untouched; then the parameter is destroyed |
| Shim.PredictOne | libsvm-wasm.c:137-143 | the engine's prediction for the sparse form of `data[0 .. size)`; the node buffer is allocated and freed exactly once, and the live set is as before |
| Shim.PredictOneWithProb | libsvm-wasm.c:146-152 | as `predict_one`, with the per-class estimates for that sparse row in the first `classes` entries of the caller's buffer, and the live set as before |
| Params.SvmType.Code | src/index.ts:4-10 | `SVM_TYPE` numbers its members 0 to 4 in declaration order, so the regression formulations EPSILON_SVR and NU_SVR are exactly the codes 3 and 4 |
| Params.KernelType.Code | src/index.ts:12-18 | `KERNEL_TYPE` numbers its members 0 to 4 in declaration order, and code 2 is RBF and nothing else |
| Params.Get | src/index.ts:57 | reading key `k` of a configuration yields a setting named `k` |
| Params.Set | src/index.ts:57 | `this[key] = value`: the assigned key reads the value assigned, and every other key reads as before |
| Params.Defaults | src/index.ts:38-52 | the field initialisers: `gamma` starts at the placeholder 0, which derivation turns into 0.5 for the default formulation; no weights, and the weight arrays are the object's own empty arrays |
| Params.LastSetting | src/index.ts:56-58 | the setting of key `k` at the last position of the caller's keys that names `k`, absent exactly when no key names `k` |
| Params.Override | src/index.ts:56-58 | the copying loop leaves every key the caller's object does not have as it was |
| Params.OverrideGet | src/index.ts:56-58 | after the copying loop, a key reads the caller's last value for it when the object has it, and its earlier value otherwise |
| Params.WithDerivedGamma | src/index.ts:59-63 | a `gamma` of 0 becomes 0.1 for EPSILON_SVR and NU_SVR and 0.5 for the other formulations; a nonzero `gamma` and every other field are kept |
| Params.ConfiguredKey | src/index.ts:37-64 | every key but `gamma` of a constructed `SVMParam` is the caller's value when given and the field initialiser otherwise |
| Params.ConfiguredGamma | src/index.ts:54-63 | `gamma` of a constructed `SVMParam` is the caller's nonzero value, else 0.1 or 0.5 by the final formulation |
| Params.Configure | src/index.ts:54-64 | a non-object leaves the defaults as they are; for an object, every field but `gamma` is the result of the copying loop, and `gamma` is nonzero |
| Params.EmptyObjectConfig | src/index.ts:37-64 | `new SVMParam({})` is the defaults with `gamma` 0.5 (C-SVC, RBF, degree 3, cache 100, C 1, nu 0.5, p 0.1, eps 0.001, no weights) |
| Params.SVMParam.constructor | src/index.ts:54-64 | the constructed object equals `Configure(param, defaults)`: a non-object leaves the defaults, `gamma` 0 included; an object's keys are copied in order, then `gamma` is derived |
| Params.SVMParam.DeriveGamma | src/index.ts:59-63 | the end of the constructor: the object's value becomes `WithDerivedGamma` of its value before |
| Params.SVMParam.Assign | src/index.ts:57 | one `this[key] = param[key]`: the object's value becomes `Set(old value, setting)` |
| Binding.Flatten | src/index.ts:99 | the `reduce` with `concat` from `[]` is the rows one after another, as long as all rows together |
| Binding.ConcatOntoAppends | src/index.ts:99 | the `reduce` with `concat` from `[]` concatenates the rows in order |
| Binding.ConcatLength | src/index.ts:99 | the concatenation is as long as all rows together |
| Binding.ConcatAt | src/index.ts:99 | in the concatenation of equal-width rows, entry `i * width + j` is `rows[i][j]` |
| Binding.FlattenAt | src/index.ts:99-100 | row-major: `data[i][j]` sits at `i * data[0].length + j` of the flattened buffer, exactly where `make_samples` reads it |
| Binding.RectangularLength | src/index.ts:99-100 | the flattened buffer of a rectangular matrix holds `data.length * data[0].length` values, as `make_samples` needs |
| Binding.MirrorsOne | src/index.ts:103-127 | the parameter struct determines the `SVMParam` value it mirrors: no field is lost or merged on the way to C |
| Binding.SVM.constructor | src/index.ts:75-84 | a given `SVMParam` is kept unchanged, an absent one becomes `new SVMParam({})`; no problem or model handle; an absent one gets fresh, empty weight arrays; a fresh parameter struct mirroring the configuration |
| Binding.SVM.FeedParam | src/index.ts:103-128 | the parameter handle becomes a fresh struct whose every field holds the `SVMParam` field of the same name, enums as their numeric codes |
| Binding.SVM.FeedSamples | src/index.ts:97-101 | no rows: the promise rejects and nothing changes; otherwise a fresh problem whose node `j` of row `i` is `(j + 1, data[i][j])`, rows terminated, labels copied |
| Binding.FedRowReadsBack | src/index.ts:97-101 | what libsvm reads as row `i` of the problem `feedSamples` built is the sparse form of `data[i]` |
| Binding.SVM.Train | src/index.ts:86-90 | without a parameter or problem handle nothing happens; otherwise the model handle is a fresh model on exactly those handles, and the parameter is destroyed |
| Binding.SVM.Predict | src/index.ts:92-95 | the engine's prediction for the sparse form of `data`; memory is as before apart from one scratch allocation and its release, so the live set is unchanged |

## Left out

- The numerics of libsvm (`svm_train`, `svm_predict`, `svm_predict_probability`, `svm_cross_validation`, `svm_save_model`) are uninterpreted functions.
- Libsvm.SvmCrossValidation, Libsvm.SvmSaveModel and the class count behind Libsvm.SvmPredictProbability take the problem, parameter or model handle itself, not its contents. Two cross-validations of one problem would give equal results even if the problem's data had changed in between.
- `malloc` returning NULL is not modelled. Memory.Heap.Alloc always succeeds, while `init_node`, `make_samples_internal` and `make_param` (libsvm-wasm.c:22, 57-61, 93) write through the result without a check.
- libsvm's own allocations inside a model, and what `svm_destroy_param` releases: only the events the shim causes are logged.
- The `svm.h` header and the library sources are not part of this model.
- Floating point: `double` is modelled as `real`.
- Shim.MakeParam: the `float` parameters are taken as exact reals. The narrowing of a JavaScript number to `float` at the call is not modelled.
- Contents of fresh memory: a node that `malloc` returns holds an unspecified value. The model starts from a default node, and the terminator's `value` is left as it was. No contract depends on it.
- C `int` and `size_t` overflow: Shim.InitNode, Shim.MakeSamplesInternal, Shim.MakeSamples, Shim.PredictOne and Shim.PredictOneWithProb require sizes whose `int` arithmetic does not overflow. They also require node counts whose `MALLOC` byte count (`n * sizeof(svm_node)`, 16 bytes per node, computed in the 32-bit `size_t` of wasm32) stays within `SIZE_MAX`, so at most `MaxNodes` = 2^28 - 1 nodes (libsvm-wasm.c:10, 22, 61). The same bound keeps the `double` and pointer arrays of `nb_feat` entries (lines 59-60) from wrapping. Binding.SVM.Predict and Binding.SVM.FeedSamples pass both bounds on to their callers. The wrap-around itself, and the undersized block it would allocate, are not modelled.
- Shim.MakeSamples requires `data` and `labels` to be long enough. The C function reads past them otherwise, which is undefined behaviour.
- Binding.SVM.FeedSamples: requires every row to be as long as the first and enough labels, as the shim assumes. The TypeScript code does not check this. Ragged rows would shift the row-major reads, and that case is not modelled.
- Binding.SVM.Predict: requires a trained model. Before `train`, the TypeScript code passes an undefined handle to the library, and that path is not modelled.
- Binding.SVM.constructor: the promise that loads the wasm module is taken as resolved, and `feedParam` as completed within the constructor. Interleavings of the `async` methods with the module load are not modelled.
- The conversion of JavaScript arrays and numbers to wasm pointers and C values by the generated glue is not modelled. `predict` and `feedSamples` pass JavaScript arrays where the shim expects `double *`, and the model passes the values directly.
- Params.SVMParam.constructor: `new SVMParam(null)` is not modelled. `typeof null` is `'object'`, so the check at src/index.ts:55 lets it through and `Object.keys(null)` at line 56 throws. `ParamArg.NotAnObject` stands only for values whose `typeof` is not `'object'`.
- `SVMParam` keys outside its fifteen fields, and values of another JavaScript type, are not modelled. A plain object passed to `SVM` instead of an `SVMParam` is also not modelled; its missing fields would be `undefined`.
- `feedSamples`, `feedParam` and `train` overwrite handles without releasing the previous problem, struct or model. The model shows this (the old handle is simply replaced) but proves nothing about it.
- The demo `main` in src/index.ts, example/index.ts, and the commented-out `load_model` in the C file are not modelled.
- The declaration file libsvm.d.ts is not modelled. It lists `make_param`'s `C` and `eps` in the opposite order to the C definition; the model follows the C definition.
- The `ISVMParam` interface has no `eps` key, but the constructor's loop copies every key it is given. The model follows the loop.
- `print_null` (an unused no-op) is not modelled.

## Findings

| source | as written | input that shows it | evidently intended | confidence | as-written member | corrected member |
|---|---|---|---|---|---|---|
| libsvm-wasm.c:122-127 | `free_sample` frees the labels, the row pointers and the struct, but not the node block that `make_samples_internal` allocated at line 61 | any problem from `make_samples`, e.g. one row of two features: after `free_sample` its block of 3 nodes stays allocated | free the node block too, reached through `samples->x[0]` when there is at least one row, but only once no model trained on the problem is live: libsvm's models point into the problem's rows | medium, not executed | Shim.MakeThenFreeSample | Shim.MakeThenFreeSampleWhole |
