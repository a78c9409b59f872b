/** The C shim compiled into the wasm module (libsvm-wasm.c): it turns dense,
    row-major buffers into libsvm's sparse node arrays, builds parameter
    structs, and wraps the library calls with their allocations and releases. */
module Shim {
  import opened Memory
  import opened Libsvm
  import opened Layout

  /** Largest C `int`; the shim computes sizes and offsets in `int`. */
  const IntMax: int := 0x7fff_ffff

  /** Largest `size_t` on the 32-bit wasm target: `MALLOC` computes its byte
      count `n * sizeof(type)` in `size_t`, and a count beyond this wraps. */
  const SizeMax: int := 0xffff_ffff

  /** `sizeof(svm_node)`: an `int` index padded to 8 bytes, then a `double`.
      It is the largest element size the shim allocates, so a node count whose
      byte count fits also keeps the `double` and pointer arrays of the same
      count from wrapping. */
  const NodeSize: int := 16

  /** The most nodes one `MALLOC` can ask for without its byte count wrapping:
      `n * NodeSize <= SizeMax` exactly when `n <= MaxNodes`. */
  const MaxNodes: int := SizeMax / NodeSize

  /** `init_node`: a fresh block of `size + 1` nodes holding the sparse form of
      the first `size` values of `data`, then a terminator. */
  method InitNode(heap: Heap, data: seq<real>, size: int) returns (node: array<SvmNode>)
    requires 0 <= size <= |data| && size < IntMax && size + 1 <= MaxNodes
    modifies heap
    ensures fresh(node)
    ensures heap.log == old(heap.log) + [Malloc(node)]
    ensures EncodesRow(node[..], data[..size])
  {
    node := heap.Alloc<SvmNode>(size + 1);
    for i := 0 to size
      modifies node
      invariant forall k :: 0 <= k < i ==> node[k] == SvmNode(k + 1, data[k])
    {
      node[i] := SvmNode(i + 1, data[i]);
    }
    node[size] := node[size].(index := Terminator);
  }

  /** `save_model`: true exactly when libsvm's status is not negative. */
  method SaveModel(engine: Engine, model: SvmModel, modelFileName: string) returns (success: bool)
    ensures success <==> engine.save(model, modelFileName) >= 0
  {
    var status := SvmSaveModel(engine, model, modelFileName);
    if status < 0 {
      return false;
    }
    return true;
  }

  /** `free_model`: hands the model to libsvm to be released. */
  method FreeModel(heap: Heap, model: SvmModel)
    modifies heap
    ensures heap.log == old(heap.log) + [Free(model)]
  {
    SvmFreeAndDestroyModel(heap, model);
  }

  /** The shape `make_samples_internal` gives a problem: `nbFeat` labels and row
      pointers, and row `i` starting at slot `i * (nbDim + 1)` of one node block. */
  ghost predicate Shaped(s: Problem, nbFeat: int, nbDim: int)
    reads s, s.x
  {
    && s.l == nbFeat
    && s.y != null && s.x != null && s.space != null
    && s.y.Length == nbFeat && s.x.Length == nbFeat
    && s.space.Length == nbFeat * (nbDim + 1)
    && forall i :: 0 <= i < nbFeat ==> s.x[i] == NodePtr(s.space, Slot(i, 0, nbDim))
  }

  /** The contents `make_samples` writes: entry `j` of row `i` is feature `j + 1`
      with value `data[i * nbDim + j]`, each row ends with a terminator, and
      label `i` is `labels[i]`. */
  ghost predicate Encodes(s: Problem, data: seq<real>, labels: seq<real>, nbDim: int)
    reads s, s.y, s.space
    requires s.y != null && s.space != null
  {
    && (forall i, j :: 0 <= i < s.l && 0 <= j < nbDim ==>
          && 0 <= Cell(i, j, nbDim) < |data|
          && 0 <= Slot(i, j, nbDim) < s.space.Length
          && s.space[Slot(i, j, nbDim)] == SvmNode(j + 1, data[Cell(i, j, nbDim)]))
    && (forall i :: 0 <= i < s.l ==>
          0 <= Slot(i, nbDim, nbDim) < s.space.Length && s.space[Slot(i, nbDim, nbDim)].index == Terminator)
    && (forall i :: 0 <= i < s.l ==> i < s.y.Length && i < |labels| && s.y[i] == labels[i])
  }

  /** The `nbDim + 1` nodes that row pointer `x[i]` points at. */
  ghost function Row(s: Problem, i: int, nbDim: int): seq<SvmNode>
    reads s, s.x, s.space
    requires 0 <= nbDim && Shaped(s, s.l, nbDim) && 0 <= i < s.l
  {
    SlotInBlock(i, nbDim, s.l, nbDim);
    var p := s.x[i];
    p.block[p.offset .. p.offset + nbDim + 1]
  }

  /** `make_samples_internal`: allocates the struct, the labels, the row
      pointers and one node block, and points row `i` at slot `i * (nbDim + 1)`. */
  method MakeSamplesInternal(heap: Heap, nbFeat: int, nbDim: int) returns (sample: Problem)
    requires 0 <= nbFeat && 0 <= nbDim && nbFeat * (nbDim + 1) <= IntMax
    requires nbFeat * (nbDim + 1) <= MaxNodes
    modifies heap
    ensures fresh(sample) && fresh(sample.y) && fresh(sample.x) && fresh(sample.space)
    ensures Shaped(sample, nbFeat, nbDim)
    ensures heap.log == old(heap.log) + [Malloc(sample), Malloc(sample.y), Malloc(sample.x), Malloc(sample.space)]
  {
    sample := new Problem();
    heap.NoteMalloc(sample);
    sample.l := nbFeat;
    sample.y := heap.Alloc<real>(nbFeat);
    var x := heap.Alloc<NodePtr>(nbFeat);
    sample.x := x;
    var space := heap.Alloc<SvmNode>(nbFeat * (nbDim + 1));
    sample.space := space;
    for i := 0 to nbFeat
      modifies x
      invariant forall k :: 0 <= k < i ==> x[k] == NodePtr(space, Slot(k, 0, nbDim))
    {
      x[i] := NodePtr(space, i * (nbDim + 1));
    }
  }

  /** `make_samples`: a problem of `nbFeat` rows whose row `i` encodes the
      values `data[i * nbDim .. (i + 1) * nbDim]` and whose label `i` is `labels[i]`. */
  method MakeSamples(heap: Heap, data: seq<real>, labels: seq<real>, nbFeat: int, nbDim: int)
    returns (samples: Problem)
    requires 0 <= nbFeat && 0 <= nbDim && nbFeat * (nbDim + 1) <= IntMax
    requires nbFeat * (nbDim + 1) <= MaxNodes
    requires nbFeat * nbDim <= |data| && nbFeat <= |labels|
    modifies heap
    ensures fresh(samples) && fresh(samples.y) && fresh(samples.x) && fresh(samples.space)
    ensures Shaped(samples, nbFeat, nbDim) && Encodes(samples, data, labels, nbDim)
    ensures heap.log == old(heap.log) + [Malloc(samples), Malloc(samples.y), Malloc(samples.x), Malloc(samples.space)]
  {
    samples := MakeSamplesInternal(heap, nbFeat, nbDim);
    var x, y := samples.x, samples.y;
    ghost var space := samples.space;
    for i := 0 to nbFeat
      modifies space, y
      invariant forall i1, j1 :: 0 <= i1 < i && 0 <= j1 < nbDim ==>
        && 0 <= Cell(i1, j1, nbDim) < |data|
        && 0 <= Slot(i1, j1, nbDim) < space.Length
        && space[Slot(i1, j1, nbDim)] == SvmNode(j1 + 1, data[Cell(i1, j1, nbDim)])
      invariant forall i1 :: 0 <= i1 < i ==>
        0 <= Slot(i1, nbDim, nbDim) < space.Length && space[Slot(i1, nbDim, nbDim)].index == Terminator
      invariant forall i1 :: 0 <= i1 < i ==> y[i1] == labels[i1]
    {
      for j := 0 to nbDim
        modifies space
        invariant forall i1, j1 :: 0 <= i1 < i && 0 <= j1 < nbDim ==>
          && 0 <= Cell(i1, j1, nbDim) < |data|
          && 0 <= Slot(i1, j1, nbDim) < space.Length
          && space[Slot(i1, j1, nbDim)] == SvmNode(j1 + 1, data[Cell(i1, j1, nbDim)])
        invariant forall i1 :: 0 <= i1 < i ==>
          0 <= Slot(i1, nbDim, nbDim) < space.Length && space[Slot(i1, nbDim, nbDim)].index == Terminator
        invariant forall j1 :: 0 <= j1 < j ==>
          && 0 <= Cell(i, j1, nbDim) < |data|
          && 0 <= Slot(i, j1, nbDim) < space.Length
          && space[Slot(i, j1, nbDim)] == SvmNode(j1 + 1, data[Cell(i, j1, nbDim)])
      {
        SlotInBlock(i, j, nbFeat, nbDim);
        CellInData(i, j, nbFeat, nbDim);
        SlotApart(i, j, nbDim);
        var row := x[i];
        row.block[row.offset + j] := SvmNode(j + 1, data[i * nbDim + j]);
      }
      SlotInBlock(i, nbDim, nbFeat, nbDim);
      SlotApart(i, nbDim, nbDim);
      var row := x[i];
      row.block[row.offset + nbDim] := row.block[row.offset + nbDim].(index := Terminator);
      y[i] := labels[i];
    }
  }

  /** What libsvm reads as row `i` of a problem built by `make_samples` is the
      sparse form of sample `i`'s `nbDim` features. */
  lemma RowReadsBack(s: Problem, data: seq<real>, labels: seq<real>, nbDim: int, i: int)
    requires 0 <= nbDim && Shaped(s, s.l, nbDim) && Encodes(s, data, labels, nbDim) && 0 <= i < s.l
    ensures Cell(i, 0, nbDim) + nbDim <= |data|
    ensures EncodesRow(Row(s, i, nbDim), data[Cell(i, 0, nbDim) .. Cell(i, 0, nbDim) + nbDim])
    ensures UntilTerminator(Row(s, i, nbDim)) == Sparse(data[Cell(i, 0, nbDim) .. Cell(i, 0, nbDim) + nbDim])
  {
    if nbDim > 0 {
      assert Cell(i, nbDim - 1, nbDim) < |data|;
    }
    var v := data[Cell(i, 0, nbDim) .. Cell(i, 0, nbDim) + nbDim];
    var row := Row(s, i, nbDim);
    forall k | 0 <= k < nbDim
      ensures row[k] == SvmNode(k + 1, v[k])
    {
      assert Slot(i, 0, nbDim) + k == Slot(i, k, nbDim);
      assert Cell(i, 0, nbDim) + k == Cell(i, k, nbDim);
    }
    assert Slot(i, 0, nbDim) + nbDim == Slot(i, nbDim, nbDim);
    ReadBack(row, v);
  }

  /** `make_param`: a fresh struct whose fields are the arguments, the weight
      arrays stored by reference, not copied. */
  method MakeParam(heap: Heap,
                   svmType: int, kernelType: int, degree: int, gamma: real,
                   coef0: real, nu: real, cacheSize: real, C: real, eps: real,
                   p: real, shrinking: int, probability: int, nrWeight: int,
                   weightLabel: array?<int>, weight: array?<real>)
    returns (param: SvmParameter)
    modifies heap
    ensures fresh(param)
    ensures heap.log == old(heap.log) + [Malloc(param)]
    ensures param.fields == ParamRecord(svmType, kernelType, degree, gamma, coef0, nu, cacheSize, C, eps,
                                        p, shrinking, probability, nrWeight, weightLabel, weight)
  {
    param := new SvmParameter();
    heap.NoteMalloc(param);
    param.fields := param.fields.(svmType := svmType);
    param.fields := param.fields.(kernelType := kernelType);
    param.fields := param.fields.(degree := degree);
    param.fields := param.fields.(gamma := gamma);
    param.fields := param.fields.(coef0 := coef0);
    param.fields := param.fields.(nu := nu);
    param.fields := param.fields.(cacheSize := cacheSize);
    param.fields := param.fields.(C := C);
    param.fields := param.fields.(eps := eps);
    param.fields := param.fields.(p := p);
    param.fields := param.fields.(shrinking := shrinking);
    param.fields := param.fields.(probability := probability);
    param.fields := param.fields.(nrWeight := nrWeight);
    param.fields := param.fields.(weightLabel := weightLabel);
    param.fields := param.fields.(weight := weight);
  }

  /** `train_model`: trains a new model, then destroys the parameter. */
  method TrainModel(heap: Heap, samples: Problem, param: SvmParameter) returns (model: SvmModel)
    modifies heap
    ensures fresh(model) && model.problem == samples && model.param == param
    ensures heap.log == old(heap.log) + [Malloc(model), DestroyParam(param)]
  {
    model := SvmTrain(heap, samples, param);
    SvmDestroyParam(heap, param);
  }

  /** `free_sample`: frees the labels, the row pointers and the struct, in that
      order; the node block the rows point into is not freed. */
  method FreeSample(heap: Heap, samples: Problem)
    modifies heap
    ensures heap.log == old(heap.log) + Freed(samples.y) + Freed(samples.x) + [Free(samples)]
  {
    heap.Release(samples.y);
    heap.Release(samples.x);
    heap.Release(samples);
  }

  /** The four allocations of `make_samples_internal` add exactly their blocks
      to the live set. */
  lemma LiveStepsMallocs(log: seq<Event>, s: object, y: object, x: object, space: object)
    ensures Live(log + [Malloc(s), Malloc(y), Malloc(x), Malloc(space)]) == Live(log) + {s, y, x, space}
  {
    var l0 := log + [Malloc(s)];
    var l1 := l0 + [Malloc(y)];
    var l2 := l1 + [Malloc(x)];
    LiveSnoc(log, Malloc(s));
    LiveSnoc(l0, Malloc(y));
    LiveSnoc(l1, Malloc(x));
    LiveSnoc(l2, Malloc(space));
    assert l2 + [Malloc(space)] == log + [Malloc(s), Malloc(y), Malloc(x), Malloc(space)];
  }

  /** A problem built by `make_samples` and then released by `free_sample`
      leaves its node block allocated: the live set grows by that block. */
  lemma FreeSampleLeaksBlock(log: seq<Event>, s: object, y: object, x: object, space: object)
    requires s != y && s != x && s != space && y != x && y != space && x != space
    requires s !in Live(log) && y !in Live(log) && x !in Live(log) && space !in Live(log)
    ensures Live(log + [Malloc(s), Malloc(y), Malloc(x), Malloc(space)] + [Free(y), Free(x), Free(s)])
         == Live(log) + {space}
  {
    var l0 := log + [Malloc(s)];
    var l1 := l0 + [Malloc(y)];
    var l2 := l1 + [Malloc(x)];
    var l3 := l2 + [Malloc(space)];
    var l4 := l3 + [Free(y)];
    var l5 := l4 + [Free(x)];
    LiveSnoc(log, Malloc(s));
    LiveSnoc(l0, Malloc(y));
    LiveSnoc(l1, Malloc(x));
    LiveSnoc(l2, Malloc(space));
    LiveSnoc(l3, Free(y));
    LiveSnoc(l4, Free(x));
    LiveSnoc(l5, Free(s));
    assert l5 + [Free(s)] == log + [Malloc(s), Malloc(y), Malloc(x), Malloc(space)] + [Free(y), Free(x), Free(s)];
  }

  /** `free_sample` as evidently intended: the node block, which row pointer 0
      points at, is freed as well. With no rows there is no row pointer to
      reach it through, and the block is released only when there is one.
      libsvm's models point into the rows of the problem they were trained on,
      so the block may go only when no live model was trained on this problem. */
  method FreeSampleWhole(heap: Heap, samples: Problem, ghost nbDim: int)
    requires 0 <= nbDim && Shaped(samples, samples.l, nbDim)
    requires forall m: SvmModel :: m in Live(heap.log) ==> m.problem != samples
    modifies heap
    ensures samples.l > 0 ==>
      heap.log == old(heap.log) + [Free(samples.space), Free(samples.y), Free(samples.x), Free(samples)]
    ensures samples.l <= 0 ==>
      heap.log == old(heap.log) + [Free(samples.y), Free(samples.x), Free(samples)]
  {
    if samples.l > 0 {
      heap.Release(samples.x[0].block);
    }
    heap.Release(samples.y);
    heap.Release(samples.x);
    heap.Release(samples);
  }

  /** With the block freed too, building a problem and releasing it leaves
      the live set as it was. */
  lemma FreeSampleWholeReleasesAll(log: seq<Event>, s: object, y: object, x: object, space: object)
    requires s != y && s != x && s != space && y != x && y != space && x != space
    requires s !in Live(log) && y !in Live(log) && x !in Live(log) && space !in Live(log)
    ensures Live(log + [Malloc(s), Malloc(y), Malloc(x), Malloc(space)] + [Free(space), Free(y), Free(x), Free(s)])
         == Live(log)
  {
    var l0 := log + [Malloc(s)];
    var l1 := l0 + [Malloc(y)];
    var l2 := l1 + [Malloc(x)];
    var l3 := l2 + [Malloc(space)];
    var m0 := l3 + [Free(space)];
    var m1 := m0 + [Free(y)];
    var m2 := m1 + [Free(x)];
    LiveSnoc(log, Malloc(s));
    LiveSnoc(l0, Malloc(y));
    LiveSnoc(l1, Malloc(x));
    LiveSnoc(l2, Malloc(space));
    LiveSnoc(l3, Free(space));
    LiveSnoc(m0, Free(y));
    LiveSnoc(m1, Free(x));
    LiveSnoc(m2, Free(s));
    assert m2 + [Free(s)] == log + [Malloc(s), Malloc(y), Malloc(x), Malloc(space)] + [Free(space), Free(y), Free(x), Free(s)];
  }

  /** `make_samples` and then `free_sample` on the problem it returns, as
      written: the memory that stays allocated afterwards is exactly the node
      block. */
  method MakeThenFreeSample(heap: Heap, data: seq<real>, labels: seq<real>, nbFeat: int, nbDim: int)
    returns (ghost leaked: array<SvmNode>)
    requires 0 <= nbFeat && 0 <= nbDim && nbFeat * (nbDim + 1) <= IntMax
    requires nbFeat * (nbDim + 1) <= MaxNodes
    requires nbFeat * nbDim <= |data| && nbFeat <= |labels|
    modifies heap
    ensures fresh(leaked) && leaked.Length == nbFeat * (nbDim + 1)
    ensures Live(heap.log) == Live(old(heap.log)) + {leaked}
  {
    var samples := MakeSamples(heap, data, labels, nbFeat, nbDim);
    FreeSample(heap, samples);
    leaked := samples.space;
    LiveMalloced(old(heap.log), samples);
    LiveMalloced(old(heap.log), samples.y);
    LiveMalloced(old(heap.log), samples.x);
    LiveMalloced(old(heap.log), samples.space);
    assert heap.log == old(heap.log) + [Malloc(samples), Malloc(samples.y), Malloc(samples.x), Malloc(samples.space)]
                                     + [Free(samples.y), Free(samples.x), Free(samples)];
    FreeSampleLeaksBlock(old(heap.log), samples, samples.y, samples.x, samples.space);
  }

  /** `make_samples` and then the corrected release: with at least one row,
      nothing the pair allocated stays allocated; with none, the node block
      (a `malloc` of zero nodes) does. */
  method MakeThenFreeSampleWhole(heap: Heap, data: seq<real>, labels: seq<real>, nbFeat: int, nbDim: int)
    returns (ghost space: array<SvmNode>)
    requires 0 <= nbFeat && 0 <= nbDim && nbFeat * (nbDim + 1) <= IntMax
    requires nbFeat * (nbDim + 1) <= MaxNodes
    requires nbFeat * nbDim <= |data| && nbFeat <= |labels|
    modifies heap
    ensures fresh(space)
    ensures nbFeat > 0 ==> Live(heap.log) == Live(old(heap.log))
    ensures nbFeat == 0 ==> Live(heap.log) == Live(old(heap.log)) + {space}
  {
    var samples := MakeSamples(heap, data, labels, nbFeat, nbDim);
    space := samples.space;
    LiveMalloced(old(heap.log), samples);
    LiveMalloced(old(heap.log), samples.y);
    LiveMalloced(old(heap.log), samples.x);
    LiveMalloced(old(heap.log), samples.space);
    ghost var built := heap.log;
    forall m: SvmModel | m in Live(built)
      ensures m.problem != samples
    {
      LiveStepsMallocs(old(heap.log), samples, samples.y, samples.x, samples.space);
      LiveMalloced(old(heap.log), m);
    }
    FreeSampleWhole(heap, samples, nbDim);
    if nbFeat > 0 {
      FreeSampleWholeReleasesAll(old(heap.log), samples, samples.y, samples.x, samples.space);
    } else {
      assert heap.log == old(heap.log) + [Malloc(samples), Malloc(samples.y), Malloc(samples.x), Malloc(samples.space)]
                                       + [Free(samples.y), Free(samples.x), Free(samples)];
      FreeSampleLeaksBlock(old(heap.log), samples, samples.y, samples.x, samples.space);
    }
  }

  /** `cross_valid_model`: `kFold`-fold cross-validation into `target`, then
      the parameter is destroyed. */
  method CrossValidModel(heap: Heap, engine: Engine, samples: Problem, param: SvmParameter, kFold: int,
                         target: array<real>)
    requires 0 <= samples.l <= target.Length
    modifies heap, target
    ensures forall i :: 0 <= i < target.Length ==>
      target[i] == if i < samples.l then engine.crossValidation(samples, param, kFold, i) else old(target[i])
    ensures heap.log == old(heap.log) + [DestroyParam(param)]
  {
    SvmCrossValidation(engine, samples, param, kFold, target);
    SvmDestroyParam(heap, param);
  }

  /** `predict_one`: the prediction for the first `size` values of `data`,
      through a node buffer allocated for the call and freed once before returning. */
  method PredictOne(heap: Heap, engine: Engine, model: SvmModel, data: seq<real>, size: int)
    returns (pred: real, ghost node: array<SvmNode>)
    requires 0 <= size <= |data| && size < IntMax && size + 1 <= MaxNodes
    modifies heap
    ensures pred == engine.predict(model, Sparse(data[..size]))
    ensures fresh(node) && heap.log == old(heap.log) + [Malloc(node), Free(node)]
    ensures Live(heap.log) == Live(old(heap.log))
  {
    var buf := InitNode(heap, data, size);
    node := buf;
    LiveMalloced(old(heap.log), buf);
    ScratchLeavesLiveUnchanged(old(heap.log), buf);
    ReadBack(buf[..], data[..size]);
    pred := SvmPredict(engine, model, buf);
    heap.Release(buf);
  }

  /** `predict_one_with_prob`: as `predict_one`, the probability estimates
      written to the caller's buffer. */
  method PredictOneWithProb(heap: Heap, engine: Engine, model: SvmModel, data: seq<real>, size: int,
                            probEstimates: array<real>)
    returns (pred: real, ghost node: array<SvmNode>)
    requires 0 <= size <= |data| && size < IntMax && size + 1 <= MaxNodes
    requires engine.classes(model) <= probEstimates.Length
    modifies heap, probEstimates
    ensures pred == engine.predictProbability(model, Sparse(data[..size]))
    ensures forall k :: 0 <= k < probEstimates.Length ==>
      probEstimates[k] == if k < engine.classes(model) then engine.probability(model, Sparse(data[..size]), k)
                          else old(probEstimates[k])
    ensures fresh(node) && heap.log == old(heap.log) + [Malloc(node), Free(node)]
    ensures Live(heap.log) == Live(old(heap.log))
  {
    var buf := InitNode(heap, data, size);
    node := buf;
    LiveMalloced(old(heap.log), buf);
    ScratchLeavesLiveUnchanged(old(heap.log), buf);
    ReadBack(buf[..], data[..size]);
    pred := SvmPredictProbability(engine, model, buf, probEstimates);
    heap.Release(buf);
  }
}
