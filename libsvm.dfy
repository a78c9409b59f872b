/** The part of libsvm's interface (svm.h) that the shim touches: the sparse
    node, the problem and parameter structs, the opaque model, and the library
    calls. The library's numerics are not modelled: an `Engine` value gives the
    result of each numeric call as an uninterpreted function of its inputs, and
    the calls that allocate or release memory record that on the `Heap`. */
module Libsvm {
  import opened Memory

  /** The index that ends a sparse row. */
  const Terminator: int := -1

  /** `struct svm_node`: one (1-based feature index, value) entry of a sparse row. */
  datatype SvmNode = SvmNode(index: int, value: real)

  /** An `svm_node *`: a block and an offset into it (`space + offset`). The
      block is nullable because a freshly `malloc`ed pointer array holds
      unspecified pointers. */
  datatype NodePtr = NodePtr(block: array?<SvmNode>, offset: int)

  /** `struct svm_problem`: `l` samples, labels `y`, row pointers `x`. */
  class Problem {
    var l: int
    var y: array?<real>
    var x: array?<NodePtr>
    /** The node block that the row pointers point into; the C struct has no
        such field, the block is reachable only through `x`. */
    ghost var space: array?<SvmNode>

    /** A struct fresh from `malloc`: its fields are not yet set. */
    constructor ()
      ensures y == null && x == null && space == null
    {
      l := 0;
      y := null;
      x := null;
      space := null;
    }
  }

  /** The value of an `svm_parameter` struct, its fields in `make_param`'s order. */
  datatype ParamRecord = ParamRecord(
    svmType: int, kernelType: int, degree: int,
    gamma: real, coef0: real, nu: real, cacheSize: real, C: real, eps: real, p: real,
    shrinking: int, probability: int, nrWeight: int,
    weightLabel: array?<int>, weight: array?<real>)

  /** A block holding one `struct svm_parameter`, whose fields `make_param`
      writes one at a time. */
  class SvmParameter {
    var fields: ParamRecord

    /** A struct fresh from `malloc`: its fields are not yet set. */
    constructor ()
    {
      fields := ParamRecord(0, 0, 0, 0.0, 0.0, 0.0, 0.0, 0.0, 0.0, 0.0, 0, 0, 0, null, null);
    }
  }

  /** `struct svm_model`: opaque; it remembers which handles it was trained from. */
  class SvmModel {
    ghost const problem: Problem
    ghost const param: SvmParameter

    constructor (ghost problem: Problem, ghost param: SvmParameter)
      ensures this.problem == problem && this.param == param
    {
      this.problem := problem;
      this.param := param;
    }
  }

  /** The library's numeric results, as functions of what the library reads. */
  datatype Engine = Engine(
    /** `svm_predict` on a model and the entries of a sparse row before its terminator. */
    predict: (SvmModel, seq<SvmNode>) -> real,
    /** The prediction `svm_predict_probability` returns. */
    predictProbability: (SvmModel, seq<SvmNode>) -> real,
    /** The number of classes of a model (entries written to `prob_estimates`). */
    classes: SvmModel -> nat,
    /** The probability estimate `svm_predict_probability` writes for class `k`. */
    probability: (SvmModel, seq<SvmNode>, nat) -> real,
    /** The prediction `svm_cross_validation` writes for sample `i`, with `k` folds. */
    crossValidation: (Problem, SvmParameter, int, nat) -> real,
    /** The status `svm_save_model` returns for a model and a file name (0 or -1). */
    save: (SvmModel, string) -> int)

  /** The entries of a sparse row that libsvm reads: those before the first terminator. */
  function UntilTerminator(nodes: seq<SvmNode>): seq<SvmNode>
  {
    if nodes == [] || nodes[0].index == Terminator then []
    else [nodes[0]] + UntilTerminator(nodes[1..])
  }

  /** `svm_train`: allocates and returns a new model. */
  method SvmTrain(heap: Heap, problem: Problem, param: SvmParameter) returns (model: SvmModel)
    modifies heap
    ensures fresh(model) && model.problem == problem && model.param == param
    ensures heap.log == old(heap.log) + [Malloc(model)]
  {
    model := new SvmModel(problem, param);
    heap.NoteMalloc(model);
  }

  method SvmPredict(engine: Engine, model: SvmModel, x: array<SvmNode>) returns (prediction: real)
    ensures prediction == engine.predict(model, UntilTerminator(x[..]))
  {
    prediction := engine.predict(model, UntilTerminator(x[..]));
  }

  /** `svm_predict_probability`: the prediction, and one estimate per class written to
      the caller's buffer, which must hold at least that many. */
  method SvmPredictProbability(engine: Engine, model: SvmModel, x: array<SvmNode>, probEstimates: array<real>)
    returns (prediction: real)
    requires engine.classes(model) <= probEstimates.Length
    modifies probEstimates
    ensures prediction == engine.predictProbability(model, UntilTerminator(x[..]))
    ensures forall k :: 0 <= k < probEstimates.Length ==>
      probEstimates[k] == if k < engine.classes(model) then engine.probability(model, UntilTerminator(x[..]), k)
                          else old(probEstimates[k])
  {
    var row := UntilTerminator(x[..]);
    prediction := engine.predictProbability(model, row);
    forall k | 0 <= k < engine.classes(model) {
      probEstimates[k] := engine.probability(model, row, k);
    }
    assert x[..] == old(x[..]);
  }

  /** `svm_cross_validation`: one prediction per sample, written to `target`. */
  method SvmCrossValidation(engine: Engine, problem: Problem, param: SvmParameter, nrFold: int, target: array<real>)
    requires 0 <= problem.l <= target.Length
    modifies target
    ensures forall i :: 0 <= i < target.Length ==>
      target[i] == if i < problem.l then engine.crossValidation(problem, param, nrFold, i) else old(target[i])
  {
    forall i | 0 <= i < problem.l {
      target[i] := engine.crossValidation(problem, param, nrFold, i);
    }
  }

  method SvmSaveModel(engine: Engine, model: SvmModel, fileName: string) returns (status: int)
    ensures status == engine.save(model, fileName)
  {
    status := engine.save(model, fileName);
  }

  method SvmDestroyParam(heap: Heap, param: SvmParameter)
    modifies heap
    ensures heap.log == old(heap.log) + [DestroyParam(param)]
  {
    heap.NoteDestroyParam(param);
  }

  /** `svm_free_and_destroy_model`: releases the model. */
  method SvmFreeAndDestroyModel(heap: Heap, model: SvmModel)
    modifies heap
    ensures heap.log == old(heap.log) + [Free(model)]
  {
    heap.Release(model);
  }
}
