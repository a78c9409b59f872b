/** The `SVM` class of the TypeScript wrapper (src/index.ts): it owns three
    handles into the wasm module's memory (a parameter struct, a problem, a
    model) and sets them by calling the shim. The engine is taken to be ready:
    every `await this.ready` has already resolved. */
module Binding {
  import opened Memory
  import opened Libsvm
  import opened Layout
  import opened Shim
  import opened Params

  /** `data.reduce((prev, curr) => prev.concat(curr), [])`: the rows one after
      another, as long as all rows together. */
  function Flatten(data: seq<seq<real>>): (r: seq<real>)
    ensures r == Concat(data)
    ensures |r| == TotalLength(data)
  {
    ConcatOntoAppends([], data);
    ConcatLength(data);
    ConcatOnto([], data)
  }

  /** The reduction: `prev` is what has been concatenated so far. */
  function ConcatOnto(prev: seq<real>, rest: seq<seq<real>>): seq<real>
    decreases |rest|
  {
    if rest == [] then prev else ConcatOnto(prev + rest[0], rest[1..])
  }

  /** The rows one after another, defined independently of the reduction. */
  function Concat(rows: seq<seq<real>>): seq<real>
  {
    if rows == [] then [] else rows[0] + Concat(rows[1..])
  }

  function TotalLength(rows: seq<seq<real>>): nat
  {
    if rows == [] then 0 else |rows[0]| + TotalLength(rows[1..])
  }

  /** The reduction concatenates the rows in order. */
  lemma {:induction false} ConcatOntoAppends(prev: seq<real>, rest: seq<seq<real>>)
    ensures ConcatOnto(prev, rest) == prev + Concat(rest)
    decreases |rest|
  {
    if rest != [] {
      ConcatOntoAppends(prev + rest[0], rest[1..]);
    }
  }

  lemma {:induction false} ConcatLength(rows: seq<seq<real>>)
    ensures |Concat(rows)| == TotalLength(rows)
  {
    if rows != [] {
      ConcatLength(rows[1..]);
    }
  }

  /** All rows as long as the first one, as the shim assumes of the matrix. */
  ghost predicate Rectangular(data: seq<seq<real>>)
  {
    forall i :: 0 <= i < |data| ==> |data[i]| == |data[0]|
  }

  lemma {:induction false} ConcatAt(rows: seq<seq<real>>, width: nat, i: nat, j: nat)
    requires forall r :: 0 <= r < |rows| ==> |rows[r]| == width
    requires i < |rows| && j < width
    ensures Cell(i, j, width) < |Concat(rows)| && Concat(rows)[Cell(i, j, width)] == rows[i][j]
  {
    if i == 0 {
      ConcatLength(rows);
      assert Concat(rows) == rows[0] + Concat(rows[1..]);
    } else {
      ConcatAt(rows[1..], width, i - 1, j);
      assert Cell(i, j, width) == width + Cell(i - 1, j, width);
    }
  }

  /** Row-major: feature `j` of row `i` lands at index `i * width + j` of the
      flattened buffer, where `width` is the length of the first row. */
  lemma FlattenAt(data: seq<seq<real>>, i: nat, j: nat)
    requires Rectangular(data) && i < |data| && j < |data[0]|
    ensures Cell(i, j, |data[0]|) < |Flatten(data)|
    ensures Flatten(data)[Cell(i, j, |data[0]|)] == data[i][j]
  {
    ConcatAt(data, |data[0]|, i, j);
  }

  /** The flattened buffer of a rectangular matrix holds `rows * width` values. */
  lemma {:induction false} RectangularLength(data: seq<seq<real>>)
    requires Rectangular(data) && data != []
    ensures TotalLength(data) == |data| * |data[0]|
  {
    var tail := data[1..];
    if tail != [] {
      assert Rectangular(tail) && |tail[0]| == |data[0]|;
      RectangularLength(tail);
    }
  }

  /** The C struct holds, field by field, the `SVMParam` field of the same name. */
  ghost predicate Mirrors(r: ParamRecord, c: Config)
  {
    && r.svmType == c.svmType.Code() && r.kernelType == c.kernelType.Code()
    && r.degree == c.degree && r.gamma == c.gamma && r.coef0 == c.coef0 && r.nu == c.nu
    && r.cacheSize == c.cacheSize && r.C == c.C && r.eps == c.eps && r.p == c.p
    && r.shrinking == c.shrinking && r.probability == c.probability && r.nrWeight == c.nrWeight
    && r.weightLabel == c.weightLabel && r.weight == c.weight
  }

  /** Nothing of the configuration is lost on the way to the C struct: one
      struct mirrors at most one configuration. */
  lemma MirrorsOne(r: ParamRecord, c1: Config, c2: Config)
    requires Mirrors(r, c1) && Mirrors(r, c2)
    ensures c1 == c2
  {
  }

  /** The problem `feedSamples` leaves behind: row `i` holds the features of
      `data[i]` at 1-based indices, then a terminator; label `i` is `labels[i]`. */
  ghost predicate Holds(s: Problem, data: seq<seq<real>>, labels: seq<real>)
    reads s, s.x, s.y, s.space
    requires data != [] && Shaped(s, |data|, |data[0]|)
  {
    var width := |data[0]|;
    && (forall i, j :: 0 <= i < |data| && 0 <= j < width ==>
          && 0 <= Slot(i, j, width) < s.space.Length
          && j < |data[i]|
          && s.space[Slot(i, j, width)] == SvmNode(j + 1, data[i][j]))
    && (forall i :: 0 <= i < |data| ==>
          0 <= Slot(i, width, width) < s.space.Length && s.space[Slot(i, width, width)].index == Terminator)
    && (forall i :: 0 <= i < |data| ==> i < |labels| && s.y[i] == labels[i])
  }

  /** How the promise of an `async` method settles. */
  datatype Outcome = Resolved | Rejected

  class SVM {
    var param: SVMParam
    var paramPointer: SvmParameter?
    var samplesPointer: Problem?
    var modelPointer: SvmModel?
    /** The wasm module's memory and its numeric results, shared by all instances. */
    const heap: Heap
    const engine: Engine

    /** Keeps a supplied `SVMParam` as it is, without merging defaults; only an
        absent one is replaced by `new SVMParam({})`. Then `feedParam`. */
    constructor (heap: Heap, engine: Engine, param: SVMParam?)
      modifies heap
      ensures this.heap == heap && this.engine == engine
      ensures param != null ==> this.param == param && param.Value() == old(param.Value())
      ensures param == null ==>
        && fresh(this.param) && fresh(this.param.defaultWeightLabel) && fresh(this.param.defaultWeight)
        && this.param.defaultWeightLabel.Length == 0 && this.param.defaultWeight.Length == 0
        && this.param.Value() == Configure(Object([]), Defaults(this.param.defaultWeightLabel, this.param.defaultWeight))
      ensures samplesPointer == null && modelPointer == null
      ensures paramPointer != null && fresh(paramPointer) && Mirrors(paramPointer.fields, this.param.Value())
      ensures heap.log == old(heap.log) + [Malloc(paramPointer)]
    {
      this.heap := heap;
      this.engine := engine;
      if param == null {
        this.param := new SVMParam(Object([]));
      } else {
        this.param := param;
      }
      paramPointer := null;
      samplesPointer := null;
      modelPointer := null;
      new;
      FeedParam();
    }

    /** `train`: when both the parameter and the problem handles are set, the
        model handle becomes a fresh model trained on them (and `train_model`
        destroys the parameter); otherwise nothing happens. No other handle changes. */
    method Train()
      modifies this`modelPointer, heap
      ensures paramPointer == null || samplesPointer == null ==>
        modelPointer == old(modelPointer) && heap.log == old(heap.log)
      ensures paramPointer != null && samplesPointer != null ==>
        && modelPointer != null && fresh(modelPointer)
        && modelPointer.problem == samplesPointer && modelPointer.param == paramPointer
        && heap.log == old(heap.log) + [Malloc(modelPointer), DestroyParam(paramPointer)]
    {
      if paramPointer == null || samplesPointer == null {
        return;
      }
      modelPointer := TrainModel(heap, samplesPointer, paramPointer);
    }

    /** `predict`: the engine's prediction for the sparse form of `data`, through
        a node buffer that is allocated and freed once within the call. */
    method Predict(data: seq<real>) returns (prediction: real, ghost scratch: array<SvmNode>)
      requires modelPointer != null && |data| < IntMax && |data| + 1 <= MaxNodes
      modifies heap
      ensures prediction == engine.predict(modelPointer, Sparse(data))
      ensures fresh(scratch) && heap.log == old(heap.log) + [Malloc(scratch), Free(scratch)]
      ensures Live(heap.log) == Live(old(heap.log))
    {
      assert data[..|data|] == data;
      prediction, scratch := PredictOne(heap, engine, modelPointer, data, |data|);
    }

    /** `feedSamples`: the features flattened row-major, then a problem of
        `data.length` rows of `data[0].length` features. With no rows,
        `data[0].length` throws before the shim is called. */
    method FeedSamples(data: seq<seq<real>>, labels: seq<real>) returns (outcome: Outcome)
      requires data != [] ==> Rectangular(data) && |data| <= |labels| && |data| * (|data[0]| + 1) <= IntMax
      requires data != [] ==> |data| * (|data[0]| + 1) <= MaxNodes
      modifies this`samplesPointer, heap
      ensures data == [] ==> outcome == Rejected && samplesPointer == old(samplesPointer) && heap.log == old(heap.log)
      ensures data != [] ==>
        && outcome == Resolved
        && samplesPointer != null && fresh(samplesPointer)
        && fresh(samplesPointer.y) && fresh(samplesPointer.x) && fresh(samplesPointer.space)
        && Shaped(samplesPointer, |data|, |data[0]|)
        && Holds(samplesPointer, data, labels)
        && heap.log == old(heap.log) + [Malloc(samplesPointer), Malloc(samplesPointer.y),
                                        Malloc(samplesPointer.x), Malloc(samplesPointer.space)]
    {
      var encodeData := Flatten(data);
      if data == [] {
        return Rejected;
      }
      var width := |data[0]|;
      RectangularLength(data);
      var samples := MakeSamples(heap, encodeData, labels, |data|, width);
      forall i, j | 0 <= i < |data| && 0 <= j < width
        ensures data[i][j] == encodeData[Cell(i, j, width)]
      {
        FlattenAt(data, i, j);
      }
      samplesPointer := samples;
      return Resolved;
    }

    /** `feedParam`: the parameter handle becomes a fresh C struct whose every
        field holds the `SVMParam` field of the same name. */
    method FeedParam()
      modifies this`paramPointer, heap
      ensures paramPointer != null && fresh(paramPointer)
      ensures Mirrors(paramPointer.fields, param.Value())
      ensures heap.log == old(heap.log) + [Malloc(paramPointer)]
    {
      var p := param;
      paramPointer := MakeParam(heap,
        p.svmType.Code(), p.kernelType.Code(), p.degree,
        p.gamma, p.coef0, p.nu, p.cacheSize, p.C, p.eps, p.p,
        p.shrinking, p.probability, p.nrWeight,
        p.weightLabel, p.weight);
    }
  }

  /** What libsvm reads as row `i` of the problem `feedSamples` built is the
      sparse form of `data[i]`. */
  lemma FedRowReadsBack(s: Problem, data: seq<seq<real>>, labels: seq<real>, i: nat)
    requires data != [] && Rectangular(data) && Shaped(s, |data|, |data[0]|) && Holds(s, data, labels)
    requires i < |data|
    ensures UntilTerminator(Row(s, i, |data[0]|)) == Sparse(data[i])
  {
    var width := |data[0]|;
    var start := Slot(i, 0, width);
    SlotInBlock(i, width, |data|, width);
    var row := s.space[start .. start + width + 1];
    assert row == Row(s, i, width);
    forall k | 0 <= k < width
      ensures row[k] == SvmNode(k + 1, data[i][k])
    {
      assert start + k == Slot(i, k, width);
    }
    assert start + width == Slot(i, width, width);
    ReadBack(row, data[i]);
  }
}
