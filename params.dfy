/** `SVMParam` of the TypeScript wrapper (src/index.ts): a configuration object
    that starts from fixed defaults, takes every key of the caller's object in
    turn, and then derives `gamma` from the formulation when it was left at 0. */
module Params {

  datatype Option<T> = None | Some(value: T)

  /** `SVM_TYPE`: the SVM formulation; `Code` is the enum's numeric value. */
  datatype SvmType = CSvc | NuSvc | OneClass | EpsilonSvr | NuSvr
  {
    /** The codes run 0 to 4 in declaration order; the two regression
        formulations are 3 and 4. */
    function Code(): (r: int)
      ensures 0 <= r <= 4
      ensures IsRegression() <==> r >= 3
    {
      match this
      case CSvc => 0
      case NuSvc => 1
      case OneClass => 2
      case EpsilonSvr => 3
      case NuSvr => 4
    }

    predicate IsRegression()
    {
      this == EpsilonSvr || this == NuSvr
    }
  }

  /** `KERNEL_TYPE`: the kernel; `Code` is the enum's numeric value. */
  datatype KernelType = Linear | Poly | Rbf | Sigmoid | Precomputed
  {
    /** The codes run 0 to 4 in declaration order, the default RBF being 2. */
    function Code(): (r: int)
      ensures 0 <= r <= 4
      ensures r == 2 <==> this == Rbf
    {
      match this
      case Linear => 0
      case Poly => 1
      case Rbf => 2
      case Sigmoid => 3
      case Precomputed => 4
    }
  }

  /** The value of an `SVMParam` object: its fifteen fields. The weight arrays
      are JavaScript arrays, held by reference. */
  datatype Config = Config(
    svmType: SvmType, kernelType: KernelType, degree: int, gamma: real, coef0: real,
    cacheSize: real, C: real, nrWeight: int, weightLabel: array<int>, weight: array<real>,
    nu: real, p: real, eps: real, shrinking: int, probability: int)

  /** The keys of an `SVMParam`. */
  datatype Key =
    | SvmTypeKey | KernelTypeKey | DegreeKey | GammaKey | Coef0Key
    | CacheSizeKey | CKey | NrWeightKey | WeightLabelKey | WeightKey
    | NuKey | PKey | EpsKey | ShrinkingKey | ProbabilityKey

  /** One key of the caller's object together with its value. */
  datatype Setting =
    | SvmTypeIs(svmType: SvmType)
    | KernelTypeIs(kernelType: KernelType)
    | DegreeIs(degree: int)
    | GammaIs(gamma: real)
    | Coef0Is(coef0: real)
    | CacheSizeIs(cacheSize: real)
    | CIs(C: real)
    | NrWeightIs(nrWeight: int)
    | WeightLabelIs(weightLabel: array<int>)
    | WeightIs(weight: array<real>)
    | NuIs(nu: real)
    | PIs(p: real)
    | EpsIs(eps: real)
    | ShrinkingIs(shrinking: int)
    | ProbabilityIs(probability: int)
  {
    function Name(): Key
    {
      match this
      case SvmTypeIs(_) => SvmTypeKey
      case KernelTypeIs(_) => KernelTypeKey
      case DegreeIs(_) => DegreeKey
      case GammaIs(_) => GammaKey
      case Coef0Is(_) => Coef0Key
      case CacheSizeIs(_) => CacheSizeKey
      case CIs(_) => CKey
      case NrWeightIs(_) => NrWeightKey
      case WeightLabelIs(_) => WeightLabelKey
      case WeightIs(_) => WeightKey
      case NuIs(_) => NuKey
      case PIs(_) => PKey
      case EpsIs(_) => EpsKey
      case ShrinkingIs(_) => ShrinkingKey
      case ProbabilityIs(_) => ProbabilityKey
    }
  }

  /** The constructor's argument: something that is not an object, or an
      object given as its own keys with their values, in `Object.keys` order. */
  datatype ParamArg = NotAnObject | Object(settings: seq<Setting>)

  /** `this[key]` read as a setting. */
  function Get(c: Config, k: Key): (s: Setting)
    ensures s.Name() == k
  {
    match k
    case SvmTypeKey => SvmTypeIs(c.svmType)
    case KernelTypeKey => KernelTypeIs(c.kernelType)
    case DegreeKey => DegreeIs(c.degree)
    case GammaKey => GammaIs(c.gamma)
    case Coef0Key => Coef0Is(c.coef0)
    case CacheSizeKey => CacheSizeIs(c.cacheSize)
    case CKey => CIs(c.C)
    case NrWeightKey => NrWeightIs(c.nrWeight)
    case WeightLabelKey => WeightLabelIs(c.weightLabel)
    case WeightKey => WeightIs(c.weight)
    case NuKey => NuIs(c.nu)
    case PKey => PIs(c.p)
    case EpsKey => EpsIs(c.eps)
    case ShrinkingKey => ShrinkingIs(c.shrinking)
    case ProbabilityKey => ProbabilityIs(c.probability)
  }

  /** `this[key] = value`: the assigned key reads the value assigned and every
      other key reads as before. */
  function Set(c: Config, s: Setting): (r: Config)
    ensures Get(r, s.Name()) == s
    ensures forall k :: k != s.Name() ==> Get(r, k) == Get(c, k)
  {
    match s
    case SvmTypeIs(v) => c.(svmType := v)
    case KernelTypeIs(v) => c.(kernelType := v)
    case DegreeIs(v) => c.(degree := v)
    case GammaIs(v) => c.(gamma := v)
    case Coef0Is(v) => c.(coef0 := v)
    case CacheSizeIs(v) => c.(cacheSize := v)
    case CIs(v) => c.(C := v)
    case NrWeightIs(v) => c.(nrWeight := v)
    case WeightLabelIs(v) => c.(weightLabel := v)
    case WeightIs(v) => c.(weight := v)
    case NuIs(v) => c.(nu := v)
    case PIs(v) => c.(p := v)
    case EpsIs(v) => c.(eps := v)
    case ShrinkingIs(v) => c.(shrinking := v)
    case ProbabilityIs(v) => c.(probability := v)
  }

  /** The field initialisers of `SVMParam`; `[]` is a fresh empty array per object.
      `gamma` starts at the placeholder 0, which the constructor replaces by the
      value for the default formulation, C-SVC. */
  function Defaults(weightLabel: array<int>, weight: array<real>): (r: Config)
    ensures r.gamma == 0.0 && WithDerivedGamma(r).gamma == 0.5
    ensures r.nrWeight == 0 && r.weightLabel == weightLabel && r.weight == weight
  {
    Config(svmType := CSvc, kernelType := Rbf, degree := 3, gamma := 0.0, coef0 := 0.0,
           cacheSize := 100.0, C := 1.0, nrWeight := 0, weightLabel := weightLabel, weight := weight,
           nu := 0.5, p := 0.1, eps := 0.001, shrinking := 0, probability := 0)
  }

  /** The loop `for (const key of Object.keys(param)) this[key] = param[key]`:
      a key that no setting names keeps the value it had. */
  function Override(c: Config, settings: seq<Setting>): (r: Config)
    ensures forall k :: (forall s :: s in settings ==> s.Name() != k) ==> Get(r, k) == Get(c, k)
  {
    if settings == [] then c
    else Set(Override(c, settings[..|settings| - 1]), settings[|settings| - 1])
  }

  /** The last setting of key `k`, if the sequence has one. */
  function LastSetting(settings: seq<Setting>, k: Key): (r: Option<Setting>)
    ensures r.Some? ==> r.value.Name() == k
    ensures r.Some? ==> exists i :: 0 <= i < |settings| && settings[i] == r.value &&
                                    forall j :: i < j < |settings| ==> settings[j].Name() != k
    ensures r.None? <==> forall s :: s in settings ==> s.Name() != k
  {
    if settings == [] then None
    else if settings[|settings| - 1].Name() == k then Some(settings[|settings| - 1])
    else LastSetting(settings[..|settings| - 1], k)
  }

  /** After the loop, a key that the object has reads the object's (last) value
      for it; a key it lacks keeps the value it had before. */
  lemma {:induction false} OverrideGet(c: Config, settings: seq<Setting>, k: Key)
    ensures Get(Override(c, settings), k) ==
      match LastSetting(settings, k)
      case Some(s) => s
      case None => Get(c, k)
  {
    if settings != [] {
      var init := settings[..|settings| - 1];
      OverrideGet(c, init, k);
    }
  }

  /** The rule applied after the overrides: a `gamma` left at 0 becomes 0.1 for
      the regression formulations and 0.5 for the others; any other value stays. */
  function WithDerivedGamma(c: Config): (r: Config)
    ensures r.gamma != 0.0
    ensures c.gamma != 0.0 ==> r == c
    ensures c.gamma == 0.0 ==> r.gamma == if c.svmType.IsRegression() then 0.1 else 0.5
    ensures r == c.(gamma := r.gamma)
  {
    if c.svmType == EpsilonSvr || c.svmType == NuSvr then
      if c.gamma == 0.0 then c.(gamma := 0.1) else c
    else
      if c.gamma == 0.0 then c.(gamma := 0.5) else c
  }

  /** What the constructor makes of its argument, starting from `defaults`: a
      non-object leaves the defaults as they are, `gamma` included. */
  function Configure(arg: ParamArg, defaults: Config): (r: Config)
    ensures arg.NotAnObject? ==> r == defaults
    ensures arg.Object? ==> r.gamma != 0.0 && r == Override(defaults, arg.settings).(gamma := r.gamma)
  {
    match arg
    case NotAnObject => defaults
    case Object(settings) => WithDerivedGamma(Override(defaults, settings))
  }

  /** Every key but `gamma` of a configured object reads the caller's value for
      it when the caller gave one, and the default otherwise. */
  lemma {:induction false} ConfiguredKey(settings: seq<Setting>, defaults: Config, k: Key)
    requires k != GammaKey
    ensures Get(Configure(Object(settings), defaults), k) ==
      match LastSetting(settings, k)
      case Some(s) => s
      case None => Get(defaults, k)
  {
    OverrideGet(defaults, settings, k);
  }

  /** `gamma` of a configured object: the caller's value when it is not 0, and
      otherwise 0.1 or 0.5 according to the formulation the object ends up with. */
  lemma {:induction false} ConfiguredGamma(settings: seq<Setting>, defaults: Config)
    ensures var given := match LastSetting(settings, GammaKey)
                         case Some(s) => s.gamma
                         case None => defaults.gamma;
            var r := Configure(Object(settings), defaults);
            && (given != 0.0 ==> r.gamma == given)
            && (given == 0.0 && r.svmType.IsRegression() ==> r.gamma == 0.1)
            && (given == 0.0 && !r.svmType.IsRegression() ==> r.gamma == 0.5)
  {
    OverrideGet(defaults, settings, GammaKey);
  }

  /** `new SVMParam({})`, the configuration an `SVM` gets when given none: the
      defaults, with `gamma` derived for C-SVC. */
  lemma EmptyObjectConfig(weightLabel: array<int>, weight: array<real>)
    ensures Configure(Object([]), Defaults(weightLabel, weight)) ==
      Config(svmType := CSvc, kernelType := Rbf, degree := 3, gamma := 0.5, coef0 := 0.0,
             cacheSize := 100.0, C := 1.0, nrWeight := 0, weightLabel := weightLabel, weight := weight,
             nu := 0.5, p := 0.1, eps := 0.001, shrinking := 0, probability := 0)
  {
  }

  class SVMParam {
    var svmType: SvmType
    var kernelType: KernelType
    var degree: int
    var gamma: real
    var coef0: real
    var cacheSize: real
    var C: real
    var nrWeight: int
    var weightLabel: array<int>
    var weight: array<real>
    var nu: real
    var p: real
    var eps: real
    var shrinking: int
    var probability: int

    /** The empty arrays the field initialisers created. */
    ghost const defaultWeightLabel: array<int>
    ghost const defaultWeight: array<real>

    function Value(): Config
      reads this
    {
      Config(svmType, kernelType, degree, gamma, coef0, cacheSize, C, nrWeight, weightLabel, weight,
             nu, p, eps, shrinking, probability)
    }

    /** The defaults; then, for an object, each of its keys in turn, and the
        derived `gamma`. A non-object returns before both. */
    constructor (param: ParamArg)
      ensures fresh(defaultWeightLabel) && defaultWeightLabel.Length == 0
      ensures fresh(defaultWeight) && defaultWeight.Length == 0
      ensures Value() == Configure(param, Defaults(defaultWeightLabel, defaultWeight))
    {
      var noLabels := new int[0];
      var noWeights := new real[0];
      svmType, kernelType, degree, gamma, coef0 := CSvc, Rbf, 3, 0.0, 0.0;
      cacheSize, C, nrWeight, weightLabel, weight := 100.0, 1.0, 0, noLabels, noWeights;
      nu, p, eps, shrinking, probability := 0.5, 0.1, 0.001, 0, 0;
      defaultWeightLabel, defaultWeight := noLabels, noWeights;
      new;
      if param.Object? {
        var settings := param.settings;
        for i := 0 to |settings|
          invariant Value() == Override(Defaults(defaultWeightLabel, defaultWeight), settings[..i])
        {
          assert settings[..i + 1][..i] == settings[..i];
          Assign(settings[i]);
        }
        assert settings[..|settings|] == settings;
        DeriveGamma();
      }
    }

    /** The end of the constructor: a `gamma` left at 0 becomes 0.1 for the
        regression formulations and 0.5 for the others. */
    method DeriveGamma()
      modifies this
      ensures Value() == WithDerivedGamma(old(Value()))
    {
      if svmType == EpsilonSvr || svmType == NuSvr {
        if gamma == 0.0 {
          gamma := 0.1;
        }
      } else {
        if gamma == 0.0 {
          gamma := 0.5;
        }
      }
    }

    /** `this[key] = value` for one key of the caller's object. */
    method Assign(s: Setting)
      modifies this
      ensures Value() == Set(old(Value()), s)
    {
      ghost var before := Value();
      match s
      case SvmTypeIs(v) =>
        svmType := v;
        assert Value() == before.(svmType := v);
      case KernelTypeIs(v) =>
        kernelType := v;
        assert Value() == before.(kernelType := v);
      case DegreeIs(v) =>
        degree := v;
        assert Value() == before.(degree := v);
      case GammaIs(v) =>
        gamma := v;
        assert Value() == before.(gamma := v);
      case Coef0Is(v) =>
        coef0 := v;
        assert Value() == before.(coef0 := v);
      case CacheSizeIs(v) =>
        cacheSize := v;
        assert Value() == before.(cacheSize := v);
      case CIs(v) =>
        C := v;
        assert Value() == before.(C := v);
      case NrWeightIs(v) =>
        nrWeight := v;
        assert Value() == before.(nrWeight := v);
      case WeightLabelIs(v) =>
        weightLabel := v;
        assert Value() == before.(weightLabel := v);
      case WeightIs(v) =>
        weight := v;
        assert Value() == before.(weight := v);
      case NuIs(v) =>
        nu := v;
        assert Value() == before.(nu := v);
      case PIs(v) =>
        p := v;
        assert Value() == before.(p := v);
      case EpsIs(v) =>
        eps := v;
        assert Value() == before.(eps := v);
      case ShrinkingIs(v) =>
        shrinking := v;
        assert Value() == before.(shrinking := v);
      case ProbabilityIs(v) =>
        probability := v;
        assert Value() == before.(probability := v);
    }
  }
}
