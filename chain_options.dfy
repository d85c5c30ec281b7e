/**
 * Per-call options of a chain (chains/options.go). Each field that an option
 * can set has a companion "set" flag, so that an explicit setting can be told
 * apart from the zero value.
 */
module ChainOptions {
  import opened Opaque

  /** The value of the chainCallOption record, field by field. */
  datatype ChainCallOptionValue = ChainCallOptionValue(
    model: string, modelSet: bool,
    maxTokens: int, maxTokensSet: bool,
    temperature: Float64, temperatureSet: bool,
    stopWords: seq<string>, stopWordsSet: bool,
    streamingFunc: FuncRef,
    topK: int, topKSet: bool,
    topP: Float64, topPSet: bool,
    seed: int, seedSet: bool,
    minLength: int, minLengthSet: bool,
    maxLength: int, maxLengthSet: bool,
    repetitionPenalty: Float64, repetitionPenaltySet: bool,
    callbackHandler: FuncRef)

  /** Go's zero value of chainCallOption. */
  const Zero := ChainCallOptionValue(
    "", false, 0, false, Float64(0), false, [], false, NilFunc, 0, false,
    Float64(0), false, 0, false, 0, false, 0, false, Float64(0), false, NilFunc)

  /** The "set" flags other than modelSet are all false. */
  predicate OtherFlagsClear(v: ChainCallOptionValue) {
    && !v.maxTokensSet && !v.temperatureSet && !v.stopWordsSet && !v.topKSet
    && !v.topPSet && !v.seedSet && !v.minLengthSet && !v.maxLengthSet
    && !v.repetitionPenaltySet
  }

  /** The options this file defines, as the closures they return. */
  datatype ChainCallOption = WithModel(model: string) {

    /** What the closure does to the record it is applied to. */
    function ApplyTo(v: ChainCallOptionValue): ChainCallOptionValue {
      match this
      case WithModel(m) => v.(model := m, modelSet := true)
    }
  }

  /** Options applied left to right, as every consumer of a ChainCallOption list does. */
  function ApplyAll(v: ChainCallOptionValue, opts: seq<ChainCallOption>): ChainCallOptionValue
    decreases |opts|
  {
    if opts == [] then v else ApplyAll(opts[0].ApplyTo(v), opts[1..])
  }

  /** The record a ChainCallOption closure writes through its pointer. */
  class ChainCallOptions {
    var model: string
    var modelSet: bool
    var maxTokens: int
    var maxTokensSet: bool
    var temperature: Float64
    var temperatureSet: bool
    var stopWords: seq<string>
    var stopWordsSet: bool
    var streamingFunc: FuncRef
    var topK: int
    var topKSet: bool
    var topP: Float64
    var topPSet: bool
    var seed: int
    var seedSet: bool
    var minLength: int
    var minLengthSet: bool
    var maxLength: int
    var maxLengthSet: bool
    var repetitionPenalty: Float64
    var repetitionPenaltySet: bool
    var callbackHandler: FuncRef

    function Value(): ChainCallOptionValue
      reads this
    {
      ChainCallOptionValue(
        model, modelSet, maxTokens, maxTokensSet, temperature, temperatureSet,
        stopWords, stopWordsSet, streamingFunc, topK, topKSet, topP, topPSet,
        seed, seedSet, minLength, minLengthSet, maxLength, maxLengthSet,
        repetitionPenalty, repetitionPenaltySet, callbackHandler)
    }

    /** The composite literal chainCallOption{}. */
    constructor ()
      ensures Value() == Zero
    {
      model, modelSet := "", false;
      maxTokens, maxTokensSet := 0, false;
      temperature, temperatureSet := Float64(0), false;
      stopWords, stopWordsSet := [], false;
      streamingFunc := NilFunc;
      topK, topKSet := 0, false;
      topP, topPSet := Float64(0), false;
      seed, seedSet := 0, false;
      minLength, minLengthSet := 0, false;
      maxLength, maxLengthSet := 0, false;
      repetitionPenalty, repetitionPenaltySet := Float64(0), false;
      callbackHandler := NilFunc;
    }

    /** Calls the closure `opt` on this record. */
    method Apply(opt: ChainCallOption)
      modifies this
      ensures Value() == opt.ApplyTo(old(Value()))
    {
      match opt
      case WithModel(m) =>
        model := m;
        modelSet := true;
    }
  }

  /** The zero record has no flag set. */
  lemma ZeroHasNoFlagSet()
    ensures !Zero.modelSet && OtherFlagsClear(Zero)
  {
  }

  /** WithModel sets Model and modelSet; undoing those two writes gives back the record. */
  lemma WithModelSetsOnlyModel(v: ChainCallOptionValue, m: string)
    ensures WithModel(m).ApplyTo(v).model == m
    ensures WithModel(m).ApplyTo(v).modelSet
    ensures WithModel(m).ApplyTo(v).(model := v.model, modelSet := v.modelSet) == v
  {
  }

  /** A second WithModel overrides the first; the flag stays set. */
  lemma WithModelTwice(v: ChainCallOptionValue, m1: string, m2: string)
    ensures WithModel(m2).ApplyTo(WithModel(m1).ApplyTo(v)) == WithModel(m2).ApplyTo(v)
    ensures WithModel(m2).ApplyTo(WithModel(m1).ApplyTo(v)).modelSet
  {
  }

  /**
   * Starting from the zero record, modelSet is true exactly when some option
   * was applied, Model is then the last option's model, and every other flag
   * stays false.
   */
  lemma {:induction false} FlagMeansExplicit(v: ChainCallOptionValue, opts: seq<ChainCallOption>)
    requires v == Zero || (v.modelSet && OtherFlagsClear(v))
    ensures var r := ApplyAll(v, opts);
      && OtherFlagsClear(r)
      && (r.modelSet <==> v.modelSet || |opts| > 0)
      && (|opts| > 0 ==> r.model == opts[|opts| - 1].model)
      && r.(model := v.model, modelSet := v.modelSet) == v
    decreases |opts|
  {
    if opts != [] {
      var w := opts[0].ApplyTo(v);
      FlagMeansExplicit(w, opts[1..]);
    }
  }
}
