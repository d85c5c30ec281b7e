/**
 * The chain invocation pipeline (chains/chains.go): every chain is called
 * through Call, which merges memory into the inputs, validates the declared
 * input and output keys around the chain's own logic, notifies the callbacks
 * handler and persists the turn to memory. Run is the single-input,
 * single-string-output entry point on top of it.
 */
module Chains {
  import opened Wrappers
  import opened Schema
  import ChainOptions

  /** The memory a chain carries: its variable names, and its read and write operations. */
  datatype Memory = Memory(
    variables: seq<string>,                            // MemoryVariables
    load: Values -> Result<Values, Error>,             // LoadMemoryVariables(inputs)
    save: (Values, Option<Values>) -> Option<Error>)   // SaveContext(inputs, outputs)

  /** Go's (map[string]any, error) pair; a nil map is None. */
  datatype Reply = Reply(values: Option<Values>, err: Option<Error>)

  /** A chain: its declared keys, its memory, whether it has a callbacks handler, and its own logic. */
  datatype Chain = Chain(
    inputKeys: seq<string>,
    outputKeys: seq<string>,
    memory: Memory,
    hasHandler: bool,
    body: (Values, seq<ChainOptions.ChainCallOption>) -> Reply)

  /** The result of an invocation together with the trace of what it did. */
  datatype Outcome = Outcome(values: Option<Values>, err: Option<Error>, trace: seq<Event>)

  /** `_, ok := m[k]` on a map that may be nil. */
  predicate Has(m: Option<Values>, k: string) {
    m.Some? && k in m.value
  }

  /** `v := m[k]` with `ok`, on a map that may be nil. */
  function Lookup(m: Option<Values>, k: string): (r: Option<Value>)
    ensures r.Some? <==> Has(m, k)
  {
    if Has(m, k) then Some(m.value[k]) else None
  }

  /** The first declared key, in declared order, that the map lacks. */
  function FirstMissing(keys: seq<string>, m: Option<Values>): Option<string>
    decreases |keys|
  {
    if keys == [] then None
    else if !Has(m, keys[0]) then Some(keys[0])
    else FirstMissing(keys[1..], m)
  }

  /** FirstMissing finds nothing exactly when every key is present, and otherwise the earliest absent one. */
  lemma {:induction false} FirstMissingIsFirst(keys: seq<string>, m: Option<Values>)
    ensures FirstMissing(keys, m).None? <==> forall k :: k in keys ==> Has(m, k)
    ensures FirstMissing(keys, m).Some? ==>
      exists i :: 0 <= i < |keys| && keys[i] == FirstMissing(keys, m).value && !Has(m, keys[i])
                  && forall j :: 0 <= j < i ==> Has(m, keys[j])
    decreases |keys|
  {
    if keys != [] && Has(m, keys[0]) {
      FirstMissingIsFirst(keys[1..], m);
      assert forall k :: k in keys ==> k == keys[0] || k in keys[1..];
      if FirstMissing(keys, m).Some? {
        var i :| 0 <= i < |keys[1..]| && keys[1..][i] == FirstMissing(keys, m).value && !Has(m, keys[1..][i])
                 && forall j :: 0 <= j < i ==> Has(m, keys[1..][j]);
        assert keys[i + 1] == FirstMissing(keys, m).value;
        assert forall j :: 0 <= j < i + 1 ==> Has(m, keys[j]) by {
          forall j | 0 <= j < i + 1 ensures Has(m, keys[j]) {
            if j > 0 { assert keys[j] == keys[1..][j - 1]; }
          }
        }
      }
    }
  }

  /** validateInputs: every declared input key must be in the merged values. */
  method ValidateInputs(c: Chain, inputValues: Values) returns (err: Option<Error>)
    ensures FirstMissing(c.inputKeys, Some(inputValues)).None? ==> err.None?
    ensures FirstMissing(c.inputKeys, Some(inputValues)).Some? ==>
      err == Some(MissingInputValues(FirstMissing(c.inputKeys, Some(inputValues)).value))
  {
    var keys := c.inputKeys;
    for i := 0 to |keys|
      invariant FirstMissing(keys, Some(inputValues)) == FirstMissing(keys[i..], Some(inputValues))
    {
      if keys[i] !in inputValues {
        return Some(MissingInputValues(keys[i]));
      }
      assert keys[i..][1..] == keys[i + 1..];
    }
    return None;
  }

  /** validateOutputs: every declared output key must be in the chain's result. */
  method ValidateOutputs(c: Chain, outputValues: Option<Values>) returns (err: Option<Error>)
    ensures FirstMissing(c.outputKeys, outputValues).None? ==> err.None?
    ensures FirstMissing(c.outputKeys, outputValues).Some? ==>
      err == Some(InvalidOutputValues(FirstMissing(c.outputKeys, outputValues).value))
  {
    var keys := c.outputKeys;
    for i := 0 to |keys|
      invariant FirstMissing(keys, outputValues) == FirstMissing(keys[i..], outputValues)
    {
      if !Has(outputValues, keys[i]) {
        return Some(InvalidOutputValues(keys[i]));
      }
      assert keys[i..][1..] == keys[i + 1..];
    }
    return None;
  }

  /** What callChain does with the merged values: validate, run the chain's logic, validate. */
  function CallChainResult(c: Chain, fullValues: Values, options: seq<ChainOptions.ChainCallOption>): Outcome {
    match FirstMissing(c.inputKeys, Some(fullValues))
    case Some(k) => Outcome(None, Some(MissingInputValues(k)), [])
    case None =>
      var r := c.body(fullValues, options);
      var t := [ChainBody(fullValues)];
      if r.err.Some? then Outcome(r.values, r.err, t)
      else match FirstMissing(c.outputKeys, r.values)
        case Some(k) => Outcome(r.values, Some(InvalidOutputValues(k)), t)
        case None => Outcome(r.values, None, t)
  }

  /** callChain. */
  method CallChain(c: Chain, fullValues: Values, options: seq<ChainOptions.ChainCallOption>)
    returns (values: Option<Values>, err: Option<Error>, ghost trace: seq<Event>)
    ensures values == CallChainResult(c, fullValues, options).values
    ensures err == CallChainResult(c, fullValues, options).err
    ensures trace == CallChainResult(c, fullValues, options).trace
  {
    trace := [];
    err := ValidateInputs(c, fullValues);
    if err.Some? {
      return None, err, trace;
    }
    var r := c.body(fullValues, options);
    trace := [ChainBody(fullValues)];
    values, err := r.values, r.err;
    if err.Some? {
      return;
    }
    err := ValidateOutputs(c, values);
  }

  /** The callback notification a handler gets, or none when the chain has no handler. */
  function Notify(c: Chain, e: Event): seq<Event> {
    if c.hasHandler then [e] else []
  }

  /** What Call does, as a function of the chain, the caller's inputs and the options. */
  function Invoke(c: Chain, inputValues: Values, options: seq<ChainOptions.ChainCallOption>): Outcome {
    var loaded := c.memory.load(inputValues);
    var t0 := [LoadMemory(inputValues)];
    if loaded.Failure? then Outcome(None, Some(loaded.error), t0)
    else
      var t1 := t0 + Notify(c, ChainStart(inputValues));
      var inner := CallChainResult(c, inputValues + loaded.value, options);
      var t2 := t1 + inner.trace;
      if inner.err.Some? then
        Outcome(inner.values, inner.err, t2 + Notify(c, ChainError(inner.err.value)))
      else
        var t3 := t2 + Notify(c, ChainEnd(inner.values)) + [SaveContext(inputValues, inner.values)];
        Outcome(inner.values, c.memory.save(inputValues, inner.values), t3)
  }

  /** Call: the standard way to execute a chain. */
  method Call(c: Chain, inputValues: Values, options: seq<ChainOptions.ChainCallOption>)
    returns (out: Option<Values>, err: Option<Error>, ghost trace: seq<Event>)
    ensures out == Invoke(c, inputValues, options).values
    ensures err == Invoke(c, inputValues, options).err
    ensures trace == Invoke(c, inputValues, options).trace
  {
    // A fresh copy of the caller's map.
    var fullValues: Values := map[];
    var todo := inputValues.Keys;
    while todo != {}
      invariant todo <= inputValues.Keys
      invariant fullValues.Keys == inputValues.Keys - todo
      invariant forall k :: k in fullValues ==> fullValues[k] == inputValues[k]
      decreases todo
    {
      var k :| k in todo;
      fullValues := fullValues[k := inputValues[k]];
      todo := todo - {k};
    }
    assert fullValues == inputValues;

    var loaded := c.memory.load(inputValues);
    trace := [LoadMemory(inputValues)];
    if loaded.Failure? {
      return None, Some(loaded.error), trace;
    }
    var newValues := loaded.value;
    todo := newValues.Keys;
    while todo != {}
      invariant todo <= newValues.Keys
      invariant fullValues.Keys == inputValues.Keys + (newValues.Keys - todo)
      invariant forall k :: k in fullValues ==>
        fullValues[k] == if k in newValues.Keys - todo then newValues[k] else inputValues[k]
      decreases todo
    {
      var k :| k in todo;
      fullValues := fullValues[k := newValues[k]];
      todo := todo - {k};
    }
    assert fullValues == inputValues + newValues;

    if c.hasHandler {
      trace := trace + [ChainStart(inputValues)];
    }
    ghost var inner;
    out, err, inner := CallChain(c, fullValues, options);
    trace := trace + inner;
    if err.Some? {
      if c.hasHandler {
        trace := trace + [ChainError(err.value)];
      }
      return;
    }
    if c.hasHandler {
      trace := trace + [ChainEnd(out)];
    }
    trace := trace + [SaveContext(inputValues, out)];
    err := c.memory.save(inputValues, out);
  }

  /** The chain ran its own logic during the trace. */
  predicate BodyRan(trace: seq<Event>) {
    exists e :: e in trace && e.ChainBody?
  }

  /** The turn was saved to memory during the trace. */
  predicate Saved(trace: seq<Event>) {
    exists e :: e in trace && e.SaveContext?
  }

  /** A failing memory read ends the call at once: nil values, its error, no callbacks, no chain logic. */
  lemma InvokeLoadFailure(c: Chain, inputValues: Values, options: seq<ChainOptions.ChainCallOption>)
    requires c.memory.load(inputValues).Failure?
    ensures var r := Invoke(c, inputValues, options);
      && r.values.None? && r.err == Some(c.memory.load(inputValues).error)
      && Callbacks(r.trace) == [] && !BodyRan(r.trace) && !Saved(r.trace)
  {
  }

  /**
   * The chain's logic sees a fresh map that holds the caller's inputs
   * overlaid with the memory variables; on a shared key the memory value wins.
   */
  lemma InvokeMergesMemory(c: Chain, inputValues: Values, options: seq<ChainOptions.ChainCallOption>, full: Values)
    requires ChainBody(full) in Invoke(c, inputValues, options).trace
    ensures c.memory.load(inputValues).Success?
    ensures var loaded := c.memory.load(inputValues).value;
      && full.Keys == inputValues.Keys + loaded.Keys
      && (forall k :: k in loaded ==> full[k] == loaded[k])
      && (forall k :: k in inputValues && k !in loaded ==> full[k] == inputValues[k])
  {
  }

  /**
   * The chain's logic runs only when every declared input key is in the
   * merged map; otherwise the call fails, naming the first missing key.
   */
  lemma InvokeValidatesInputs(c: Chain, inputValues: Values, options: seq<ChainOptions.ChainCallOption>)
    requires c.memory.load(inputValues).Success?
    ensures var full := inputValues + c.memory.load(inputValues).value;
      var r := Invoke(c, inputValues, options);
      && (BodyRan(r.trace) <==> forall k :: k in c.inputKeys ==> k in full)
      && (FirstMissing(c.inputKeys, Some(full)).Some? ==>
            r.values.None? && r.err == Some(MissingInputValues(FirstMissing(c.inputKeys, Some(full)).value)))
  {
    var full := inputValues + c.memory.load(inputValues).value;
    var r := Invoke(c, inputValues, options);
    FirstMissingIsFirst(c.inputKeys, Some(full));
    var t1 := [LoadMemory(inputValues)] + Notify(c, ChainStart(inputValues));
    if FirstMissing(c.inputKeys, Some(full)).None? {
      assert r.trace[|t1|] == ChainBody(full);
    } else {
      assert forall e :: e in r.trace ==> e in t1 || e in Notify(c, ChainError(r.err.value));
    }
  }

  /** A call without error has every declared output key in its result. */
  lemma InvokeOutputsPresent(c: Chain, inputValues: Values, options: seq<ChainOptions.ChainCallOption>)
    ensures var r := Invoke(c, inputValues, options);
      r.err.None? ==> forall k :: k in c.outputKeys ==> Has(r.values, k)
  {
    var loaded := c.memory.load(inputValues);
    if loaded.Success? {
      var inner := CallChainResult(c, inputValues + loaded.value, options);
      if inner.err.None? {
        FirstMissingIsFirst(c.outputKeys, inner.values);
      }
    }
  }

  /**
   * When the chain's logic fails, its values are returned with its error,
   * the handler hears ChainError, and nothing is saved.
   */
  lemma InvokeBodyFailure(c: Chain, inputValues: Values, options: seq<ChainOptions.ChainCallOption>)
    requires c.memory.load(inputValues).Success?
    requires var full := inputValues + c.memory.load(inputValues).value;
      FirstMissing(c.inputKeys, Some(full)).None? && c.body(full, options).err.Some?
    ensures var full := inputValues + c.memory.load(inputValues).value;
      var r := Invoke(c, inputValues, options);
      && r.values == c.body(full, options).values && r.err == c.body(full, options).err
      && !Saved(r.trace)
      && (c.hasHandler ==> r.trace[|r.trace| - 1] == ChainError(r.err.value))
  {
  }

  /**
   * The turn is saved exactly when the chain succeeded, with the caller's
   * original inputs and the chain's outputs, and the save's error is what
   * the call returns beside those outputs.
   */
  lemma InvokeSavesOnSuccess(c: Chain, inputValues: Values, options: seq<ChainOptions.ChainCallOption>)
    requires c.memory.load(inputValues).Success?
    ensures var inner := CallChainResult(c, inputValues + c.memory.load(inputValues).value, options);
      var r := Invoke(c, inputValues, options);
      && (Saved(r.trace) <==> inner.err.None?)
      && (inner.err.None? ==>
            && r.trace[|r.trace| - 1] == SaveContext(inputValues, inner.values)
            && r.values == inner.values
            && r.err == c.memory.save(inputValues, inner.values))
  {
    var inner := CallChainResult(c, inputValues + c.memory.load(inputValues).value, options);
    var r := Invoke(c, inputValues, options);
    if inner.err.Some? {
      var t0, s, e := [LoadMemory(inputValues)], Notify(c, ChainStart(inputValues)), Notify(c, ChainError(inner.err.value));
      assert r.trace == t0 + s + inner.trace + e;
      assert forall ev :: ev in inner.trace ==> ev.ChainBody?;
      assert forall ev :: ev in r.trace ==> ev in t0 || ev in s || ev in inner.trace || ev in e;
    } else {
      assert r.trace[|r.trace| - 1] in r.trace;
    }
  }

  /** A one-event trace holds a callback exactly when that event is one. */
  lemma CallbacksSingleton(e: Event)
    ensures Callbacks([e]) == if IsCallback(e) then [e] else []
  {
    assert [e][1..] == [];
  }

  /** A notification addressed to the handler reaches it when there is one. */
  lemma NotifyReachesHandler(c: Chain, e: Event)
    requires IsCallback(e)
    ensures Callbacks(Notify(c, e)) == Notify(c, e)
  {
    if c.hasHandler {
      CallbacksSingleton(e);
    }
  }

  /** callChain itself notifies no one. */
  lemma CallChainIsSilent(c: Chain, fullValues: Values, options: seq<ChainOptions.ChainCallOption>)
    ensures Callbacks(CallChainResult(c, fullValues, options).trace) == []
  {
    var t := CallChainResult(c, fullValues, options).trace;
    if t != [] {
      CallbacksSingleton(ChainBody(fullValues));
    }
  }

  /**
   * Callback order: nothing when memory fails to load or there is no
   * handler; otherwise ChainStart with the caller's unmerged inputs, then
   * exactly one of ChainEnd (the chain succeeded) and ChainError.
   */
  lemma InvokeCallbackOrder(c: Chain, inputValues: Values, options: seq<ChainOptions.ChainCallOption>)
    ensures var r := Invoke(c, inputValues, options);
      var loaded := c.memory.load(inputValues);
      && (!c.hasHandler || loaded.Failure? ==> Callbacks(r.trace) == [])
      && (c.hasHandler && loaded.Success? ==>
            var inner := CallChainResult(c, inputValues + loaded.value, options);
            Callbacks(r.trace) ==
              [ChainStart(inputValues),
               if inner.err.None? then ChainEnd(inner.values) else ChainError(inner.err.value)])
  {
    var loaded := c.memory.load(inputValues);
    CallbacksSingleton(LoadMemory(inputValues));
    if loaded.Success? {
      var inner := CallChainResult(c, inputValues + loaded.value, options);
      if inner.err.Some? {
        CallbacksOnChainError(c, inputValues, options);
      } else {
        CallbacksOnChainEnd(c, inputValues, options);
      }
    }
  }

  /** The callbacks of the first part of a run: loading, ChainStart and the body. */
  lemma CallbacksBeforeEnd(c: Chain, inputValues: Values, fullValues: Values, options: seq<ChainOptions.ChainCallOption>)
    ensures Callbacks([LoadMemory(inputValues)] + Notify(c, ChainStart(inputValues)) + CallChainResult(c, fullValues, options).trace)
         == Notify(c, ChainStart(inputValues))
  {
    var t0 := [LoadMemory(inputValues)];
    var s := Notify(c, ChainStart(inputValues));
    var inner := CallChainResult(c, fullValues, options);
    CallbacksSingleton(LoadMemory(inputValues));
    NotifyReachesHandler(c, ChainStart(inputValues));
    CallChainIsSilent(c, fullValues, options);
    CallbacksAppend(t0, s);
    CallbacksAppend(t0 + s, inner.trace);
  }

  lemma CallbacksOnChainError(c: Chain, inputValues: Values, options: seq<ChainOptions.ChainCallOption>)
    requires c.memory.load(inputValues).Success?
    requires CallChainResult(c, inputValues + c.memory.load(inputValues).value, options).err.Some?
    ensures var inner := CallChainResult(c, inputValues + c.memory.load(inputValues).value, options);
      Callbacks(Invoke(c, inputValues, options).trace)
        == Notify(c, ChainStart(inputValues)) + Notify(c, ChainError(inner.err.value))
  {
    var full := inputValues + c.memory.load(inputValues).value;
    var inner := CallChainResult(c, full, options);
    var t2 := [LoadMemory(inputValues)] + Notify(c, ChainStart(inputValues)) + inner.trace;
    var e := Notify(c, ChainError(inner.err.value));
    CallbacksBeforeEnd(c, inputValues, full, options);
    NotifyReachesHandler(c, ChainError(inner.err.value));
    CallbacksAppend(t2, e);
    assert Invoke(c, inputValues, options).trace == t2 + e;
  }

  lemma CallbacksOnChainEnd(c: Chain, inputValues: Values, options: seq<ChainOptions.ChainCallOption>)
    requires c.memory.load(inputValues).Success?
    requires CallChainResult(c, inputValues + c.memory.load(inputValues).value, options).err.None?
    ensures var inner := CallChainResult(c, inputValues + c.memory.load(inputValues).value, options);
      Callbacks(Invoke(c, inputValues, options).trace)
        == Notify(c, ChainStart(inputValues)) + Notify(c, ChainEnd(inner.values))
  {
    var full := inputValues + c.memory.load(inputValues).value;
    var inner := CallChainResult(c, full, options);
    var t2 := [LoadMemory(inputValues)] + Notify(c, ChainStart(inputValues)) + inner.trace;
    var e := Notify(c, ChainEnd(inner.values));
    var sv := [SaveContext(inputValues, inner.values)];
    CallbacksBeforeEnd(c, inputValues, full, options);
    NotifyReachesHandler(c, ChainEnd(inner.values));
    CallbacksSingleton(SaveContext(inputValues, inner.values));
    CallbacksAppend(t2, e);
    CallbacksAppend(t2 + e, sv);
    assert Invoke(c, inputValues, options).trace == t2 + e + sv;
  }

  /** The declared input keys that memory does not provide, in declared order. */
  function Needed(inputKeys: seq<string>, memoryKeys: seq<string>): (r: seq<string>)
    ensures forall k :: k in r <==> k in inputKeys && k !in memoryKeys
    ensures |r| <= |inputKeys|
    decreases |inputKeys|
  {
    if inputKeys == [] then []
    else
      var rest := Needed(inputKeys[..|inputKeys| - 1], memoryKeys);
      var last := inputKeys[|inputKeys| - 1];
      assert forall k :: k in inputKeys <==> k in inputKeys[..|inputKeys| - 1] || k == last by {
        assert inputKeys == inputKeys[..|inputKeys| - 1] + [last];
      }
      if last in memoryKeys then rest else rest + [last]
  }

  /**
   * Needed filters the declared keys in order: the keys needed from a list
   * are those needed from its first part followed by those needed from the
   * rest, and a single key is needed exactly when memory lacks it.
   */
  lemma {:induction false} NeededAppend(a: seq<string>, b: seq<string>, memoryKeys: seq<string>)
    ensures Needed(a + b, memoryKeys) == Needed(a, memoryKeys) + Needed(b, memoryKeys)
    ensures |b| == 1 ==> Needed(b, memoryKeys) == if b[0] in memoryKeys then [] else b
    decreases |b|
  {
    if b == [] {
      assert a + b == a;
    } else {
      var init := b[..|b| - 1];
      assert (a + b)[..|a + b| - 1] == a + init;
      assert (a + b)[|a + b| - 1] == b[|b| - 1];
      NeededAppend(a, init, memoryKeys);
      if |b| == 1 {
        assert init == [];
        assert b == [b[0]];
      }
    }
  }

  /** Run: execute a chain that takes one input (besides memory) and returns one string. */
  method Run(c: Chain, input: Value, options: seq<ChainOptions.ChainCallOption>)
    returns (r: string, err: Option<Error>, ghost trace: seq<Event>)
    ensures var needed := Needed(c.inputKeys, c.memory.variables);
      |needed| != 1 ==> r == "" && err == Some(MultipleInputsInRun)
    ensures var needed := Needed(c.inputKeys, c.memory.variables);
      |needed| == 1 && |c.outputKeys| != 1 ==> r == "" && err == Some(MultipleOutputsInRun)
    ensures var needed := Needed(c.inputKeys, c.memory.variables);
      |needed| == 1 && |c.outputKeys| == 1 ==>
        var o := Invoke(c, map[needed[0] := input], options);
        && (err.None? <==> o.err.None? && Lookup(o.values, c.outputKeys[0]).Some?
                           && Lookup(o.values, c.outputKeys[0]).value.Str?)
        && (err.None? ==> Lookup(o.values, c.outputKeys[0]) == Some(Str(r)))
        && (err.Some? ==> r == "" && err == if o.err.Some? then o.err else Some(WrongOutputTypeInRun))
    ensures var needed := Needed(c.inputKeys, c.memory.variables);
      trace == if |needed| == 1 && |c.outputKeys| == 1 then Invoke(c, map[needed[0] := input], options).trace else []
  {
    var inputKeys := c.inputKeys;
    var memoryKeys := c.memory.variables;
    var neededKeys: seq<string> := [];
    for i := 0 to |inputKeys|
      invariant neededKeys == Needed(inputKeys[..i], memoryKeys)
    {
      var isInMemory := false;
      for j := 0 to |memoryKeys|
        invariant isInMemory <==> inputKeys[i] in memoryKeys[..j]
      {
        if inputKeys[i] == memoryKeys[j] {
          isInMemory := true;
        }
        assert memoryKeys[..j + 1] == memoryKeys[..j] + [memoryKeys[j]];
      }
      assert memoryKeys[..|memoryKeys|] == memoryKeys;
      assert inputKeys[..i + 1][..i] == inputKeys[..i];
      if !isInMemory {
        neededKeys := neededKeys + [inputKeys[i]];
      }
    }
    assert inputKeys[..|inputKeys|] == inputKeys;
    trace := [];
    if |neededKeys| != 1 {
      return "", Some(MultipleInputsInRun), trace;
    }
    var outputKeys := c.outputKeys;
    if |outputKeys| != 1 {
      return "", Some(MultipleOutputsInRun), trace;
    }
    var outputValues;
    outputValues, err, trace := Call(c, map[neededKeys[0] := input], options);
    if err.Some? {
      return "", err, trace;
    }
    match Lookup(outputValues, outputKeys[0])
    case Some(Str(s)) =>
      r := s;
    case _ =>
      r, err := "", Some(WrongOutputTypeInRun);
  }
}
