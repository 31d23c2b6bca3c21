/** A rule: a named Lua script with a required entry function `main`, a set of named
    numeric constants injected into the script's globals, a validity flag and the one
    interpreter the rule owns. Configuring the code rebuilds the interpreter from
    scratch; evaluating calls `main` on an ordered list of metric values and returns
    the number it produces. */
module LuaRule {
  import opened Lua

  /** The six ways a rule operation raises: the interpreter could not be created,
      the script did not run, the script defines no function `main`, evaluation of a
      rule that is not valid, `main` raised when called, `main` returned something
      that is not a number. */
  datatype RuleError =
    | InitFailed
    | CompileFailed
    | MainMissing
    | NotValid
    | CallFailed
    | NotNumber

  datatype Outcome = Pass | Fail(error: RuleError)

  datatype Result<T> = Ok(value: T) | Err(error: RuleError)

  /** The reserved name of the entry point. */
  const EntryPoint := "main"

  /** The global table after the constants `values` are set over `g`: every constant
      is bound to its number and every other name keeps what it had. Nothing is
      removed, so a constant dropped from `values` stays visible in `g`. */
  function Install(g: Globals, values: map<string, real>): (r: Globals)
    ensures r.Keys == g.Keys + values.Keys
    ensures forall k :: k in values ==> r[k] == Number(values[k])
    ensures forall k :: k in g && k !in values ==> r[k] == g[k]
  {
    g + map k | k in values :: Number(values[k])
  }

  /** The constants among `values` whose names occur in `keys`. */
  function Only(values: map<string, real>, keys: seq<string>): (r: map<string, real>)
    ensures r.Keys <= values.Keys
    ensures forall k :: k in r ==> k in keys && r[k] == values[k]
    ensures forall k :: k in values && k in keys ==> k in r
  {
    map k | k in values && k in keys :: values[k]
  }

  /** The push-then-set-global steps of the constants loop, taken for the names in
      `keys` in the order given. */
  function SetEach(s: State, values: map<string, real>, keys: seq<string>): State
    requires forall i :: 0 <= i < |keys| ==> keys[i] in values
  {
    if keys == [] then s
    else
      var last := keys[|keys| - 1];
      SetGlobalOn(PushNumberOn(SetEach(s, values, keys[..|keys| - 1]), values[last]), last)
  }

  /** Setting one more constant over the ones already set. */
  lemma InstallOneMore(g: Globals, values: map<string, real>, prefix: seq<string>, last: string)
    requires last in values
    ensures Install(g, Only(values, prefix))[last := Number(values[last])] == Install(g, Only(values, prefix + [last]))
  {
    var before := Install(g, Only(values, prefix))[last := Number(values[last])];
    var after := Install(g, Only(values, prefix + [last]));
    forall k | k in after
      ensures k in before && before[k] == after[k]
    {
      assert k in prefix + [last] <==> k in prefix || k == last;
    }
    assert before.Keys == after.Keys;
  }

  /** Whatever order the names are visited in, the steps leave memory and stack as they were
      and bind exactly the visited constants over the old globals. */
  lemma {:induction false} SetEachBindsVisited(s: State, values: map<string, real>, keys: seq<string>)
    requires forall i :: 0 <= i < |keys| ==> keys[i] in values
    ensures SetEach(s, values, keys) == State(Install(s.globals, Only(values, keys)), s.heap, s.stack)
  {
    if keys != [] {
      var n := |keys| - 1;
      var prefix := keys[..n];
      assert keys == prefix + [keys[n]];
      SetEachBindsVisited(s, values, prefix);
      InstallOneMore(s.globals, values, prefix, keys[n]);
    }
  }

  /** Visiting every constant once installs all of them: the result of
      _setGlobalVariablesToLUA does not depend on the iteration order. */
  lemma SetEachInstalls(s: State, values: map<string, real>, keys: seq<string>)
    requires forall i :: 0 <= i < |keys| ==> keys[i] in values
    requires forall k :: k in values ==> k in keys
    ensures SetEach(s, values, keys) == State(Install(s.globals, values), s.heap, s.stack)
  {
    SetEachBindsVisited(s, values, keys);
    assert Only(values, keys) == values;
  }

  /** The metrics as the Lua numbers pushed for them, in the order given. */
  function Numbers(xs: seq<real>): (vs: seq<Value>)
    ensures |vs| == |xs|
    ensures forall i :: 0 <= i < |xs| ==> vs[i] == Number(xs[i])
  {
    if xs == [] then [] else Numbers(xs[..|xs| - 1]) + [Number(xs[|xs| - 1])]
  }

  /** The globals a freshly configured script runs against: the standard libraries,
      with every constant set afterwards, so a constant shadows a library name. */
  function ScriptGlobals(e: Engine, values: map<string, real>): (g: Globals)
    ensures g.Keys == e.libs.Keys + values.Keys
    ensures forall k :: k in values ==> g[k] == Number(values[k])
    ensures forall k :: k in e.libs && k !in values ==> g[k] == e.libs[k]
  {
    Install(OpenLibsOn(e, State(map[], FreshHeap, [])).globals, values)
  }

  /** What configuring the code leaves: the new interpreter's state (none when it
      could not be created), the stored code, the flag and the outcome. */
  datatype Configured = Configured(state: Option<State>, code: string, valid: bool, outcome: Outcome)

  /** Configuring `src` with the constants `values`, where `allocOk` says whether a
      new interpreter can be created. The old interpreter plays no part. */
  function Configure(e: Engine, values: map<string, real>, src: string, allocOk: bool): (c: Configured)
    ensures c.valid <==> c.outcome == Pass
    ensures c.state.None? <==> c.outcome == Fail(InitFailed)
    ensures c.outcome == Fail(InitFailed) <==> !allocOk
    ensures c.code == if allocOk then src else ""
    ensures c.outcome == Pass || c.outcome == Fail(InitFailed) || c.outcome == Fail(CompileFailed) ||
            c.outcome == Fail(MainMissing)
    ensures c.outcome == Fail(CompileFailed) <==>
              allocOk && !e.run(ScriptGlobals(e, values), e.openLibs(FreshHeap), src).ok
    ensures var ran := e.run(ScriptGlobals(e, values), e.openLibs(FreshHeap), src);
            && (allocOk ==> c.state.Some? && c.state.value.globals == ran.globals && c.state.value.heap == ran.heap)
            && (allocOk ==> |c.state.value.stack| >= |ran.pushed| && c.state.value.stack[..|ran.pushed|] == ran.pushed)
            && (c.valid <==> allocOk && ran.ok && Lookup(ran.globals, EntryPoint).Function?)
    ensures c.valid ==> Lookup(c.state.value.globals, EntryPoint).Function?
    ensures c.outcome == Fail(MainMissing) ==> !Lookup(c.state.value.globals, EntryPoint).Function?
    ensures c.state.Some? && c.outcome != Fail(CompileFailed) ==>
              |c.state.value.stack| > 0 && At(c.state.value.stack, -1) == Lookup(c.state.value.globals, EntryPoint)
  {
    if !allocOk then Configured(None, "", false, Fail(InitFailed))
    else
      var ran := e.run(ScriptGlobals(e, values), e.openLibs(FreshHeap), src);
      var after := State(ran.globals, ran.heap, ran.pushed);
      if !ran.ok then Configured(Some(after), src, false, Fail(CompileFailed))
      else
        var checked := GetGlobalOn(after, EntryPoint);
        if At(checked.stack, |checked.stack|).Function? then Configured(Some(checked), src, true, Pass)
        else Configured(Some(checked), src, false, Fail(MainMissing))
  }

  /** What evaluating a valid rule leaves: the result and the interpreter's state. */
  datatype Evaluated = Evaluated(result: Result<real>, after: State)

  /** Evaluating a valid rule whose interpreter holds the globals `g` and the memory
      `h`: `main` is called on the metrics, one number argument per metric in order.
      The old stack plays no part. */
  function Evaluation(e: Engine, g: Globals, h: Heap, metrics: seq<real>): (v: Evaluated)
    ensures var c := e.call(g, h, Lookup(g, EntryPoint), Numbers(metrics));
            && (v.result.Ok? <==> c.ok && IsNumeric(e, c.value))
            && (v.result == Err(CallFailed) <==> !c.ok)
            && (v.result == Err(NotNumber) <==> c.ok && !IsNumeric(e, c.value))
            && (v.result.Ok? ==> v.result.value == ToReal(e, c.value) && v.after.stack == [])
            && (v.result.Err? ==> v.after.stack == [c.value])
            && v.after.globals == c.globals && v.after.heap == c.heap
  {
    var c := e.call(g, h, Lookup(g, EntryPoint), Numbers(metrics));
    if !c.ok then Evaluated(Err(CallFailed), State(c.globals, c.heap, [c.value]))
    else if !IsNumeric(e, c.value) then Evaluated(Err(NotNumber), State(c.globals, c.heap, [c.value]))
    else Evaluated(Ok(ToReal(e, c.value)), State(c.globals, c.heap, []))
  }

  class Rule {
    const engine: Engine
    var ruleName: string
    var code: string
    var values: map<string, real>
    var valid: bool
    var lstate: Interpreter?

    /** A valid rule has an interpreter; the interpreter the rule holds is open. */
    ghost predicate Valid()
      reads this, lstate
    {
      && (valid ==> lstate != null)
      && (lstate != null ==> !lstate.closed && lstate.engine == engine)
    }

    /** A new rule has no interpreter, no code, no constants and is not valid. */
    constructor (engine: Engine, name: string)
      ensures Valid() && this.engine == engine && ruleName == name
      ensures code == "" && values == map[] && !valid && lstate == null
    {
      this.engine := engine;
      ruleName := name;
      code := "";
      values := map[];
      valid := false;
      lstate := null;
    }

    /** The copy constructor: same name and constants, then the source's code is
        configured anew on an interpreter of the copy's own. */
    static method Copy(r: Rule, allocOk: bool) returns (c: Rule, out: Outcome)
      requires r.Valid()
      ensures fresh(c) && c.Valid() && c.engine == r.engine
      ensures c.ruleName == r.ruleName && c.values == r.values
      ensures c.lstate != null ==> fresh(c.lstate)
      ensures var k := Configure(r.engine, r.values, r.code, allocOk);
              && out == k.outcome && c.code == k.code && c.valid == k.valid
              && (c.lstate == null <==> k.state.None?)
              && (c.lstate != null ==> c.lstate.Snapshot() == k.state.value)
    {
      c := new Rule(r.engine, r.ruleName);
      c.GlobalVariables(r.values);
      out := c.Code(r.code, allocOk);
    }

    /** Replaces the constants and sets them in the live interpreter, if any. */
    method GlobalVariables(vars: map<string, real>)
      requires Valid()
      modifies this, lstate
      ensures Valid() && values == vars
      ensures ruleName == old(ruleName) && code == old(code) && valid == old(valid)
      ensures lstate == old(lstate)
      ensures lstate != null ==>
                lstate.Snapshot() == State(Install(old(lstate.globals), vars), old(lstate.heap), old(lstate.stack))
    {
      values := map[];
      values := values + vars;
      SetGlobalVariablesToLua();
    }

    /** Sets every constant as a global of the interpreter; nothing without one. */
    method SetGlobalVariablesToLua()
      requires Valid()
      modifies lstate
      ensures Valid()
      ensures lstate != null ==>
                lstate.Snapshot() == State(Install(old(lstate.globals), values), old(lstate.heap), old(lstate.stack))
    {
      if lstate == null {
        return;
      }
      ghost var start := lstate.Snapshot();
      var pending := values.Keys;
      ghost var done: seq<string> := [];
      while pending != {}
        invariant pending <= values.Keys
        invariant forall i :: 0 <= i < |done| ==> done[i] in values && done[i] !in pending
        invariant forall k :: k in values ==> k in pending || k in done
        invariant !lstate.closed
        invariant lstate.Snapshot() == SetEach(start, values, done)
        decreases pending
      {
        var k :| k in pending;
        lstate.PushNumber(values[k]);
        lstate.SetGlobal(k);
        pending := pending - {k};
        assert (done + [k])[..|done|] == done;
        done := done + [k];
      }
      SetEachInstalls(start, values, done);
    }

    /** Throws away the interpreter, builds a new one, sets the constants, stores
        and runs the code, then looks for the entry point. */
    method Code(newCode: string, allocOk: bool) returns (out: Outcome)
      requires Valid()
      modifies this, lstate
      ensures Valid()
      ensures ruleName == old(ruleName) && values == old(values)
      ensures old(lstate) != null ==> old(lstate).closed
      ensures lstate != null ==> fresh(lstate)
      ensures var c := Configure(engine, values, newCode, allocOk);
              && out == c.outcome && code == c.code && valid == c.valid
              && (lstate == null <==> c.state.None?)
              && (lstate != null ==> lstate.Snapshot() == c.state.value)
    {
      if lstate != null {
        lstate.Close();
      }
      valid := false;
      code := "";

      lstate := Interpreter.Open(engine, allocOk);
      if lstate == null {
        return Fail(InitFailed);
      }
      lstate.OpenLibs();
      SetGlobalVariablesToLua();
      assert lstate.globals == ScriptGlobals(engine, values);
      assert lstate.heap == engine.openLibs(FreshHeap);

      code := newCode;
      var failed := lstate.DoString(code);
      valid := !failed;
      if !valid {
        return Fail(CompileFailed);
      }

      lstate.GetGlobal(EntryPoint);
      var top := lstate.GetTop();
      var isFunction := lstate.IsFunction(top);
      if !isFunction {
        valid := false;
        return Fail(MainMissing);
      }
      return Pass;
    }

    /** Calls the entry point on the metrics. Only the interpreter changes. */
    method Evaluate(metrics: seq<real>) returns (r: Result<real>)
      requires Valid()
      modifies lstate
      ensures Valid()
      ensures !valid ==> r == Err(NotValid) && (lstate != null ==> lstate.Snapshot() == old(lstate.Snapshot()))
      ensures valid ==> (lstate != null &&
                          var v := Evaluation(engine, old(lstate.globals), old(lstate.heap), metrics);
                          r == v.result && lstate.Snapshot() == v.after)
    {
      if !valid {
        return Err(NotValid);
      }
      lstate.SetTop(0);

      lstate.GetGlobal(EntryPoint);
      ghost var entry := Lookup(lstate.globals, EntryPoint);
      var i := 0;
      while i < |metrics|
        invariant 0 <= i <= |metrics|
        invariant !lstate.closed
        invariant lstate.globals == old(lstate.globals) && lstate.heap == old(lstate.heap)
        invariant lstate.stack == [entry] + Numbers(metrics[..i])
      {
        lstate.PushNumber(metrics[i]);
        i := i + 1;
      }
      assert metrics[..|metrics|] == metrics;

      var failed := lstate.PCall(|metrics|);
      if failed {
        return Err(CallFailed);
      }
      var isNumber := lstate.IsNumber(-1);
      if !isNumber {
        return Err(NotNumber);
      }
      var result := lstate.ToNumber(-1);
      lstate.Pop(1);
      return Ok(result);
    }
  }
}

/** What callers of a rule can rely on, from the contracts of the rule alone. */
module RuleUse {
  import opened Lua
  import opened LuaRule

  /** A configuration that fails leaves a rule that refuses to evaluate, so no
      result computed by an older script is ever returned. */
  method FailedCodeRefusesEvaluation(r: Rule, src: string, allocOk: bool, metrics: seq<real>)
      returns (out: Outcome, res: Result<real>)
    requires r.Valid()
    modifies r, r.lstate
    ensures out.Fail? ==> res == Err(NotValid)
    ensures out == Pass ==> res.Err? ==> res.error == CallFailed || res.error == NotNumber
  {
    out := r.Code(src, allocOk);
    res := r.Evaluate(metrics);
  }

  /** A copy owns its own interpreter: giving the copy new constants leaves the
      original's constants, flag and interpreter as they were. */
  method CopyIsIndependent(r: Rule, allocOk: bool, vars: map<string, real>) returns (c: Rule, out: Outcome)
    requires r.Valid()
    ensures c != r && c.values == vars && r.values == old(r.values) && r.valid == old(r.valid)
    ensures r.lstate == old(r.lstate)
    ensures r.lstate != null ==> r.lstate.Snapshot() == old(r.lstate.Snapshot())
  {
    c, out := Rule.Copy(r, allocOk);
    c.GlobalVariables(vars);
  }
}
