/** The part of the Lua 5.1 C API that a rule uses, over an abstract interpreter.
    The interpreter's state is its global table (a map), the rest of its memory (an
    opaque heap) and its value stack (a sequence). What the Lua engine itself does --
    which globals the standard libraries define, running a chunk, calling a function,
    converting a string to a number -- is not visible here, so it is an oracle: an
    `Engine` value made of total functions that every interpreter of one program
    shares. */
module Lua {

  datatype Option<T> = None | Some(value: T)

  /** A Lua value. Tables, userdata and threads are `Other`; functions and the
      `Other` values are told apart by an identity only. */
  datatype Value =
    | Nil
    | Boolean(b: bool)
    | Number(n: real)
    | Str(s: string)
    | Function(id: nat)
    | Other(id: nat)

  type Globals = map<string, Value>

  /** Everything in an interpreter's memory outside the global table: upvalues, the
      contents of tables, the state kept by the standard libraries (the random
      generator, for one). Only its identity is visible. */
  type Heap = nat

  /** The memory of a freshly created interpreter. */
  const FreshHeap: Heap := 0

  datatype State = State(globals: Globals, heap: Heap, stack: seq<Value>)

  /** What running a chunk did: whether it succeeded, the global table and memory it
      left, and the values it left on the stack (its results, or the error message). */
  datatype ChunkResult = ChunkResult(ok: bool, globals: Globals, heap: Heap, pushed: seq<Value>)

  /** What a protected call with one result did: whether it succeeded, the global
      table and memory it left, and the one value it left (the result, or the error
      message). */
  datatype CallResult = CallResult(ok: bool, globals: Globals, heap: Heap, value: Value)

  /** The outcome of a C API call that reports a status: `failed` is a non-zero status. */
  datatype Step = Step(failed: bool, after: State)

  datatype Engine = Engine(
    libs: Globals,                                          // the globals luaL_openlibs defines
    openLibs: Heap -> Heap,                                 // the memory luaL_openlibs leaves
    run: (Globals, Heap, string) -> ChunkResult,            // luaL_dostring on a chunk
    call: (Globals, Heap, Value, seq<Value>) -> CallResult, // lua_pcall of a callee on arguments
    toNumber: string -> Option<real>                        // Lua's string-to-number coercion
  )

  /** lua_getglobal's view of a name: an unbound name reads as nil. */
  function Lookup(g: Globals, name: string): Value
  {
    if name in g then g[name] else Nil
  }

  /** The value at an acceptable stack index: 1..top from the bottom, -1..-top from
      the top; any other index denotes no value, which every type test rejects. */
  function At(stack: seq<Value>, idx: int): (v: Value)
    ensures 1 <= idx <= |stack| ==> v == stack[idx - 1]
    ensures -|stack| <= idx <= -1 ==> v == stack[|stack| + idx]
    ensures idx == 0 || idx > |stack| || idx < -|stack| ==> v == Nil
  {
    if 1 <= idx <= |stack| then stack[idx - 1]
    else if -|stack| <= idx <= -1 then stack[|stack| + idx]
    else Nil
  }

  /** lua_isnumber: a number, or a string that converts to one. */
  predicate IsNumeric(e: Engine, v: Value)
  {
    v.Number? || (v.Str? && e.toNumber(v.s).Some?)
  }

  /** lua_tonumber: the number, the converted string, or 0 for anything else. */
  function ToReal(e: Engine, v: Value): (x: real)
    ensures v.Number? ==> x == v.n
    ensures !IsNumeric(e, v) ==> x == 0.0
  {
    match v
    case Number(n) => n
    case Str(s) => if e.toNumber(s).Some? then e.toNumber(s).value else 0.0
    case _ => 0.0
  }

  /** luaL_openlibs: the library globals are added to the table and the libraries'
      own state to the memory; the stack is balanced. */
  function OpenLibsOn(e: Engine, s: State): State
  {
    State(s.globals + e.libs, e.openLibs(s.heap), s.stack)
  }

  function PushNumberOn(s: State, x: real): State
  {
    State(s.globals, s.heap, s.stack + [Number(x)])
  }

  /** lua_setglobal: pops the top value and binds it to `name`. */
  function SetGlobalOn(s: State, name: string): (r: State)
    requires |s.stack| > 0
    ensures r.heap == s.heap && r.stack == s.stack[..|s.stack| - 1]
    ensures r.globals.Keys == s.globals.Keys + {name}
    ensures Lookup(r.globals, name) == s.stack[|s.stack| - 1]
    ensures forall k :: k in s.globals && k != name ==> r.globals[k] == s.globals[k]
  {
    State(s.globals[name := s.stack[|s.stack| - 1]], s.heap, s.stack[..|s.stack| - 1])
  }

  /** lua_getglobal: pushes the value bound to `name` (nil if unbound). */
  function GetGlobalOn(s: State, name: string): (r: State)
    ensures r.globals == s.globals && r.heap == s.heap && |r.stack| == |s.stack| + 1
    ensures At(r.stack, -1) == Lookup(s.globals, name)
  {
    State(s.globals, s.heap, s.stack + [Lookup(s.globals, name)])
  }

  /** lua_settop with a non-negative index: cuts the stack down, or fills it with nil. */
  function SetTopOn(s: State, idx: nat): (r: State)
    ensures |r.stack| == idx && r.globals == s.globals && r.heap == s.heap
    ensures forall i :: 0 <= i < idx && i < |s.stack| ==> r.stack[i] == s.stack[i]
  {
    if idx <= |s.stack| then State(s.globals, s.heap, s.stack[..idx])
    else State(s.globals, s.heap, s.stack + seq(idx - |s.stack|, _ => Nil))
  }

  /** lua_pop. */
  function PopOn(s: State, n: nat): (r: State)
    requires n <= |s.stack|
    ensures r.globals == s.globals && r.heap == s.heap && r.stack == s.stack[..|s.stack| - n]
  {
    SetTopOn(s, |s.stack| - n)
  }

  /** luaL_dostring: runs `chunk` against the global table. */
  function DoStringOn(e: Engine, s: State, chunk: string): (r: Step)
    ensures var c := e.run(s.globals, s.heap, chunk);
            && (r.failed <==> !c.ok)
            && r.after.globals == c.globals && r.after.heap == c.heap
            && r.after.stack == s.stack + c.pushed
    ensures |r.after.stack| >= |s.stack| && r.after.stack[..|s.stack|] == s.stack
  {
    var c := e.run(s.globals, s.heap, chunk);
    Step(!c.ok, State(c.globals, c.heap, s.stack + c.pushed))
  }

  /** lua_pcall(L, nargs, 1, 0): the callee sits below its `nargs` arguments; all of
      them are popped and exactly one value (the result or the error message) is
      pushed. */
  function PCallOn(e: Engine, s: State, nargs: nat): (r: Step)
    requires nargs < |s.stack|
    ensures var base := |s.stack| - nargs - 1;
            var c := e.call(s.globals, s.heap, s.stack[base], s.stack[base + 1..]);
            && (r.failed <==> !c.ok)
            && r.after.globals == c.globals && r.after.heap == c.heap
            && At(r.after.stack, -1) == c.value
    ensures |r.after.stack| == |s.stack| - nargs
    ensures r.after.stack[..|s.stack| - nargs - 1] == s.stack[..|s.stack| - nargs - 1]
  {
    var base := |s.stack| - nargs - 1;
    var c := e.call(s.globals, s.heap, s.stack[base], s.stack[base + 1..]);
    Step(!c.ok, State(c.globals, c.heap, s.stack[..base] + [c.value]))
  }

  /** A lua_State: the interpreter handle. Every method is one C API call and
      requires that the handle has not been closed. */
  class Interpreter {
    const engine: Engine
    var globals: Globals
    var heap: Heap
    var stack: seq<Value>
    ghost var closed: bool

    function Snapshot(): State
      reads this
    {
      State(globals, heap, stack)
    }

    constructor Create(engine: Engine)
      ensures this.engine == engine && Snapshot() == State(map[], FreshHeap, []) && !closed
    {
      this.engine := engine;
      globals, heap, stack := map[], FreshHeap, [];
      closed := false;
    }

    /** lua_open: a fresh interpreter, or null when it cannot be allocated;
        `allocOk` stands for the allocator's answer. */
    static method Open(engine: Engine, allocOk: bool) returns (l: Interpreter?)
      ensures allocOk <==> l != null
      ensures l != null ==> fresh(l) && l.engine == engine && !l.closed
      ensures l != null ==> l.Snapshot() == State(map[], FreshHeap, [])
    {
      if allocOk {
        l := new Interpreter.Create(engine);
      } else {
        l := null;
      }
    }

    /** lua_close. */
    method Close()
      requires !closed
      modifies this
      ensures closed && Snapshot() == old(Snapshot())
    {
      closed := true;
    }

    method OpenLibs()
      requires !closed
      modifies this
      ensures !closed && Snapshot() == OpenLibsOn(engine, old(Snapshot()))
    {
      globals, heap := globals + engine.libs, engine.openLibs(heap);
    }

    method PushNumber(x: real)
      requires !closed
      modifies this
      ensures !closed && Snapshot() == PushNumberOn(old(Snapshot()), x)
    {
      stack := stack + [Number(x)];
    }

    method SetGlobal(name: string)
      requires !closed && |stack| > 0
      modifies this
      ensures !closed && Snapshot() == SetGlobalOn(old(Snapshot()), name)
    {
      globals := globals[name := stack[|stack| - 1]];
      stack := stack[..|stack| - 1];
    }

    method GetGlobal(name: string)
      requires !closed
      modifies this
      ensures !closed && Snapshot() == GetGlobalOn(old(Snapshot()), name)
    {
      stack := stack + [Lookup(globals, name)];
    }

    method SetTop(idx: nat)
      requires !closed
      modifies this
      ensures !closed && Snapshot() == SetTopOn(old(Snapshot()), idx)
    {
      if idx <= |stack| {
        stack := stack[..idx];
      } else {
        stack := stack + seq(idx - |stack|, _ => Nil);
      }
    }

    method Pop(n: nat)
      requires !closed && n <= |stack|
      modifies this
      ensures !closed && Snapshot() == PopOn(old(Snapshot()), n)
    {
      stack := stack[..|stack| - n];
    }

    method GetTop() returns (top: nat)
      requires !closed
      ensures top == |stack|
    {
      top := |stack|;
    }

    method IsFunction(idx: int) returns (b: bool)
      requires !closed
      ensures b <==> At(stack, idx).Function?
    {
      b := At(stack, idx).Function?;
    }

    method IsNumber(idx: int) returns (b: bool)
      requires !closed
      ensures b <==> IsNumeric(engine, At(stack, idx))
    {
      b := IsNumeric(engine, At(stack, idx));
    }

    method ToNumber(idx: int) returns (x: real)
      requires !closed
      ensures x == ToReal(engine, At(stack, idx))
    {
      x := ToReal(engine, At(stack, idx));
    }

    method DoString(chunk: string) returns (failed: bool)
      requires !closed
      modifies this
      ensures !closed && Step(failed, Snapshot()) == DoStringOn(engine, old(Snapshot()), chunk)
    {
      var c := engine.run(globals, heap, chunk);
      failed := !c.ok;
      globals, heap, stack := c.globals, c.heap, stack + c.pushed;
    }

    method PCall(nargs: nat) returns (failed: bool)
      requires !closed && nargs < |stack|
      modifies this
      ensures !closed && Step(failed, Snapshot()) == PCallOn(engine, old(Snapshot()), nargs)
    {
      var base := |stack| - nargs - 1;
      var c := engine.call(globals, heap, stack[base], stack[base + 1..]);
      failed := !c.ok;
      globals, heap, stack := c.globals, c.heap, stack[..base] + [c.value];
    }
  }
}
