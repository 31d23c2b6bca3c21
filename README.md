# Lua rule evaluation, modelled in Dafny

This project models the rule object of the fty-alert-engine monitoring pipeline
(`luaRule` in `src/luaRule.cc`). A rule is a named Lua script that must define a
global function `main`. It also holds a map of named numeric constants, a validity
flag and the one Lua interpreter it owns. The rule's operations are:

- replacing the constants (`globalVariables`);
- configuring new code (`code`), which always rebuilds the interpreter;
- evaluating `main` on an ordered list of metric values (`evaluate`).

Each C++ exception is a distinct error value (`LuaRule.RuleError`).

Files:

- `lua.dfy`, module `Lua`: the part of the Lua 5.1 C API the rule calls. The
  interpreter's state is a global table (`map<string, Value>`), the rest of its
  memory (an opaque `Heap`: upvalues, table contents, library state) and a value
  stack (`seq<Value>`). The stack operations are written out: `lua_pushnumber`,
  `lua_setglobal`, `lua_getglobal`, `lua_settop`, `lua_pop`, index addressing,
  `lua_isfunction`, `lua_isnumber` and `lua_tonumber`. Each is a pure function on
  `State` plus a method of class `Interpreter`, the `lua_State` handle. Every method
  requires that the handle is still open. What the Lua engine itself does is an
  oracle, the `Engine` value: which globals and memory the standard libraries
  set up, what running a chunk does, what calling a function returns and leaves
  in memory, and which strings convert to numbers.
- `lua_rule.dfy`, module `LuaRule`: the reference definitions and lemmas, plus the
  class `Rule` with the fields `ruleName`, `code`, `values`, `valid` and `lstate`.
  The methods follow the C++ statement by statement. `code` calls `lua_close`,
  `lua_open`, `luaL_openlibs`, the constants loop, `luaL_dostring`,
  `lua_getglobal` and `lua_isfunction` in exactly that order. Each method is
  proved equal to a function form of its steps (`Configure`, `Evaluation`) or to
  an independent definition (`Install`, through `SetEachInstalls`). The ensures of
  these functions say what the outcome means. Module `RuleUse` holds
  two client methods. They derive caller-visible guarantees from the contracts alone.

What the proofs establish:

- `globalVariables` replaces the stored map outright.
- The constants are installed into the interpreter whatever order the loop visits
  them in.
- `code` closes the old interpreter and runs the script on a fresh one.
- The script runs only after the standard libraries and then the constants are in
  place, so a constant shadows a library name.
- `valid` ends true exactly when the script ran and `main` is a function. Every
  failure (init, compile, missing `main`) leaves `valid == false`.
- A failed init leaves no interpreter and empty code. A failed run or `main` check
  leaves the new code stored and the new interpreter open.
- `evaluate` on an invalid rule raises and touches nothing. Otherwise it clears
  the stack and calls `main` with exactly the metrics as arguments, in order.
- A successful `evaluate` returns the number and leaves the stack empty.
- `evaluate` may change only the interpreter (its `modifies` clause), so name,
  code, constants and flag stay as they were.
- A copy has the source's name and constants and an interpreter of its own.

Behaviour of the code a reader may not expect:

- `lua_isnumber` accepts a string that converts to a number. A `main` that
  returns `"5"` yields 5, not a non-number error (`Lua.IsNumeric`).
- When interpreter creation fails, the stored code is the empty string, not the
  new source. Line 50 clears it before `lua_open` is tried.
- `globalVariables` replaces the rule's map but removes nothing from the live
  interpreter. A constant dropped from the map stays bound there until the next
  `code` (`Install` keeps every old name).
- `valid` records only the outcome of the last `code`. A later constant named
  `main`, or a script that rebinds `main` when called, leaves `valid` true while
  `main` is no longer a function. In that case evaluation ends in whatever the
  engine's call does with a non-function, which in Lua is an error (`CallFailed`).
- After a failed evaluation, the error message or non-number value stays on the
  stack. After a failed run, the chunk's error message stays on the stack. The next
  `evaluate` clears the stack first, so no result depends on it
  (`Evaluation` takes the globals and the memory, not the stack).
- A script's own state survives between evaluations. A chunk such as
  `local n = 0 function main() n = n + 1 return n end` keeps `n` in an upvalue,
  so each call may return something new; in the model the call reads and
  replaces the interpreter's `Heap`.
- Copying re-runs `code` on the source's code. Copying a rule whose script fails
  or lacks `main` therefore raises, and the C++ copy constructor then produces no
  object.

## Model

| member | source | states |
|---|---|---|
| `LuaRule.Install` | src/luaRule.cc:105-112 | after the constants are set, every constant is bound to its number in the interpreter's globals, every other global keeps its value, and no name is removed |
| `LuaRule.SetEachBindsVisited` | src/luaRule.cc:108-111 | pushing each visited constant and setting it as a global, in any order of the names, leaves memory and stack unchanged and binds exactly the visited constants over the old globals (induction over the visit order) |
| `LuaRule.SetEachInstalls` | src/luaRule.cc:108-111 | a loop that visits every key of the map installs all constants, so the result does not depend on the map's iteration order |
| `LuaRule.Numbers` | src/luaRule.cc:91-93 | the arguments pushed for the metrics are one Lua number per metric, as many as there are metrics, in the order given |
| `LuaRule.ScriptGlobals` | src/luaRule.cc:56-59 | the script sees the library globals with every constant set after them: each constant is bound to its number, and library names that are not constants keep their library value |
| `LuaRule.Configure` | src/luaRule.cc:46-76 | `valid` holds exactly when the outcome is success. There is no interpreter exactly when creation failed, and then the code is empty; otherwise the code is the new source. The script runs on the libraries plus constants and on the memory the libraries leave. Any new interpreter holds exactly the globals and memory that run left, with the chunk's pushed values at the bottom of its stack. The run fails exactly when that script fails. `valid` holds exactly when the run succeeded and `main` is a function among the globals it left, and a missing-`main` outcome means it is not. After a successful run, `main` is on top of the stack |
| `LuaRule.Evaluation` | src/luaRule.cc:88-102 | `main` is called on exactly the metrics as number arguments. The result is Ok exactly when the call succeeded and returned a number (or numeric string), and then the value is that number and the stack is empty. A failed call gives CallFailed, a non-number gives NotNumber, and each leaves that one value on the stack. The globals and memory are whatever the call left; the previous stack plays no part |
| `LuaRule.Rule.GlobalVariables` | src/luaRule.cc:39-44 | afterwards the stored map equals the given one, with nothing kept from before. A live interpreter's globals are the old ones with the new constants installed, and its memory and stack are unchanged. Name, code, flag and interpreter handle stay the same |
| `LuaRule.Rule.SetGlobalVariablesToLua` | src/luaRule.cc:105-112 | without an interpreter nothing happens. Otherwise the interpreter's globals become the old ones with every stored constant installed, and its memory and stack are unchanged |
| `LuaRule.Rule.Code` | src/luaRule.cc:46-76 | the previous interpreter (if any) is closed, and any interpreter afterwards is freshly allocated. Code, flag, outcome and interpreter state are exactly `Configure` of the current constants and the new source. The name and the constants are unchanged |
| `LuaRule.Rule.Evaluate` | src/luaRule.cc:83-103 | on an invalid rule it raises NotValid and leaves the interpreter as it was. Otherwise the result and the interpreter's new state are exactly `Evaluation` of the interpreter's globals, its memory and the metrics. Nothing outside the interpreter may change |
| `LuaRule.Rule.Copy` | src/luaRule.cc:31-36 | the copy is a new object with the source's name, constants and engine. An interpreter it holds is freshly allocated. Its code, flag, outcome and interpreter state are `Configure` of the source's constants and code. The source is not modified |
| `RuleUse.FailedCodeRefusesEvaluation` | src/luaRule.cc:64-87 | after any failed `code`, `evaluate` raises NotValid. After a successful one, `evaluate` can only fail with CallFailed or NotNumber |
| `RuleUse.CopyIsIndependent` | src/luaRule.cc:31-44 | giving a copy new constants leaves the original's constants, flag, interpreter handle and interpreter state unchanged |

## Left out

- Lua itself is not modelled: parsing and running chunks, `luaL_openlibs`, and
  what `lua_pcall` does inside. The `Engine` oracle stands for them. It is a
  total, deterministic function of the globals, the memory and the chunk (or the
  callee and arguments), and it cannot see the interpreter's stack. The memory
  is an opaque `Heap`: the model says that it is threaded from call to call, not
  what it holds.
- Inputs from outside the interpreter are not modelled. A script that reads the
  clock (`os.time`, `os.clock`), the environment or files can return different
  results from the same globals and memory; the deterministic oracle does not
  capture that.
- LuaRule.Rule.Evaluate: assumes the Lua stack never overflows. The code pushes `main`
  and one number per metric without calling `lua_checkstack`, and Lua 5.1
  guarantees only `LUA_MINSTACK` (20) free slots, so with 20 or more metrics the
  pushes are undefined behaviour. The model also leaves out that `metrics.size()`
  is narrowed to `int` at src/luaRule.cc:94; the argument count is unbounded.
- LuaRule.Rule.SetGlobalVariablesToLua: assumes no constant name contains a NUL
  character. The name is passed as `c_str()` (src/luaRule.cc:110), so Lua sees it
  cut at the first NUL, and two names that differ only after it would bind the
  same global. `Install` and `SetEachInstalls` make the same assumption.
- LuaRule.Rule.Code: assumes the code contains no NUL character. `luaL_dostring`
  receives `_code.c_str()` (src/luaRule.cc:63), so Lua runs only the text before
  the first NUL, while the model runs the whole string.
- Lua status codes are reduced to zero and non-zero.
- Lua pseudo-indices, metamethods and memory errors raised inside Lua calls are
  not modelled.
- Whether `lua_open` can allocate an interpreter depends on the environment. It is
  the parameter `allocOk` of `Rule.Code` and `Rule.Copy`.
- Floating point is not modelled. Metric values and results are `real` and are
  only passed through.
- `std::map` iteration order is not modelled. The constants loop visits the keys in
  an arbitrary order. `SetEachInstalls` shows that the order does not affect the
  result.
- The two-argument `evaluate(const MetricList&, PureAlert**)` (src/luaRule.cc:78-81)
  is left out. It is a stub that returns 0 and has no behaviour to verify.
- `src/purealert.h` is left out. It is a plain alert record, and the bodies of
  `PureAlert::isStatusKnown` and `PureAlert::print` are not available.
- `luaRule.h` is not part of this model. `Rule`'s constructor assumes a new rule
  starts with a null interpreter handle, not valid, and with empty code and
  constants. The destructor (closing the interpreter) and thread safety are not
  modelled.
- C++ exceptions are not modelled as control flow. Each `throw` is a distinct
  `RuleError` value in the returned `Outcome` or `Result`.
- `Rule.Copy` returns the copy even when it raises. In C++ the copy constructor's
  exception means no object exists. If the failure is a compile or missing-`main`
  error, the interpreter it opened is never closed; the model does not track that
  leak.
