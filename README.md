# Expression handle of an embeddable evaluator, in Dafny

This project models the handle lifecycle of the `resolver` expression
evaluator: the `Expr` builder (`src/expr/mod.rs`), the `ExecOptions`
per-call override built on it, and the `Function` / `ConstFunction`
records it stores (`src/function/mod.rs`).

An `Expr` is a class with the Rust struct's five fields. Its text and its
const-function registry are `const`, because Rust never reassigns them after
construction. The compiled cache, the dynamic-function map and the scope
stack are `var` fields. The registry is `Rc<RefCell<ConstFunctions>>` in
Rust; here it is a `ConstRegistry` object. A handle, its clones and every
`ExecOptions` on it hold the same object, so the verifier tracks the sharing
through `modifies` clauses and reference equality.

The parser/compiler in `crate::tree` is not part of this model. It is the
parameter `fe: Compiler`, a total function from text to a compiled `Unit`
or an `Error`, so compiling the same text always gives the same unit. A
`Unit` is an opaque function of (scope stack, dynamic functions, const
registry entries). Two invariants describe a handle:

- `Valid()`: the scope stack has at least one frame.
- `CacheFrom(fe)`: a cached unit is what `fe` makes of the text. Every handle
  satisfies it, since only `compile` and `clone` fill the cache, and both
  call the front end. `Exec` and `Clone` require it.

What is proved, in short:

- Builder calls touch one component each. `SetValue` writes only the
  innermost frame and keeps the number of frames.
- Both `exec` paths, cached or not, return what compiling the current text
  and running it would return. Neither writes anything, so `exec` never
  fills the cache.
- The `unwrap` in `clone` cannot fail. A clone is `Eq` to its original. It
  has the same cache, the same frames, no dynamic functions and the very
  same registry.
- A serde round trip is lossy. It returns a handle on the *quoted* text, with
  no bindings and a fresh registry.
- The Debug text of a function record determines exactly its two arity
  bounds, max then min, and nothing of its body. This is proved by parsing
  the text back.

Two behaviours of the code are easy to misread, and the model follows the
code:

- Converting a handle to text and back does not keep the source text. The
  code serializes the `{:?}` rendering, which adds quotes and escapes, and
  deserializes that string unchanged. `SerdeRoundTrip` proves the text never
  survives.
- The builder calls take no arity bounds. `function` and `const_function`
  wrap the body with `Function::new` / `ConstFunction::new`, which set both
  bounds to `None`.

## Model

| member | source | states |
|---|---|---|
| `Functions.NewFunction` | src/function/mod.rs:20-28 | a new dynamic function has no maximum and no minimum argument count, and its body is exactly the given closure |
| `Functions.NewConstFunction` | src/function/mod.rs:55-62 | a new const function has neither bound, and its body is exactly the given function pointer |
| `Functions.CopyConstFunction` | src/function/mod.rs:43 | the derived `Clone`/`Copy` of a const function gives back the same bounds and the same body |
| `Functions.DebugFunction` | src/function/mod.rs:31-37 | the Debug text of a dynamic function can be parsed back to exactly its (max bound, min bound), in that order |
| `Functions.DebugConstFunction` | src/function/mod.rs:65-71 | the Debug text of a const function can be parsed back to exactly its bounds, and it is the same text a dynamic function with those bounds prints |
| `Functions.DebugBoundsRoundTrip` | src/function/mod.rs:33-36 | the Debug text `Function { max_args: .., min_args: .. }` can be parsed back to the pair (max bound, min bound) it was written from |
| `Functions.DebugFunctionShowsExactlyBounds` | src/function/mod.rs:31-37 | two dynamic functions have the same Debug text if and only if they have the same max and min bounds, whatever their bodies |
| `Functions.DebugConstFunctionShowsExactlyBounds` | src/function/mod.rs:65-71 | the same for const functions: the Debug text shows both bounds and never the body |
| `Functions.DebugOfNew` | src/function/mod.rs:23-27 | a new function renders as `Function { max_args: None, min_args: None }` (the named prefix, separator and suffix around `None` twice), and a new const function renders identically, since its Debug is also headed "Function" |
| `Fmt.Decimal` | src/function/mod.rs:34 | `{:?}` of a `usize` is a non-empty string of decimal digits, a single digit exactly when the number is below ten, and starting with `0` only for zero |
| `Fmt.DebugOption` | src/function/mod.rs:34-36 | `{:?}` of an `Option<usize>` is `None` exactly for no bound, otherwise `Some(` and `)` around the number, and it never holds a comma |
| `Fmt.DecimalRoundTrip` | src/function/mod.rs:34 | reading the decimal digits back gives the number that was written |
| `Fmt.DebugOptionRoundTrip` | src/function/mod.rs:34-36 | `{:?}` of an `Option<usize>` (`None` or `Some(n)`) can be parsed back to the same option |
| `Tree.RunCompiled` | src/expr/mod.rs:76 | `compile()?(..)`: a compile error is returned unchanged and nothing runs; otherwise the result is the unit's result on the given bindings |
| `Exprs.CreateEmptyContexts` | src/expr/mod.rs:196-199 | the default scope stack has exactly one frame, and that frame binds nothing |
| `Exprs.ConstRegistry.constructor` | src/expr/mod.rs:35 | a new registry holds no const functions |
| `Exprs.ConstRegistry.Insert` | src/expr/mod.rs:52 | inserting binds the name to the function and leaves every other name as it was; the last write wins |
| `Exprs.Expr.constructor` | src/expr/mod.rs:30-37 | `Expr::new` keeps the text unchanged. It starts with no cache, no dynamic functions and a freshly allocated, empty registry. It has exactly one empty frame |
| `Exprs.Expr.FromParts` | src/expr/mod.rs:91-101 | the struct literal stores each of the five given components as is |
| `Exprs.Expr.SetFunction` | src/expr/mod.rs:40-47 | binds `Function::new(closure)` under the name in this handle's own map, last write wins. Cache and frames are unchanged, so the one-frame invariant still holds, and the shared registry is not written |
| `Exprs.Expr.SetConstFunction` | src/expr/mod.rs:49-54 | binds `ConstFunction::new(fn)` under the name in the shared registry. It writes nothing but the registry, so every holder of that registry sees the binding |
| `Exprs.Expr.SetValue` | src/expr/mod.rs:56-63 | binds the value in the innermost frame only. The number of frames stays the same (so at least one), the outer frames are untouched, and cache and functions are unchanged |
| `Exprs.Expr.Compile` | src/expr/mod.rs:65-71 | on success, caches exactly the front end's unit for the text and returns the same handle. On failure, returns the front end's error and caches nothing. Functions and frames are unchanged either way. Both invariants hold afterwards: the one-frame invariant always, and the cache invariant on success or whenever it held before |
| `Exprs.Expr.Exec` | src/expr/mod.rs:73-80 | returns what compiling the current text and running it against the handle's frames, dynamic functions and current registry entries returns, cached or not. It writes nothing, so an uncompiled handle stays uncompiled |
| `Exprs.Expr.GetCompiled` | src/expr/mod.rs:82-85 | yields a unit exactly when the handle holds one, and then it is the cached unit itself |
| `Exprs.Expr.Clone` | src/expr/mod.rs:88-103 | the recompilation cannot fail. The copy has the same text (so it is `Eq` to the original), the same cache, a copy of the frames, no dynamic functions and the very same registry object. It keeps both invariants |
| `Exprs.Expr.Eq` | src/expr/mod.rs:111-115 | two handles are equal exactly when their texts are. It reads no mutable field, so cache, functions, frames and registry cannot affect it |
| `Exprs.Expr.Debug` | src/expr/mod.rs:105-109 | the Debug text is the `{:?}` rendering of the text. For any rendering that quotes, it is longer than the text and never equal to it |
| `Exprs.Expr.Serialize` | src/expr/mod.rs:117-124 | the serialized string is exactly the Debug rendering, not the raw text |
| `Exprs.Deserialize` | src/expr/mod.rs:126-134 | fails exactly when the front end rejects the string, with its error. Otherwise it gives a new compiled handle on that string, with no functions, one empty frame and a fresh empty registry |
| `Exprs.SerdeRoundTrip` | src/expr/mod.rs:105-134 | deserializing a serialized handle gives a handle on the quoted text, never `Eq` to the original. Dynamic functions, values and the shared registry are all lost |
| `Exprs.ExecOptions.constructor` | src/expr/mod.rs:146-155 | new options override nothing and hold the handle's own registry object |
| `Exprs.ExecOptions.SetContexts` | src/expr/mod.rs:157-161 | sets the scope-stack override (of any length, even empty) and leaves the functions override as it was |
| `Exprs.ExecOptions.SetFunctions` | src/expr/mod.rs:163-167 | sets the functions override and leaves the scope-stack override as it was |
| `Exprs.ExecOptions.Exec` | src/expr/mod.rs:169-192 | returns what compiling the handle's text and running it returns. It uses the overrides, or else one empty frame and no functions, and always the shared registry's current entries, cached or not. It writes neither the handle nor anything else |
| `Exprs.CloneSharesOnlyConstFunctions` | src/expr/mod.rs:88-102 | after cloning, a dynamic function and a value bound on the copy leave the original's functions, frames and cache unchanged. A const function bound through the copy is in the original's registry |
| `Exprs.OptionsSeeSharedRegistry` | src/expr/mod.rs:145-155 | an `ExecOptions` created before a const function is bound through a clone of its handle still runs with that function in the registry |

## Left out

- The parser/compiler (`crate::tree`) and the body of the compiled closure are not part of this model. They are the opaque parameter `fe` and the `Unit` arrow. As a consequence, name resolution order between dynamic and const functions, variable shadowing across frames and arity enforcement are not modelled: they happen inside the closure.
- Exprs.Expr.Exec and Exprs.ExecOptions.Exec give the compiled unit a snapshot of the registry's entries. In Rust it receives the `Rc` itself. A unit that writes into the registry while running is not modelled.
- Closure and function-pointer bodies, and compiled units, are opaque pure arrows. So the model promises that two `exec` calls on an unchanged handle return the same value. A Rust closure bound through `function` may capture external state and return something different on each call; the model does not capture that. `Sync`/`Send` bounds, `Rc` reference counts and `RefCell` borrow panics are runtime and concurrency concerns, and are left out.
- `{:?}` escaping of strings is standard-library formatting. It is the parameter `DebugQuote`. Only its shape is assumed (`QuotesLikeDebug`): it opens and closes with a double quote, and no character shrinks.
- `to_value` and the serde (de)serializer machinery are external libraries. `SetValue` takes an already converted `Value`. `Deserialize` takes the already decoded string and returns the compile error itself, not one wrapped by `serde::de::Error::custom`.
- Arity bounds are `nat`, so the upper limit of `usize` is not modelled. Nothing computes with the bounds.
- Builder methods that take `mut self` and return it are in-place updates of the same object. `Compile`'s error path leaves the handle unchanged instead of dropping it. Rust's `exec(&mut self)` is a method without a `modifies` clause, because it writes nothing.
- The lifetimes in the return types of `ExecOptions::contexts`/`functions` are not modelled. The setters return nothing.
- `crate::error::Error` is not part of this model. An error is carried as its description.
