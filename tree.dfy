/**
 * The interface of the front end in `crate::tree` and of the compiled closure
 * (`crate::Compiled`). Neither is part of this model: a compiled unit is an
 * opaque function of the bindings, and the front end an opaque function of the
 * text, which makes compilation deterministic.
 */
module Tree {
  import opened Wrappers
  import opened Values
  import opened Functions

  /** A compiled expression: run against a scope stack, dynamic functions and the const registry's entries. */
  datatype Unit = Unit(run: (Contexts, DynamicFunctions, ConstFunctions) -> Result<Value, Error>)

  /** `Tree::new(text).compile()`. */
  type Compiler = string -> Result<Unit, Error>

  /** `compiled?(contexts, functions, consts)`: a compile error is returned as is, otherwise the unit runs. */
  function RunCompiled(c: Result<Unit, Error>, cs: Contexts, fs: DynamicFunctions, consts: ConstFunctions): (r: Result<Value, Error>)
    ensures c.Err? ==> r == Err(c.error)
    ensures c.Ok? ==> r == c.value.run(cs, fs, consts)
  {
    match c
    case Err(e) => Err(e)
    case Ok(u) => u.run(cs, fs, consts)
  }
}
