/**
 * The expression handle `Expr` and the per-call override `ExecOptions`.
 *
 * A handle owns its text (never changed after creation), an optional cached
 * compiled unit, its own map of dynamic functions and a stack of scopes, and
 * holds a const-function registry that it shares, by reference, with every
 * clone made from it and every `ExecOptions` built on it.
 */
module Exprs {
  import opened Wrappers
  import opened Values
  import opened Fmt
  import opened Functions
  import opened Tree

  /** `Rc<RefCell<ConstFunctions>>`: one registry object, seen by every holder of the reference. */
  class ConstRegistry {
    var entries: ConstFunctions

    constructor ()
      ensures entries == map[]
    {
      entries := map[];
    }

    /** `borrow_mut().insert(name, f)`: the last write for a name wins. */
    method Insert(name: string, f: ConstFunction)
      modifies this
      ensures entries == old(entries)[name := f]
    {
      entries := entries[name := f];
    }
  }

  /** create_empty_contexts: exactly one frame, binding nothing. */
  function CreateEmptyContexts(): (cs: Contexts)
    ensures |cs| == 1 && cs[0] == map[]
  {
    [map[]]
  }

  class Expr {
    const expression: string
    var compiled: Option<Unit>
    var functions: DynamicFunctions
    const constFunctions: ConstRegistry
    var contexts: Contexts

    /** There is always an innermost frame for `SetValue` to write to. */
    ghost predicate Valid()
      reads this
    {
      1 <= |contexts|
    }

    /** The cached unit, when there is one, is what the front end makes of the text. */
    ghost predicate CacheFrom(fe: Compiler)
      reads this
    {
      compiled.Some? ==> fe(expression) == Ok(compiled.value)
    }

    /** Expr::new: the text as given, no cache, no functions, a registry of its own, one empty frame. */
    constructor (expr: string)
      ensures expression == expr && compiled == None && functions == map[]
      ensures fresh(constFunctions) && constFunctions.entries == map[]
      ensures contexts == CreateEmptyContexts()
      ensures Valid()
    {
      expression := expr;
      compiled := None;
      functions := map[];
      constFunctions := new ConstRegistry();
      contexts := CreateEmptyContexts();
    }

    /** The struct literal `Expr { .. }`, as `clone` uses it. */
    constructor FromParts(expression: string, compiled: Option<Unit>, functions: DynamicFunctions,
                          constFunctions: ConstRegistry, contexts: Contexts)
      ensures this.expression == expression && this.compiled == compiled
      ensures this.functions == functions && this.constFunctions == constFunctions
      ensures this.contexts == contexts
    {
      this.expression := expression;
      this.compiled := compiled;
      this.functions := functions;
      this.constFunctions := constFunctions;
      this.contexts := contexts;
    }

    /** `function(name, closure)`: binds a dynamic function in this handle only. */
    method SetFunction(name: string, closure: Body)
      modifies this
      ensures functions == old(functions)[name := NewFunction(closure)]
      ensures compiled == old(compiled) && contexts == old(contexts)
      ensures old(Valid()) ==> Valid()
    {
      functions := functions[name := NewFunction(closure)];
    }

    /** `const_function(name, fn)`: binds into the shared registry; the handle's own fields stay as they are. */
    method SetConstFunction(name: string, closure: Body)
      modifies constFunctions
      ensures constFunctions.entries == old(constFunctions.entries)[name := NewConstFunction(closure)]
    {
      constFunctions.Insert(name, NewConstFunction(closure));
    }

    /** `value(name, v)`: binds in the innermost frame; the outer frames and the depth stay as they are. */
    method SetValue(name: string, v: Value)
      requires Valid()
      modifies this
      ensures Valid() && |contexts| == |old(contexts)|
      ensures contexts[..|contexts| - 1] == old(contexts)[..|contexts| - 1]
      ensures contexts[|contexts| - 1] == old(contexts)[|contexts| - 1][name := v]
      ensures compiled == old(compiled) && functions == old(functions)
    {
      var last := |contexts| - 1;
      contexts := contexts[last := contexts[last][name := v]];
    }

    /**
     * compile: on success caches the front end's unit and hands the handle back;
     * on failure returns the error (the handle is consumed, nothing was cached).
     */
    method Compile(fe: Compiler) returns (r: Result<Expr, Error>)
      modifies this
      ensures fe(expression).Ok? ==> r == Ok(this) && compiled == Some(fe(expression).value)
      ensures fe(expression).Err? ==> r == Err(fe(expression).error) && compiled == old(compiled)
      ensures functions == old(functions) && contexts == old(contexts)
      ensures old(Valid()) ==> Valid()
      ensures r.Ok? ==> CacheFrom(fe)
      ensures old(CacheFrom(fe)) ==> CacheFrom(fe)
    {
      var unit :- fe(expression);
      compiled := Some(unit);
      r := Ok(this);
    }

    /**
     * exec: the result of compiling the current text and running it against
     * this handle's frames, dynamic functions and the registry's current
     * entries, whether or not a unit is cached. It changes nothing, so an
     * uncompiled handle stays uncompiled.
     */
    method Exec(fe: Compiler) returns (r: Result<Value, Error>)
      requires CacheFrom(fe)
      ensures r == RunCompiled(fe(expression), contexts, functions, constFunctions.entries)
    {
      if compiled.None? {
        r := RunCompiled(fe(expression), contexts, functions, constFunctions.entries);
      } else {
        r := compiled.value.run(contexts, functions, constFunctions.entries);
      }
    }

    /** get_compiled: the cached unit itself, present exactly when the handle was compiled. */
    function GetCompiled(): (c: Option<Unit>)
      reads this
      ensures c.Some? <==> compiled.Some?
      ensures c.Some? ==> c.value == compiled.value
    {
      compiled
    }

    /**
     * clone: same text, same frames (a copy), no dynamic functions, the same
     * registry object, and a cache exactly when the original has one. The
     * recompilation cannot fail: the front end already accepted this text.
     */
    method Clone(fe: Compiler) returns (c: Expr)
      requires Valid() && CacheFrom(fe)
      ensures fresh(c) && c.Valid() && c.CacheFrom(fe)
      ensures c.expression == expression && c.Eq(this)
      ensures c.compiled == compiled
      ensures c.contexts == contexts && c.functions == map[]
      ensures c.constFunctions == constFunctions
    {
      var unit := if compiled.Some? then Some(fe(expression).value) else None;
      c := new Expr.FromParts(expression, unit, map[], constFunctions, contexts);
    }

    /** PartialEq: equal exactly when the texts are; nothing else is compared. */
    predicate Eq(other: Expr)
      ensures Eq(other) <==> expression == other.expression
    {
      expression == other.expression
    }

    /** Debug: the text as `{:?}` renders a string; never the raw text itself. */
    function Debug(q: DebugQuote): (s: string)
      ensures s == q(expression)
      ensures QuotesLikeDebug(q) ==> s != expression && |s| >= |expression| + 2
    {
      q(expression)
    }

    /** Serialize: the Debug rendering, as one string. */
    function Serialize(q: DebugQuote): (s: string)
      ensures s == Debug(q)
    {
      Debug(q)
    }
  }

  /**
   * Deserialize: a new handle on the given string, compiled; it has no
   * functions, one empty frame and a registry of its own.
   */
  method Deserialize(s: string, fe: Compiler) returns (r: Result<Expr, Error>)
    ensures r.Err? <==> fe(s).Err?
    ensures r.Err? ==> r.error == fe(s).error
    ensures r.Ok? ==> fresh(r.value) && fresh(r.value.constFunctions)
    ensures r.Ok? ==> r.value.expression == s && r.value.compiled == Some(fe(s).value)
    ensures r.Ok? ==> r.value.functions == map[] && r.value.contexts == CreateEmptyContexts()
    ensures r.Ok? ==> r.value.constFunctions.entries == map[]
    ensures r.Ok? ==> r.value.Valid() && r.value.CacheFrom(fe)
  {
    var e := new Expr(s);
    r := e.Compile(fe);
  }

  /**
   * A serde round trip keeps none of the handle's bindings, and not even its
   * text: what comes back is the quoted text, so it is never `Eq` to the original.
   */
  method SerdeRoundTrip(e: Expr, q: DebugQuote, fe: Compiler) returns (r: Result<Expr, Error>)
    requires QuotesLikeDebug(q)
    ensures r.Err? <==> fe(q(e.expression)).Err?
    ensures r.Ok? ==> r.value.expression == q(e.expression) && !r.value.Eq(e)
    ensures r.Ok? ==> r.value.functions == map[] && r.value.contexts == CreateEmptyContexts()
    ensures r.Ok? ==> fresh(r.value.constFunctions) && r.value.constFunctions.entries == map[]
  {
    r := Deserialize(e.Serialize(q), fe);
  }

  /** ExecOptions: runs a handle's text against other bindings without touching the handle. */
  class ExecOptions {
    const expr: Expr
    var contexts: Option<Contexts>
    var functions: Option<DynamicFunctions>
    const constFunctions: ConstRegistry

    /** ExecOptions::new: no overrides, and the handle's own registry object. */
    constructor (expr: Expr)
      ensures this.expr == expr && contexts == None && functions == None
      ensures constFunctions == expr.constFunctions
    {
      this.expr := expr;
      contexts := None;
      functions := None;
      constFunctions := expr.constFunctions;
    }

    /** `contexts(cs)`: overrides the scope stack, which may have any number of frames. */
    method SetContexts(cs: Contexts)
      modifies this
      ensures contexts == Some(cs) && functions == old(functions)
    {
      contexts := Some(cs);
    }

    /** `functions(fs)`: overrides the dynamic functions. */
    method SetFunctions(fs: DynamicFunctions)
      modifies this
      ensures functions == Some(fs) && contexts == old(contexts)
    {
      functions := Some(fs);
    }

    /**
     * exec: the result of compiling the handle's text and running it against
     * the override bindings, or else one empty frame and no functions, always
     * with the shared registry's current entries; it changes nothing.
     */
    method Exec(fe: Compiler) returns (r: Result<Value, Error>)
      requires expr.CacheFrom(fe)
      ensures r == RunCompiled(fe(expr.expression), contexts.GetOr(CreateEmptyContexts()),
                               functions.GetOr(map[]), constFunctions.entries)
    {
      var cs := if contexts.Some? then contexts.value else CreateEmptyContexts();
      var fs := if functions.Some? then functions.value else map[];
      var c := expr.GetCompiled();
      if c.Some? {
        r := c.value.run(cs, fs, constFunctions.entries);
      } else {
        r := RunCompiled(fe(expr.expression), cs, fs, constFunctions.entries);
      }
    }
  }

  /**
   * After a clone, a dynamic function or value bound on the copy is not seen
   * by the original, while a const function bound through the copy is.
   */
  method CloneSharesOnlyConstFunctions(e: Expr, fe: Compiler, name: string, closure: Body,
                                       vname: string, v: Value, cname: string, cfn: Body)
    returns (c: Expr)
    requires e.Valid() && e.CacheFrom(fe)
    modifies e.constFunctions
    ensures fresh(c) && c.Valid() && c.constFunctions == e.constFunctions
    ensures c.functions == map[name := NewFunction(closure)]
    ensures c.contexts[|c.contexts| - 1] == e.contexts[|e.contexts| - 1][vname := v]
    ensures e.functions == old(e.functions) && e.contexts == old(e.contexts)
    ensures e.compiled == old(e.compiled)
    ensures e.constFunctions.entries == old(e.constFunctions.entries)[cname := NewConstFunction(cfn)]
  {
    c := e.Clone(fe);
    c.SetFunction(name, closure);
    c.SetValue(vname, v);
    c.SetConstFunction(cname, cfn);
  }

  /**
   * An ExecOptions sees const functions bound later through a clone of its
   * handle, since all three hold the same registry.
   */
  method OptionsSeeSharedRegistry(e: Expr, fe: Compiler, cname: string, cfn: Body)
    returns (r: Result<Value, Error>)
    requires e.Valid() && e.CacheFrom(fe)
    modifies e.constFunctions
    ensures r == RunCompiled(fe(e.expression), CreateEmptyContexts(), map[],
                             old(e.constFunctions.entries)[cname := NewConstFunction(cfn)])
  {
    var opts := new ExecOptions(e);
    var c := e.Clone(fe);
    c.SetConstFunction(cname, cfn);
    r := opts.Exec(fe);
  }
}
