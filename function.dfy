/**
 * The function records stored by an expression handle: a dynamic `Function`
 * wrapping a closure and a `ConstFunction` wrapping a plain function pointer,
 * each with optional argument-count bounds and an opaque body.
 */
module Functions {
  import opened Wrappers
  import opened Values
  import opened Fmt

  /** What a function body computes from its argument list; the body itself is opaque. */
  type Body = seq<Value> -> Result<Value, Error>

  /** A closure with optional arity bounds; it is not duplicable. */
  datatype Function = Function(maxArgs: Option<nat>, minArgs: Option<nat>, compiled: Body)

  /** A function pointer (`StaticFunction`) with optional arity bounds; freely copied. */
  datatype ConstFunction = ConstFunction(maxArgs: Option<nat>, minArgs: Option<nat>, compiled: Body)

  /** The handle's own functions, by name. */
  type DynamicFunctions = map<string, Function>

  /** The shared registry's contents, by name. */
  type ConstFunctions = map<string, ConstFunction>

  /** Function::new: both bounds absent, the closure kept as the body. */
  function NewFunction(closure: Body): (f: Function)
    ensures f.maxArgs == None && f.minArgs == None
    ensures f.compiled == closure
  {
    Function(None, None, closure)
  }

  /** ConstFunction::new: both bounds absent, the function pointer kept as the body. */
  function NewConstFunction(closure: Body): (f: ConstFunction)
    ensures f.maxArgs == None && f.minArgs == None
    ensures f.compiled == closure
  {
    ConstFunction(None, None, closure)
  }

  /** The derived `Clone`/`Copy` of a ConstFunction: a field-by-field copy. */
  function CopyConstFunction(f: ConstFunction): (g: ConstFunction)
    ensures g == f
  {
    ConstFunction(f.maxArgs, f.minArgs, f.compiled)
  }

  const DebugPrefix: string := "Function { max_args: "
  const DebugMiddle: string := ", min_args: "
  const DebugSuffix: string := " }"

  /** The text both Debug implementations write for the given bounds. */
  function DebugBounds(maxArgs: Option<nat>, minArgs: Option<nat>): string {
    DebugPrefix + DebugInner(maxArgs, minArgs) + DebugSuffix
  }

  /** The two bounds and the separator between them. */
  function DebugInner(maxArgs: Option<nat>, minArgs: Option<nat>): string {
    DebugOption(maxArgs) + DebugMiddle + DebugOption(minArgs)
  }

  /** Debug for Function: the two bounds, max then min, and nothing else. */
  function DebugFunction(f: Function): (s: string)
    ensures ParseDebugBounds(s) == Some((f.maxArgs, f.minArgs))
  {
    DebugBoundsRoundTrip(f.maxArgs, f.minArgs);
    DebugBounds(f.maxArgs, f.minArgs)
  }

  /** Debug for ConstFunction: the same layout, also headed "Function". */
  function DebugConstFunction(f: ConstFunction): (s: string)
    ensures ParseDebugBounds(s) == Some((f.maxArgs, f.minArgs))
    ensures s == DebugFunction(Function(f.maxArgs, f.minArgs, f.compiled))
  {
    DebugBoundsRoundTrip(f.maxArgs, f.minArgs);
    DebugBounds(f.maxArgs, f.minArgs)
  }

  /** Reads the bounds (max, then min) back from a Debug rendering. */
  function ParseDebugBounds(s: string): Option<(Option<nat>, Option<nat>)> {
    var lo, hi := |DebugPrefix|, |s| - |DebugSuffix|;
    if hi < lo || s[..lo] != DebugPrefix || s[hi..] != DebugSuffix then None
    else ParseBoundsInner(s[lo..hi])
  }

  /** Reads `<max>, min_args: <min>` back; the first comma ends the max bound. */
  function ParseBoundsInner(inner: string): Option<(Option<nat>, Option<nat>)> {
    var k := FirstIndexOf(inner, ',');
    if |inner| < k + |DebugMiddle| || inner[k..k + |DebugMiddle|] != DebugMiddle then None
    else
      match (ParseDebugOption(inner[..k]), ParseDebugOption(inner[k + |DebugMiddle|..]))
      case (Some(mx), Some(mn)) => Some((mx, mn))
      case _ => None
  }

  /** Where the three parts of `x + y + z` sit. */
  lemma SlicesOfThree(x: string, y: string, z: string)
    ensures (x + y + z)[..|x|] == x
    ensures (x + y + z)[|x|..|x| + |y|] == y
    ensures (x + y + z)[|x| + |y|..] == z
  {
  }

  lemma BoundsInnerRoundTrip(maxArgs: Option<nat>, minArgs: Option<nat>)
    ensures ParseBoundsInner(DebugInner(maxArgs, minArgs)) == Some((maxArgs, minArgs))
  {
    var a, b := DebugOption(maxArgs), DebugOption(minArgs);
    var inner := a + DebugMiddle + b;
    SlicesOfThree(a, DebugMiddle, b);
    assert inner == a + (DebugMiddle + b);
    FirstIndexOfAfter(a, DebugMiddle + b, ',');
    DebugOptionRoundTrip(maxArgs);
    DebugOptionRoundTrip(minArgs);
  }

  lemma DebugBoundsRoundTrip(maxArgs: Option<nat>, minArgs: Option<nat>)
    ensures ParseDebugBounds(DebugBounds(maxArgs, minArgs)) == Some((maxArgs, minArgs))
  {
    var inner := DebugInner(maxArgs, minArgs);
    SlicesOfThree(DebugPrefix, inner, DebugSuffix);
    BoundsInnerRoundTrip(maxArgs, minArgs);
  }

  /** The Debug text of a Function determines its bounds and nothing else: never its body. */
  lemma DebugFunctionShowsExactlyBounds(f: Function, g: Function)
    ensures DebugFunction(f) == DebugFunction(g) <==> f.maxArgs == g.maxArgs && f.minArgs == g.minArgs
  {
  }

  /** The same for ConstFunction. */
  lemma DebugConstFunctionShowsExactlyBounds(f: ConstFunction, g: ConstFunction)
    ensures DebugConstFunction(f) == DebugConstFunction(g) <==> f.maxArgs == g.maxArgs && f.minArgs == g.minArgs
  {
  }

  /** A freshly made record of either kind renders as unbounded on both sides. */
  lemma DebugOfNew(closure: Body)
    ensures DebugFunction(NewFunction(closure)) == DebugPrefix + "None" + DebugMiddle + "None" + DebugSuffix
    ensures DebugConstFunction(NewConstFunction(closure)) == DebugFunction(NewFunction(closure))
  {
  }
}
