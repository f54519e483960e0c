/**
 * What a symbol table holds, seen as values: the entries a scope binds and
 * the chain of scopes a lookup walks, innermost first. The Symtab objects of
 * module Symbols are proved to agree with these functions, and the checker's
 * reference definition is written over them.
 */
module Scopes {
  import opened Wrappers
  import opened Ast

  /**
   * What a name can be bound to. Declarations are recorded by the attributes
   * later lookups read: a variable's declared type, a function's parameters
   * and return type, a parameter's type. `LoopMarker` is the `True` bound to
   * 'in_while' and `ReturnTypeEntry` the function scope's 'return_type'.
   */
  datatype Entry =
    | VarEntry(varType: Option<TypeName>)
    | FuncEntry(parameters: seq<Parameter>, returnType: Option<TypeName>)
    | ParamEntry(paramType: TypeName)
    | LoopMarker
    | ReturnTypeEntry(t: Option<TypeName>)

  /** Python truthiness of a bound value: declaration nodes and True are true; a return type is true when it is a non-empty name. */
  predicate EntryTruthy(e: Entry) {
    !e.ReturnTypeEntry? || Truthy(e.t)
  }

  /** The `type` attribute of a bound value, when it has one (variables and parameters). */
  function TypeOfEntry(e: Entry): Option<Option<TypeName>> {
    match e
    case VarEntry(t) => Some(t)
    case ParamEntry(t) => Some(Some(t))
    case _ => None
  }

  /** One scope: its kind ('global' or 'function') and its bindings. */
  datatype Scope = Scope(scopeType: string, entries: map<string, Entry>)

  /** A chain of scopes, innermost first, as `get` walks it. */
  type Chain = seq<Scope>

  /** The binding `get` finds: the one in the innermost scope that binds `name`. */
  function Lookup(chain: Chain, name: string): (r: Option<Entry>)
    ensures r.Some? <==> exists i :: 0 <= i < |chain| && name in chain[i].entries
  {
    if |chain| == 0 then None
    else if name in chain[0].entries then Some(chain[0].entries[name])
    else Lookup(chain[1..], name)
  }

  /** The index of the nearest scope of kind `t`, as `find_scope_of_type` walks it. */
  function FirstOfType(chain: Chain, t: string): (r: Option<nat>)
    ensures r.Some? ==> r.value < |chain| && chain[r.value].scopeType == t
    ensures r.Some? ==> forall j :: 0 <= j < r.value ==> chain[j].scopeType != t
    ensures r.None? ==> forall j :: 0 <= j < |chain| ==> chain[j].scopeType != t
  {
    if |chain| == 0 then None
    else if chain[0].scopeType == t then Some(0)
    else
      var r := FirstOfType(chain[1..], t);
      if r.Some? then Some(r.value + 1) else None
  }

  /** The chain after the innermost scope's bindings became `top`. */
  function WithTop(chain: Chain, top: map<string, Entry>): Chain
    requires |chain| > 0
  {
    [chain[0].(entries := top)] + chain[1..]
  }

  /** The scope binds `name` to a true value (`entries.get(name)` is truthy). */
  predicate BindsTruthy(s: Scope, name: string) {
    name in s.entries && EntryTruthy(s.entries[name])
  }

  /** The binding found is the innermost one: no scope closer in binds the name, and the found scope does. */
  lemma {:induction false} LookupIsInnermost(chain: Chain, name: string, k: nat)
    requires k < |chain| && name in chain[k].entries
    requires forall j :: 0 <= j < k ==> name !in chain[j].entries
    ensures Lookup(chain, name) == Some(chain[k].entries[name])
    decreases k
  {
    if k > 0 {
      assert name !in chain[0].entries;
      LookupIsInnermost(chain[1..], name, k - 1);
    }
  }

  /** Rebinding the innermost scope does not change what the outer scopes bind. */
  lemma {:induction false} LookupShadowed(chain: Chain, top: map<string, Entry>, name: string)
    requires |chain| > 0
    ensures name in top ==> Lookup(WithTop(chain, top), name) == Some(top[name])
    ensures name !in top ==> Lookup(WithTop(chain, top), name) == Lookup(chain[1..], name)
  {
    assert WithTop(chain, top)[1..] == chain[1..];
  }
}
