/**
 * The symbol table (semantic/symtab.py): a tree of scopes. Each table has a
 * fixed name, parent and scope kind, a dictionary of bindings that `Add` and
 * `Remove` change in place, and a list of child tables that grows when a child
 * is constructed.
 */
module Symbols {
  import opened Wrappers
  import opened Ast
  import opened Scopes

  /** Why `add` or `remove` raised. */
  datatype SymtabError = SymbolDefined(name: string) | SymbolNotFound(name: string)

  class Symtab {
    const name: string
    const parent: Symtab?
    const scopeType: string
    /** Distance from the root table; it makes the parent chain finite. */
    ghost const depth: nat
    var entries: map<string, Entry>
    var children: seq<Symtab>

    /** Each parent is strictly closer to the root. */
    ghost predicate Linked()
      decreases depth
    {
      parent != null ==> parent.depth < depth && parent.Linked()
    }

    /** This table and all its ancestors. */
    ghost function Chain(): set<Symtab>
      requires Linked()
      decreases depth
    {
      {this} + (if parent == null then {} else parent.Chain())
    }

    function View(): Scope
      reads this
    {
      Scope(scopeType, entries)
    }

    /** The scopes `get` walks, this table first. */
    function ChainView(): (v: Chain)
      requires Linked()
      reads Chain()
      ensures |v| > 0 && v[0] == View()
      decreases depth
    {
      [View()] + (if parent == null then [] else parent.ChainView())
    }

    /** A new table with no bindings and no children, appended to its parent's children. */
    constructor (name: string, parent: Symtab?, scopeType: string)
      requires parent != null ==> parent.Linked()
      modifies if parent == null then {} else {parent}
      ensures this.name == name && this.parent == parent && this.scopeType == scopeType
      ensures entries == map[] && children == []
      ensures Linked()
      ensures parent != null ==> parent.children == old(parent.children) + [this]
      ensures parent != null ==> parent.entries == old(parent.entries)
      ensures parent != null ==> parent.ChainView() == old(parent.ChainView())
    {
      if parent != null {
        parent.ChainAllocated();
      }
      this.name := name;
      this.parent := parent;
      this.scopeType := scopeType;
      depth := if parent == null then 0 else parent.depth + 1;
      entries := map[];
      children := [];
      new;
      if parent != null {
        ghost var before := parent.ChainView();
        if parent.parent != null {
          parent.NotAnAncestor();
        }
        parent.children := parent.children + [this];
        assert parent.ChainView() == before;
      }
    }

    /** Every table in the chain is at most as deep as this one. */
    lemma {:induction false} ChainDepth()
      requires Linked()
      ensures forall t :: t in Chain() ==> t.depth <= depth
      decreases depth
    {
      if parent != null {
        parent.ChainDepth();
      }
    }

    /** Every table of the chain is allocated, so a call that changes no old object leaves the chain's view alone. */
    lemma {:induction false} ChainAllocated()
      requires Linked()
      ensures forall t :: t in Chain() ==> allocated(t)
      decreases depth
    {
      if parent != null {
        parent.ChainAllocated();
      }
    }

    /** A table is not among its parent's ancestors, so changing it leaves the outer chain alone. */
    lemma NotAnAncestor()
      requires Linked() && parent != null
      ensures this !in parent.Chain()
    {
      parent.ChainDepth();
    }

    /** `add`: bind a name absent from this table; a name already here is an error and changes nothing. */
    method Add(n: string, value: Entry) returns (err: Option<SymtabError>)
      modifies this
      ensures err.None? <==> n !in old(entries)
      ensures err.None? ==> entries == old(entries)[n := value]
      ensures err.Some? ==> err.value == SymbolDefined(n) && entries == old(entries)
      ensures children == old(children)
    {
      if n in entries {
        return Some(SymbolDefined(n));
      }
      entries := entries[n := value];
      return None;
    }

    /** `remove`: delete a name bound in this table; an absent name is an error. */
    method Remove(n: string) returns (err: Option<SymtabError>)
      modifies this
      ensures err.None? <==> n in old(entries)
      ensures err.None? ==> entries == old(entries) - {n}
      ensures err.Some? ==> err.value == SymbolNotFound(n) && entries == old(entries)
      ensures children == old(children)
    {
      if n !in entries {
        return Some(SymbolNotFound(n));
      }
      entries := entries - {n};
      return None;
    }

    /** `get`: the binding in this table, else the parent's answer, else None. */
    function Get(n: string): (r: Option<Entry>)
      requires Linked()
      reads Chain()
      ensures r == Lookup(ChainView(), n)
      decreases depth
    {
      if n in entries then Some(entries[n])
      else if parent != null then parent.Get(n)
      else None
    }

    /** The nearest table of kind `t`, this one included. */
    ghost function ScopeOfType(t: string): (r: Symtab?)
      requires Linked()
      decreases depth
    {
      if scopeType == t then this
      else if parent == null then null
      else parent.ScopeOfType(t)
    }

    /** The nearest table of kind `t` is the one the value chain names, and its chain is the rest of ours. */
    lemma {:induction false} ScopeOfTypeIsNearest(t: string)
      requires Linked()
      ensures ScopeOfType(t) == null <==> FirstOfType(ChainView(), t).None?
      ensures ScopeOfType(t) != null ==>
                ScopeOfType(t).Linked() && ScopeOfType(t).scopeType == t &&
                ScopeOfType(t).ChainView() == ChainView()[FirstOfType(ChainView(), t).value..]
      decreases depth
    {
      var cv := ChainView();
      if scopeType == t {
        assert cv[0].scopeType == t && cv[0..] == cv;
      } else if parent == null {
        assert cv == [View()] && cv[1..] == [];
      } else {
        parent.ScopeOfTypeIsNearest(t);
        var pv := parent.ChainView();
        assert cv == [View()] + pv;
        assert cv[1..] == pv;
        var r := FirstOfType(pv, t);
        assert FirstOfType(cv, t) == if r.Some? then Some(r.value + 1) else None;
        if r.Some? {
          assert cv[r.value + 1..] == pv[r.value..];
        }
      }
    }

    /** `find_scope_of_type`: walk from this table through the parents. */
    method FindScopeOfType(t: string) returns (r: Symtab?)
      requires Linked()
      ensures r == ScopeOfType(t)
    {
      var env: Symtab? := this;
      while env != null
        invariant env != null ==> env.Linked() && env.ScopeOfType(t) == ScopeOfType(t)
        invariant env == null ==> ScopeOfType(t) == null
        decreases if env == null then 0 else env.depth + 1
      {
        if env.scopeType == t {
          return env;
        }
        env := env.parent;
      }
      return null;
    }

    /** A table qualifies for `find_scope_of_type_name_child` when its kind is `t` and it binds `n` to a true value. */
    predicate Qualifies(t: string, n: string)
      reads this
    {
      scopeType == t && BindsTruthy(View(), n)
    }

    /**
     * `find_scope_of_type_name_child`: this table if it qualifies, else the
     * first direct child in list order that qualifies, else null.
     * Grandchildren are never examined.
     */
    method FindScopeOfTypeNameChild(t: string, n: string) returns (r: Symtab?)
      ensures r == this <==> Qualifies(t, n)
      ensures r != null && r != this ==>
                exists i :: 0 <= i < |children| && children[i] == r && r.Qualifies(t, n) &&
                            forall j :: 0 <= j < i ==> !children[j].Qualifies(t, n)
      ensures r == null ==> !Qualifies(t, n) && forall j :: 0 <= j < |children| ==> !children[j].Qualifies(t, n)
    {
      if scopeType == t && n in entries && EntryTruthy(entries[n]) {
        return this;
      }
      var i := 0;
      while i < |children|
        invariant 0 <= i <= |children|
        invariant forall j :: 0 <= j < i ==> !children[j].Qualifies(t, n)
      {
        var child := children[i];
        if child.scopeType == t && n in child.entries && EntryTruthy(child.entries[n]) {
          return child;
        }
        i := i + 1;
      }
      return null;
    }
  }

  /** The value view of a list of tables, in order. */
  function Views(ts: seq<Symtab>): (r: seq<Scope>)
    reads ts
    ensures |r| == |ts|
  {
    seq(|ts|, i requires 0 <= i < |ts| reads ts => ts[i].View())
  }

  /** The views of two lists of tables, one after the other. */
  lemma ViewsAppend(a: seq<Symtab>, b: seq<Symtab>)
    ensures Views(a + b) == Views(a) + Views(b)
  {
  }
}
