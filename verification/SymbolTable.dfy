/** The symbol table over 26 bucket chains (src/symbol_table.c), proved against Scopes. */
module SymbolTables {
  import opened Wrappers
  import opened Core
  import opened Scopes

  /** The bucket of a name is its first letter; names start with one of a to z. */
  predicate Hashable(name: string) { name != "" && 'a' <= name[0] <= 'z' }

  function Hash(name: string): (h: nat)
    requires Hashable(name)
    ensures h < 26
  {
    name[0] as int - 'a' as int
  }

  datatype Node = Node(key: string, item: Var)

  /** The item under a key in a chain: the first match. */
  function Lookup(chain: seq<Node>, key: string): Option<Var> {
    if chain == [] then None
    else if chain[0].key == key then Some(chain[0].item)
    else Lookup(chain[1..], key)
  }

  lemma {:induction false} LookupPast(chain: seq<Node>, i: nat, key: string)
    requires i <= |chain| && forall k | 0 <= k < i :: chain[k].key != key
    ensures Lookup(chain, key) == Lookup(chain[i..], key)
    decreases i
  {
    if i > 0 {
      LookupPast(chain[1..], i - 1, key);
      assert chain[1..][i - 1..] == chain[i..];
    } else {
      assert chain[0..] == chain;
    }
  }

  /** Where a key's item is replaced. */
  lemma {:induction false} LookupReplaced(chain: seq<Node>, i: nat, item: Var, key: string)
    requires i < |chain| && forall k | 0 <= k < i :: chain[k].key != chain[i].key
    ensures Lookup(chain[i := Node(chain[i].key, item)], key) == if key == chain[i].key then Some(item)
            else Lookup(chain, key)
    decreases i
  {
    var changed := chain[i := Node(chain[i].key, item)];
    if i > 0 {
      LookupReplaced(chain[1..], i - 1, item, key);
      assert changed[1..] == chain[1..][i - 1 := Node(chain[i].key, item)];
    } else {
      assert changed[1..] == chain[1..];
    }
  }

  /** hashmap_insert, hashmap_get. */
  class HashMap {
    const table: array<seq<Node>>
    ghost var store: map<string, Var>

    ghost predicate Valid()
      reads this, table
    {
      && table.Length == 26
      && (forall name | name in store :: Hashable(name))
      && forall name | Hashable(name) ::
           Lookup(table[Hash(name)], name) == if name in store then Some(store[name]) else None
    }

    constructor ()
      ensures Valid() && store == map[] && fresh(table)
    {
      table := new seq<Node>[26](_ => []);
      store := map[];
    }

    method Get(key: string) returns (r: Option<Var>)
      requires Valid() && Hashable(key)
      ensures r == if key in store then Some(store[key]) else None
    {
      var chain := table[Hash(key)];
      var i := 0;
      while i < |chain|
        invariant 0 <= i <= |chain| && forall k | 0 <= k < i :: chain[k].key != key
      {
        if chain[i].key == key {
          LookupPast(chain, i, key);
          return Some(chain[i].item);
        }
        i := i + 1;
      }
      LookupPast(chain, i, key);
      return None;
    }

    /** A key that is there gets the new item; any other goes to the head of its chain. */
    method Insert(key: string, item: Var)
      requires Valid() && Hashable(key)
      modifies this, table
      ensures Valid() && store == old(store)[key := item]
    {
      var pos := Hash(key);
      var chain := table[pos];
      store := store[key := item];
      var i := 0;
      while i < |chain|
        invariant 0 <= i <= |chain| && forall k | 0 <= k < i :: chain[k].key != key
        invariant unchanged(table) && store == old(store)[key := item]
      {
        if chain[i].key == key {
          table[pos] := chain[i := Node(key, item)];
          forall name | Hashable(name) && Hash(name) == pos
            ensures Lookup(table[pos], name) == if name == key then Some(item) else Lookup(chain, name)
          {
            LookupReplaced(chain, i, item, name);
          }
          return;
        }
        i := i + 1;
      }
      table[pos] := [Node(key, item)] + chain;
      assert table[pos][1..] == chain;
    }
  }

  /** A scope and the scopes around it. */
  class SymbolTable {
    const names: HashMap
    const outer: SymbolTable?
    var size: nat
    ghost const repr: set<object>

    ghost predicate Valid()
      reads this, repr
      decreases repr
    {
      && {this, names, names.table} <= repr && names.Valid()
      && (outer != null ==>
            outer in repr && outer.repr <= repr && outer.repr !! {this, names, names.table} && outer.Valid())
    }

    ghost function View(): Symbols
      requires Valid()
      reads this, repr
      decreases repr
    {
      Symbols(names.store, size, if outer == null then None else Some(outer.View()))
    }

    constructor ()
      ensures Valid() && View() == NO_SYMBOLS && fresh(repr)
    {
      var store := new HashMap();
      names, outer, size := store, null, 0;
      repr := {this, store, store.table};
    }

    constructor Enclosed(around: SymbolTable)
      requires around.Valid()
      ensures Valid() && View() == Scopes.Enclosed(around.View()) && outer == around && fresh(repr - around.repr)
    {
      var store := new HashMap();
      names, outer, size := store, around, 0;
      repr := {this, store, store.table} + around.repr;
    }

    method Define(name: string) returns (v: Var)
      requires Valid() && Hashable(name)
      modifies this, names, names.table
      ensures Valid() && (View(), v) == Scopes.Define(old(View()), name)
    {
      var known := names.Get(name);
      if known.Some? {
        return known.value;
      }
      v := if outer != null then Local(size) else Global(size);
      names.Insert(name, v);
      size := size + 1;
    }

    method DefineBuiltin(i: nat, name: string)
      requires Valid() && Hashable(name)
      modifies names, names.table
      ensures Valid() && View() == Scopes.DefineBuiltin(old(View()), i, name)
    {
      names.Insert(name, Builtin(i));
    }

    /** This scope first, then the scopes around it. */
    method Resolve(name: string) returns (v: Option<Var>)
      requires Valid() && Hashable(name)
      ensures v == Scopes.Resolve(View(), name)
      decreases repr
    {
      v := names.Get(name);
      if v.None? && outer != null {
        v := outer.Resolve(name);
      }
    }
  }

  // ---- slots ----

  /** The slot number that a scope gives out. */
  function SlotOf(s: Symbols, i: nat): Var { if s.outer.Some? then Local(i) else Global(i) }

  ghost predicate HasName(s: Symbols, i: nat) { exists name :: name in s.store && s.store[name] == SlotOf(s, i) }

  /** Each slot below the size belongs to exactly one name, and every name that is not a builtin has one. */
  ghost predicate OneNamePerSlot(s: Symbols) {
    && (forall name | name in s.store && !s.store[name].Builtin? ::
       s.store[name].i < s.size
       && s.store[name] == SlotOf(s, s.store[name].i))
    && (forall i | 0 <= i < s.size :: HasName(s, i))
    && (forall x, y | x in s.store && y in s.store && !s.store[x].Builtin? && s.store[x] == s.store[y] :: x == y)
  }

  lemma {:induction false} DefineKeepsSlots(s: Symbols, name: string)
    requires OneNamePerSlot(s)
    ensures OneNamePerSlot(Scopes.Define(s, name).0)
    ensures name in s.store ==> Scopes.Define(s, name).0 == s
    ensures name !in s.store ==> Scopes.Define(s, name).0.size == s.size + 1
    ensures Scopes.Resolve(Scopes.Define(s, name).0, name) == Some(Scopes.Define(s, name).1)
  {
    if name !in s.store {
      var t := Scopes.Define(s, name).0;
      forall i | 0 <= i < t.size ensures HasName(t, i) {
        if i < s.size {
          assert HasName(s, i);
          var x :| x in s.store && s.store[x] == SlotOf(s, i);
          assert x in t.store && t.store[x] == SlotOf(t, i);
        } else {
          assert name in t.store && t.store[name] == SlotOf(t, i);
        }
      }
    }
  }

  /** After any sequence of definitions names and slots correspond one to one. */
  lemma {:induction false} SlotsAreOneToOne(s: Symbols, names: seq<string>)
    requires OneNamePerSlot(s)
    ensures OneNamePerSlot(DefineAll(s, names))
    decreases |names|
  {
    hide OneNamePerSlot;
    if names != [] {
      DefineKeepsSlots(s, names[0]);
      SlotsAreOneToOne(Scopes.Define(s, names[0]).0, names[1..]);
    }
  }

  /** Builtins take no slot. */
  lemma {:induction false} BuiltinsTakeNoSlot(s: Symbols, i: nat, name: string)
    requires OneNamePerSlot(s) && (name in s.store ==> s.store[name].Builtin?)
    ensures OneNamePerSlot(Scopes.DefineBuiltin(s, i, name)) && Scopes.DefineBuiltin(s, i, name).size == s.size
  {
    var t := Scopes.DefineBuiltin(s, i, name);
    forall k | 0 <= k < t.size ensures HasName(t, k) {
      assert HasName(s, k);
      var x :| x in s.store && s.store[x] == SlotOf(s, k);
      assert x in t.store && t.store[x] == SlotOf(t, k);
    }
  }

  /** The scope that is d levels out. */
  function ScopeAt(s: Symbols, d: nat): Symbols
    requires d < Levels(s)
    decreases d
  {
    if d == 0 then s else ScopeAt(s.outer.value, d - 1)
  }

  predicate Defines(s: Symbols, d: nat, name: string)
    requires d < Levels(s)
  {
    name in ScopeAt(s, d).store
  }

  /**
   Through scopes nested to any depth: what is found is the definition that is the
   least number of levels out, and nothing is found only if no level has one.
   */
  lemma {:induction false} InnermostWins(s: Symbols, name: string)
    ensures match Scopes.Resolve(s, name)
            case None => forall d: nat | d < Levels(s) :: !Defines(s, d, name)
            case Some(v) =>
              exists d: nat | d < Levels(s) :: Defines(s, d, name) && v == ScopeAt(s, d).store[name]
                                               && forall e: nat | e < d :: !Defines(s, e, name)
    decreases s
  {
    if name in s.store {
      assert Defines(s, 0, name);
    } else if s.outer.Some? {
      var o := s.outer.value;
      InnermostWins(o, name);
      forall d: nat | d < Levels(o) ensures Defines(s, d + 1, name) <==> Defines(o, d, name) {}
      if Scopes.Resolve(o, name).Some? {
        var d: nat :| d < Levels(o) && Defines(o, d, name) && Scopes.Resolve(o, name).value == ScopeAt(o, d).store[name]
                      && forall e: nat | e < d :: !Defines(o, e, name);
        forall e: nat | e < d + 1 ensures !Defines(s, e, name) {
          if e > 0 { assert !Defines(o, e - 1, name); }
        }
        assert Defines(s, d + 1, name);
      } else {
        forall d: nat | d < Levels(s) ensures !Defines(s, d, name) {
          if d > 0 { assert !Defines(o, d - 1, name); }
        }
      }
    }
  }
}
