/** The template registry (getter.go): a key-to-template table filled by the loader. */
module Getters {
  import opened Results
  import opened Templates

  /** A template key: the base name of a template's directory. */
  datatype Key = Key(name: string)

  /** One call of `set`: the key and the template stored at it. */
  datatype Assignment = Assignment(key: Key, template: Template)

  /** The table that a sequence of `set` calls builds from a fresh, empty one. */
  ghost function Replay(history: seq<Assignment>): map<Key, Template>
  {
    if history == [] then map[]
    else
      var last := history[|history| - 1];
      Replay(history[..|history| - 1])[last.key := last.template]
  }

  /** The template of the last `set` at `k`, if there was one. */
  ghost function LastSet(history: seq<Assignment>, k: Key): Option<Template>
  {
    if history == [] then None
    else if history[|history| - 1].key == k then Some(history[|history| - 1].template)
    else LastSet(history[..|history| - 1], k)
  }

  /** The distinct keys that were ever set. */
  ghost function KeysSet(history: seq<Assignment>): set<Key>
  {
    set a | a in history :: a.key
  }

  /** Looking a key up in the replayed table gives the last template set at it. */
  lemma {:induction false} ReplayIsLastSet(history: seq<Assignment>, k: Key)
    ensures Lookup(Replay(history), k) == LastSet(history, k)
  {
    if history != [] {
      ReplayIsLastSet(history[..|history| - 1], k);
    }
  }

  /** The replayed table holds exactly the keys that were set. */
  lemma {:induction false} ReplayKeys(history: seq<Assignment>)
    ensures Replay(history).Keys == KeysSet(history)
  {
    if history != [] {
      var prefix := history[..|history| - 1];
      ReplayKeys(prefix);
      assert history == prefix + [history[|history| - 1]];
      assert KeysSet(history) == KeysSet(prefix) + {history[|history| - 1].key};
    }
  }

  /** One more `set` adds one to the size for a new key and nothing for a key
      already present. */
  lemma ReplaySize(history: seq<Assignment>, a: Assignment)
    ensures |Replay(history + [a])| ==
      if a.key in Replay(history) then |Replay(history)| else |Replay(history)| + 1
  {
  }

  /** `Getter`: the key-to-template map. The read-write lock only orders
      concurrent calls and is not modelled; `history` records every `set`. */
  class Getter {
    var m: map<Key, Template>
    ghost var history: seq<Assignment>

    ghost predicate Valid()
      reads this
    {
      m == Replay(history)
    }

    /** `newGetter`: an initialised, empty Getter. */
    constructor ()
      ensures Valid() && history == [] && m == map[]
    {
      m := map[];
      history := [];
    }

    /** `Get`: the template at `k` and whether there is one; reads only. */
    method Get(k: Key) returns (t: Option<Template>, ok: bool)
      requires Valid()
      ensures ok <==> k in m
      ensures ok ==> t == Some(m[k])
      ensures !ok ==> t == None
      ensures t == LastSet(history, k)
    {
      ReplayIsLastSet(history, k);
      if k in m {
        t, ok := Some(m[k]), true;
      } else {
        t, ok := None, false;
      }
    }

    /** `set`: stores `t` at `k`, overwriting any earlier entry at `k` and no other. */
    method Set(k: Key, t: Template)
      requires Valid()
      modifies this
      ensures Valid()
      ensures history == old(history) + [Assignment(k, t)]
      ensures m == old(m)[k := t]
    {
      m := m[k := t];
      history := history + [Assignment(k, t)];
      assert history[..|history| - 1] == old(history);
    }

    /** `len`, which the source also allows on a nil Getter: the number of
        distinct keys set, and 0 for nil. */
    static method Len(g: Getter?) returns (n: int)
      requires g != null ==> g.Valid()
      ensures g == null ==> n == 0
      ensures g != null ==> n == |g.m| && n == |KeysSet(g.history)|
    {
      if g == null {
        return 0;
      }
      ReplayKeys(g.history);
      assert g.m.Keys == KeysSet(g.history);
      n := |g.m|;
    }
  }
}
