/**
 * `_ensure_last_24h_range` (utils/log_source.py): make sure an Elasticsearch
 * query carries the clause `{"range": {"@timestamp": {"gte": "now-1d",
 * "lte": "now"}}}` in `query.bool.must`, creating missing levels on the way.
 *
 * The function copies only the top-level dict and then mutates the nested
 * dicts and the `must` list it finds, so the caller's own nested query is
 * changed too. To make that visible, Python's objects live in an explicit
 * heap: dicts and lists are containers at addresses, and a value refers to a
 * container by its address. Creating a dict or list allocates a fresh
 * address; assigning a key or appending replaces the container at its
 * address, which every holder of that address then sees.
 */
module QueryRange {
  import opened JsonValues

  /** A Python value: a scalar, or a reference to a dict or list in the heap. */
  datatype Val = Null | Bool(b: bool) | Int(i: int) | Str(s: string) | Ref(addr: nat)

  datatype Container = DictC(fields: map<string, Val>) | ListC(items: seq<Val>)

  type Store = map<nat, Container>

  /** The heap: its containers, and the next address to allocate. */
  datatype Heap = Heap(store: Store, next: nat)

  /** The values a container holds. */
  function Contents(c: Container): set<Val> {
    if c.DictC? then c.fields.Values else set v | v in c.items
  }

  /** Every allocated address is below `next`, so an allocation never reuses one. */
  ghost predicate Bounded(h: Heap) {
    forall a :: a in h.store ==> a < h.next
  }

  /** Every reference the container holds leads to an allocated container. */
  ghost predicate RefsWithin(c: Container, store: Store) {
    forall v :: v in Contents(c) && v.Ref? ==> v.addr in store
  }

  /** Bounded, and every reference leads to an allocated container. */
  ghost predicate Closed(h: Heap) {
    Bounded(h) && forall a :: a in h.store ==> RefsWithin(h.store[a], h.store)
  }

  /** `d.get(k)`: None when the key is missing. */
  function Lookup(m: map<string, Val>, k: string): Val {
    if k in m then m[k] else Null
  }

  predicate IsDict(store: Store, v: Val) {
    v.Ref? && v.addr in store && store[v.addr].DictC?
  }

  predicate IsList(store: Store, v: Val) {
    v.Ref? && v.addr in store && store[v.addr].ListC?
  }

  /** Python truthiness: an empty dict or list, None, False, 0 and "" are false. */
  predicate IsTruthy(store: Store, v: Val) {
    match v
    case Null => false
    case Bool(b) => b
    case Int(i) => i != 0
    case Str(s) => s != ""
    case Ref(a) => a in store && (if store[a].DictC? then store[a].fields != map[] else store[a].items != [])
  }

  /** Python `p in s` for strings: p occurs in s. */
  predicate IsInfix(p: string, s: string)
    decreases |s|
  {
    |p| <= |s| && (s[..|p|] == p || IsInfix(p, s[1..]))
  }

  const Timestamp := "@timestamp"

  /**
   * One test of the `any(...)`: whether a `must` clause is a dict with a
   * `range` holding "@timestamp" (a key of a dict, an element of a list, a
   * substring of a string). None when `in` raises because the range is None,
   * a boolean or a number.
   */
  function Mentions(store: Store, c: Val): Option<bool> {
    if IsDict(store, c) && "range" in store[c.addr].fields then
      match store[c.addr].fields["range"]
      case Str(s) => Some(IsInfix(Timestamp, s))
      case Ref(a) =>
        if a !in store then None
        else if store[a].DictC? then Some(Timestamp in store[a].fields)
        else Some(Str(Timestamp) in store[a].items)
      case _ => None
    else Some(false)
  }

  /** `any(...)` over the clauses: the first clause that mentions the range decides; one that raises first ends it. */
  function HasRange(store: Store, items: seq<Val>): Option<bool>
    decreases |items|
  {
    if items == [] then Some(false)
    else match Mentions(store, items[0])
      case None => None
      case Some(true) => Some(true)
      case Some(false) => HasRange(store, items[1..])
  }

  /** A fresh container at the next address. */
  function Alloc(h: Heap, c: Container): (r: (Heap, nat))
    ensures r.1 == h.next && r.0.store == h.store[r.1 := c]
    ensures Bounded(h) ==> r.1 !in h.store && Bounded(r.0)
  {
    (Heap(h.store[h.next := c], h.next + 1), h.next)
  }

  /** An assignment to a key of the dict, or an append to the list, at address a. */
  function Put(h: Heap, a: nat, c: Container): Heap {
    h.(store := h.store[a := c])
  }

  const Window := DictC(map["gte" := Str("now-1d"), "lte" := Str("now")])

  /** The clause literal: three fresh dicts, the outermost last. */
  function NewRangeClause(h: Heap): (Heap, nat) {
    var (h1, t) := Alloc(h, Window);
    var (h2, rg) := Alloc(h1, DictC(map[Timestamp := Ref(t)]));
    Alloc(h2, DictC(map["range" := Ref(rg)]))
  }

  /** `q.get("query", {})`, replaced by `{"bool": {"must": []}}` in the copy q when falsy: the dict the clause goes under. */
  function EnsureBase(h: Heap, q: nat): (r: (Heap, Option<nat>))
    requires Bounded(h) && q in h.store && h.store[q].DictC?
    ensures Bounded(r.0)
    ensures r.1.Some? ==> IsDict(r.0.store, Ref(r.1.value))
    ensures h.store.Keys <= r.0.store.Keys
  {
    var base := Lookup(h.store[q].fields, "query");
    if !IsTruthy(h.store, base) then
      var (h1, m) := Alloc(h, ListC([]));
      var (h2, bd) := Alloc(h1, DictC(map["must" := Ref(m)]));
      var (h3, b) := Alloc(h2, DictC(map["bool" := Ref(bd)]));
      (Put(h3, q, DictC(h.store[q].fields["query" := Ref(b)])), Some(b))
    else if IsDict(h.store, base) then (h, Some(base.addr))
    else (h, None)
  }

  /** `base.get("bool")`, replaced by `{"must": []}` when falsy. */
  function EnsureBool(h: Heap, b: nat): (r: (Heap, Option<nat>))
    requires Bounded(h) && b in h.store && h.store[b].DictC?
    ensures Bounded(r.0)
    ensures r.1.Some? ==> IsDict(r.0.store, Ref(r.1.value))
    ensures h.store.Keys <= r.0.store.Keys
  {
    var boolq := Lookup(h.store[b].fields, "bool");
    if !IsTruthy(h.store, boolq) then
      var (h1, m) := Alloc(h, ListC([]));
      var (h2, bd) := Alloc(h1, DictC(map["must" := Ref(m)]));
      (Put(h2, b, DictC(h.store[b].fields["bool" := Ref(bd)])), Some(bd))
    else if IsDict(h.store, boolq) then (h, Some(boolq.addr))
    else (h, None)
  }

  /** `bool_q.get("must")`, replaced by `[]` when None; anything else but a list raises on the way. */
  function EnsureMust(h: Heap, bd: nat): (r: (Heap, Option<nat>))
    requires Bounded(h) && bd in h.store && h.store[bd].DictC?
    ensures Bounded(r.0)
    ensures r.1.Some? ==> IsList(r.0.store, Ref(r.1.value))
    ensures h.store.Keys <= r.0.store.Keys
  {
    var must := Lookup(h.store[bd].fields, "must");
    if must == Null then
      var (h1, m) := Alloc(h, ListC([]));
      (Put(h1, bd, DictC(h.store[bd].fields["must" := Ref(m)])), Some(m))
    else if IsList(h.store, must) then (h, Some(must.addr))
    else (h, None)
  }

  /** The `any(...)` test and the append on the `must` list at address m; q is the returned copy. */
  function AddRange(h: Heap, q: nat, m: nat): (Heap, Option<nat>)
    requires m in h.store && h.store[m].ListC?
  {
    match HasRange(h.store, h.store[m].items)
    case None => (h, None)
    case Some(true) => (h, Some(q))
    case Some(false) =>
      var (h1, c) := NewRangeClause(h);
      (Put(h1, m, ListC(h.store[m].items + [Ref(c)])), Some(q))
  }

  /**
   * `_ensure_last_24h_range(query)` for the dict at address `query`: the new
   * heap, and the address of the returned dict; None where Python raises
   * (a truthy `query` or `bool` that is not a dict, a `must` that is neither
   * None nor a list, or a `range` that `in` cannot search). What was changed
   * before the exception stays changed.
   */
  function Ensure(h: Heap, query: nat): (Heap, Option<nat>)
    requires Bounded(h) && query in h.store && h.store[query].DictC?
  {
    var (h1, q) := Alloc(h, DictC(h.store[query].fields));
    var (h2, b) := EnsureBase(h1, q);
    if b.None? then (h2, None) else
    var (h3, bd) := EnsureBool(h2, b.value);
    if bd.None? then (h3, None) else
    var (h4, m) := EnsureMust(h3, bd.value);
    if m.None? then (h4, None) else
    AddRange(h4, q, m.value)
  }

  /** The Python objects reachable from the caller: the heap, changed in place by the function. */
  class Memory {
    var heap: Heap

    constructor (h: Heap)
      ensures heap == h
    {
      heap := h;
    }

    /** A dict or list literal: a created address holding c. */
    method New(c: Container) returns (a: nat)
      modifies this
      ensures (heap, a) == Alloc(old(heap), c)
    {
      a := heap.next;
      heap := Heap(heap.store[a := c], a + 1);
    }

    /** A key assignment or an append: the container at a is replaced by c. */
    method Set(a: nat, c: Container)
      modifies this
      ensures heap == Put(old(heap), a, c)
    {
      heap := heap.(store := heap.store[a := c]);
    }

    /** The `any(...)` over the clauses of `must`, one clause at a time, stopping at the first that decides. */
    method AnyRange(items: seq<Val>) returns (r: Option<bool>)
      ensures r == HasRange(heap.store, items)
    {
      var i := 0;
      while i < |items|
        invariant i <= |items|
        invariant HasRange(heap.store, items[i..]) == HasRange(heap.store, items)
      {
        assert items[i..][1..] == items[i + 1..];
        var found := Mentions(heap.store, items[i]);
        if found.None? {
          return None;
        } else if found.value {
          return Some(true);
        }
        i := i + 1;
      }
      return Some(false);
    }

    /** The `query` step: the dict the clause goes under, created in the copy q when falsy. */
    method BaseStep(q: nat) returns (b: Option<nat>)
      requires Bounded(heap) && q in heap.store && heap.store[q].DictC?
      modifies this
      ensures (heap, b) == EnsureBase(old(heap), q)
    {
      var base := Lookup(heap.store[q].fields, "query");
      if !IsTruthy(heap.store, base) {
        var fields := heap.store[q].fields;
        var m := New(ListC([]));
        var bd := New(DictC(map["must" := Ref(m)]));
        var created := New(DictC(map["bool" := Ref(bd)]));
        Set(q, DictC(fields["query" := Ref(created)]));
        b := Some(created);
      } else if IsDict(heap.store, base) {
        b := Some(base.addr);
      } else {
        b := None;
      }
    }

    /** The `bool` step, under the dict at b. */
    method BoolStep(b: nat) returns (bd: Option<nat>)
      requires Bounded(heap) && b in heap.store && heap.store[b].DictC?
      modifies this
      ensures (heap, bd) == EnsureBool(old(heap), b)
    {
      var boolq := Lookup(heap.store[b].fields, "bool");
      if !IsTruthy(heap.store, boolq) {
        var fields := heap.store[b].fields;
        var m := New(ListC([]));
        var created := New(DictC(map["must" := Ref(m)]));
        Set(b, DictC(fields["bool" := Ref(created)]));
        bd := Some(created);
      } else if IsDict(heap.store, boolq) {
        bd := Some(boolq.addr);
      } else {
        bd := None;
      }
    }

    /** The `must` step, under the dict at bd. */
    method MustStep(bd: nat) returns (m: Option<nat>)
      requires Bounded(heap) && bd in heap.store && heap.store[bd].DictC?
      modifies this
      ensures (heap, m) == EnsureMust(old(heap), bd)
    {
      var must := Lookup(heap.store[bd].fields, "must");
      if must == Null {
        var fields := heap.store[bd].fields;
        var created := New(ListC([]));
        Set(bd, DictC(fields["must" := Ref(created)]));
        m := Some(created);
      } else if IsList(heap.store, must) {
        m := Some(must.addr);
      } else {
        m := None;
      }
    }

    /** The test and the append on the list at m. */
    method RangeStep(q: nat, m: nat) returns (r: Option<nat>)
      requires m in heap.store && heap.store[m].ListC?
      modifies this
      ensures (heap, r) == AddRange(old(heap), q, m)
    {
      var has := AnyRange(heap.store[m].items);
      if has.None? {
        return None;
      }
      if !has.value {
        var items := heap.store[m].items;
        var t := New(Window);
        var rg := New(DictC(map[Timestamp := Ref(t)]));
        var c := New(DictC(map["range" := Ref(rg)]));
        Set(m, ListC(items + [Ref(c)]));
      }
      return Some(q);
    }

    /** `_ensure_last_24h_range(query)`, step by step on the heap; None where Python raises. */
    method EnsureLast24hRange(query: nat) returns (r: Option<nat>)
      requires Bounded(heap) && query in heap.store && heap.store[query].DictC?
      modifies this
      ensures (heap, r) == Ensure(old(heap), query)
    {
      var q := New(DictC(heap.store[query].fields));
      var b := BaseStep(q);
      if b.None? {
        return None;
      }
      var bd := BoolStep(b.value);
      if bd.None? {
        return None;
      }
      var m := MustStep(bd.value);
      if m.None? {
        return None;
      }
      r := RangeStep(q, m.value);
    }
  }
}
