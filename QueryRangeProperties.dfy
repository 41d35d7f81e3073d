/**
 * What `_ensure_last_24h_range` promises, proved about `QueryRange.Ensure`:
 * the heap stays well formed, the returned copy holds the range clause under
 * `query.bool.must`, an existing `must` list keeps its clauses and gains the
 * clause only when none mentions `@timestamp`, the caller's nested query is
 * changed in place, and a second application changes nothing but the copy.
 */
module QueryRangeProperties {
  import opened JsonValues
  import opened QueryRange

  // ---- closure of the heap ----

  lemma AllocClosed(h: Heap, c: Container)
    requires Closed(h) && RefsWithin(c, h.store)
    ensures Closed(Alloc(h, c).0)
  {
    var h' := Alloc(h, c).0;
    forall a | a in h'.store
      ensures RefsWithin(h'.store[a], h'.store)
    {
      if a != h.next {
        assert RefsWithin(h.store[a], h.store);
      }
    }
  }

  lemma PutClosed(h: Heap, a: nat, c: Container)
    requires Closed(h) && a in h.store && RefsWithin(c, h.store)
    ensures Closed(Put(h, a, c))
  {
    var h' := Put(h, a, c);
    assert h'.store.Keys == h.store.Keys;
    forall x | x in h'.store
      ensures RefsWithin(h'.store[x], h'.store)
    {
      if x != a {
        assert RefsWithin(h.store[x], h.store);
      }
    }
  }

  /** Adding one reference to a dict keeps its references resolved. */
  lemma UpdateWithin(m: map<string, Val>, k: string, v: Val, store: Store)
    requires RefsWithin(DictC(m), store) && v.Ref? && v.addr in store
    ensures RefsWithin(DictC(m[k := v]), store)
  {
    forall w | w in Contents(DictC(m[k := v])) && w.Ref?
      ensures w.addr in store
    {
      var k' :| k' in m[k := v] && m[k := v][k'] == w;
      if k' != k {
        assert m[k'] in Contents(DictC(m));
      }
    }
  }

  /** A dict literal with one key. */
  lemma SingleWithin(k: string, v: Val, store: Store)
    requires v.Ref? ==> v.addr in store
    ensures RefsWithin(DictC(map[k := v]), store)
  {
    forall w | w in Contents(DictC(map[k := v])) && w.Ref?
      ensures w.addr in store
    {
      var k' :| k' in map[k := v] && map[k := v][k'] == w;
    }
  }

  lemma WindowWithin(store: Store)
    ensures RefsWithin(Window, store)
  {
  }

  lemma RangeClauseClosed(h: Heap)
    requires Closed(h)
    ensures Closed(NewRangeClause(h).0) && Bounded(NewRangeClause(h).0)
    ensures NewRangeClause(h).1 in NewRangeClause(h).0.store
    ensures h.store.Keys <= NewRangeClause(h).0.store.Keys
  {
    var (h1, t) := Alloc(h, Window);
    WindowWithin(h.store);
    AllocClosed(h, Window);
    var c1 := DictC(map[Timestamp := Ref(t)]);
    SingleWithin(Timestamp, Ref(t), h1.store);
    AllocClosed(h1, c1);
    var (h2, rg) := Alloc(h1, c1);
    var c2 := DictC(map["range" := Ref(rg)]);
    SingleWithin("range", Ref(rg), h2.store);
    AllocClosed(h2, c2);
  }

  lemma WithinGrows(c: Container, s: Store, s': Store)
    requires RefsWithin(c, s) && s.Keys <= s'.Keys
    ensures RefsWithin(c, s')
  {
  }

  lemma EmptyListWithin(store: Store)
    ensures RefsWithin(ListC([]), store)
  {
  }

  /** A fresh `{key: []}`, as the three steps create it. */
  lemma AllocNested(h: Heap, key: string)
    requires Closed(h)
    ensures var (h1, m) := Alloc(h, ListC([]));
            var (h2, d) := Alloc(h1, DictC(map[key := Ref(m)]));
            Closed(h2) && h.store.Keys <= h2.store.Keys && d in h2.store
  {
    EmptyListWithin(h.store);
    AllocClosed(h, ListC([]));
    var (h1, m) := Alloc(h, ListC([]));
    SingleWithin(key, Ref(m), h1.store);
    AllocClosed(h1, DictC(map[key := Ref(m)]));
  }

  /** Assigning a key of an existing dict to a reference that resolves. */
  lemma AssignClosed(h0: Heap, h: Heap, a: nat, k: string, v: Val)
    requires Closed(h0) && Closed(h) && h0.store.Keys <= h.store.Keys
    requires a in h0.store && h0.store[a].DictC? && v.Ref? && v.addr in h.store
    ensures Closed(Put(h, a, DictC(h0.store[a].fields[k := v])))
  {
    assert RefsWithin(h0.store[a], h0.store);
    WithinGrows(h0.store[a], h0.store, h.store);
    UpdateWithin(h0.store[a].fields, k, v, h.store);
    PutClosed(h, a, DictC(h0.store[a].fields[k := v]));
  }

  lemma BaseClosed(h: Heap, q: nat)
    requires Closed(h) && q in h.store && h.store[q].DictC?
    ensures Closed(EnsureBase(h, q).0)
  {
    if !IsTruthy(h.store, Lookup(h.store[q].fields, "query")) {
      AllocNested(h, "must");
      var (h1, m) := Alloc(h, ListC([]));
      var (h2, bd) := Alloc(h1, DictC(map["must" := Ref(m)]));
      SingleWithin("bool", Ref(bd), h2.store);
      AllocClosed(h2, DictC(map["bool" := Ref(bd)]));
      var (h3, b) := Alloc(h2, DictC(map["bool" := Ref(bd)]));
      AssignClosed(h, h3, q, "query", Ref(b));
    }
  }

  lemma BoolClosed(h: Heap, b: nat)
    requires Closed(h) && b in h.store && h.store[b].DictC?
    ensures Closed(EnsureBool(h, b).0)
  {
    if !IsTruthy(h.store, Lookup(h.store[b].fields, "bool")) {
      AllocNested(h, "must");
      var (h1, m) := Alloc(h, ListC([]));
      var (h2, bd) := Alloc(h1, DictC(map["must" := Ref(m)]));
      AssignClosed(h, h2, b, "bool", Ref(bd));
    }
  }

  lemma MustClosed(h: Heap, bd: nat)
    requires Closed(h) && bd in h.store && h.store[bd].DictC?
    ensures Closed(EnsureMust(h, bd).0)
  {
    if Lookup(h.store[bd].fields, "must") == Null {
      EmptyListWithin(h.store);
      AllocClosed(h, ListC([]));
      var (h1, m) := Alloc(h, ListC([]));
      AssignClosed(h, h1, bd, "must", Ref(m));
    }
  }

  lemma AddRangeClosed(h: Heap, q: nat, m: nat)
    requires Closed(h) && m in h.store && h.store[m].ListC?
    ensures Closed(AddRange(h, q, m).0)
  {
    if HasRange(h.store, h.store[m].items) == Some(false) {
      RangeClauseClosed(h);
      var (h1, c) := NewRangeClause(h);
      var items := h.store[m].items;
      assert RefsWithin(h.store[m], h.store);
      forall w | w in Contents(ListC(items + [Ref(c)])) && w.Ref?
        ensures w.addr in h1.store
      {
        if w in items {
          assert w in Contents(h.store[m]);
        }
      }
      PutClosed(h1, m, ListC(items + [Ref(c)]));
    }
  }

  /** The heap stays well formed: every reference, old or new, leads to an allocated dict or list. */
  lemma EnsureClosed(h: Heap, query: nat)
    requires Closed(h) && query in h.store && h.store[query].DictC?
    ensures Closed(Ensure(h, query).0)
  {
    assert RefsWithin(h.store[query], h.store);
    AllocClosed(h, DictC(h.store[query].fields));
    var (h1, q) := Alloc(h, DictC(h.store[query].fields));
    BaseClosed(h1, q);
    var (h2, b) := EnsureBase(h1, q);
    if b.Some? {
      BoolClosed(h2, b.value);
      var (h3, bd) := EnsureBool(h2, b.value);
      if bd.Some? {
        MustClosed(h3, bd.value);
        var (h4, m) := EnsureMust(h3, bd.value);
        if m.Some? {
          AddRangeClosed(h4, q, m.value);
        }
      }
    }
  }

  // ---- the `any(...)` test ----

  /** c' answers the `in` tests of the range check as c does: the same dict, or a list holding "@timestamp" just when c does. */
  predicate SameTest(c: Container, c': Container) {
    if c.DictC? then c' == c else c'.ListC? && (Str(Timestamp) in c.items <==> Str(Timestamp) in c'.items)
  }

  ghost predicate SameTests(s: Store, s': Store) {
    forall a :: a in s ==> a in s' && SameTest(s[a], s'[a])
  }

  ghost predicate Resolved(s: Store) {
    forall a :: a in s ==> RefsWithin(s[a], s)
  }

  /** The clause `{"range": {"@timestamp": {"gte": "now-1d", "lte": "now"}}}` at v. */
  ghost predicate IsRangeClause(s: Store, v: Val) {
    IsDict(s, v) && s[v.addr].fields.Keys == {"range"}
    && var rg := s[v.addr].fields["range"];
    IsDict(s, rg) && s[rg.addr].fields.Keys == {Timestamp}
    && var t := s[rg.addr].fields[Timestamp];
    t.Ref? && t.addr in s && s[t.addr] == Window
  }

  lemma MentionsStable(s: Store, s': Store, v: Val)
    requires SameTests(s, s') && Resolved(s)
    requires v.Ref? ==> v.addr in s
    ensures Mentions(s', v) == Mentions(s, v)
  {
    if IsDict(s, v) && "range" in s[v.addr].fields {
      var r := s[v.addr].fields["range"];
      assert r in Contents(s[v.addr]);
      assert RefsWithin(s[v.addr], s);
    }
  }

  /** The test depends only on the answers to the `in` tests, so a heap that gives the same answers gives the same result. */
  lemma {:induction false} HasRangeStable(s: Store, s': Store, items: seq<Val>)
    requires SameTests(s, s') && Resolved(s)
    requires forall i :: 0 <= i < |items| && items[i].Ref? ==> items[i].addr in s
    ensures HasRange(s', items) == HasRange(s, items)
    decreases |items|
  {
    if items != [] {
      MentionsStable(s, s', items[0]);
      HasRangeStable(s, s', items[1..]);
    }
  }

  /** `any` over a concatenation: the second part is consulted only when the first finds nothing and raises nothing. */
  lemma {:induction false} HasRangeAppend(s: Store, xs: seq<Val>, ys: seq<Val>)
    ensures HasRange(s, xs + ys) == if HasRange(s, xs) == Some(false) then HasRange(s, ys) else HasRange(s, xs)
    decreases |xs|
  {
    if xs != [] {
      assert (xs + ys)[0] == xs[0] && (xs + ys)[1..] == xs[1..] + ys;
      HasRangeAppend(s, xs[1..], ys);
    } else {
      assert xs + ys == ys;
    }
  }

  lemma RangeClauseMentions(s: Store, v: Val)
    requires IsRangeClause(s, v)
    ensures Mentions(s, v) == Some(true)
  {
  }

  /** The three fresh dicts form the clause, and nothing that existed before changes. */
  lemma NewRangeClauseShape(h: Heap)
    requires Bounded(h)
    ensures var (h', c) := NewRangeClause(h);
            c !in h.store && IsRangeClause(h'.store, Ref(c))
            && h'.next == h.next + 3 && c == h.next + 2
            && forall a :: a in h.store ==> a in h'.store && h'.store[a] == h.store[a]
  {
  }

  /**
   * The test and append on the `must` list at m: None exactly when the test
   * raises; otherwise the list keeps its clauses in order and gains the clause
   * just when no clause mentioned "@timestamp", after which one does.
   */
  lemma AddRangeSpec(h: Heap, q: nat, m: nat)
    requires Closed(h) && m in h.store && h.store[m].ListC?
    ensures var (h', r) := AddRange(h, q, m);
            var items := h.store[m].items;
            && (r.None? <==> HasRange(h.store, items).None?)
            && (r.Some? ==> r.value == q && m in h'.store && h'.store[m].ListC?
                            && HasRange(h'.store, h'.store[m].items) == Some(true))
            && (HasRange(h.store, items) == Some(true) ==> h' == h)
            && (HasRange(h.store, items) == Some(false) ==>
                  |h'.store[m].items| == |items| + 1 && h'.store[m].items[..|items|] == items
                  && IsRangeClause(h'.store, h'.store[m].items[|items|]))
            && (forall a :: a in h.store && a != m ==> a in h'.store && h'.store[a] == h.store[a])
  {
    var items := h.store[m].items;
    if HasRange(h.store, items) == Some(false) {
      NewRangeClauseShape(h);
      var (h1, c) := NewRangeClause(h);
      var s' := h1.store[m := ListC(items + [Ref(c)])];
      assert IsRangeClause(s', Ref(c));
      assert SameTests(h.store, s') by {
        forall a | a in h.store
          ensures a in s' && SameTest(h.store[a], s'[a])
        {
          if a == m {
            assert Str(Timestamp) in items + [Ref(c)] <==> Str(Timestamp) in items;
          }
        }
      }
      assert RefsWithin(h.store[m], h.store);
      forall i | 0 <= i < |items| && items[i].Ref?
        ensures items[i].addr in h.store
      {
        assert items[i] in Contents(h.store[m]);
      }
      HasRangeStable(h.store, s', items);
      HasRangeAppend(s', items, [Ref(c)]);
      RangeClauseMentions(s', Ref(c));
      assert (items + [Ref(c)])[..|items|] == items;
    }
  }

  // ---- the path query.bool.must ----

  /** The dict at a maps key k to a reference to x. */
  ghost predicate Points(s: Store, a: nat, k: string, x: nat) {
    a in s && s[a].DictC? && Lookup(s[a].fields, k) == Ref(x)
  }

  /** The list at `query.bool.must` under the dict at q, when every level is there with the right type. */
  function MustList(s: Store, q: nat): Option<nat> {
    if q !in s || !s[q].DictC? then None
    else
      var b := Lookup(s[q].fields, "query");
      if !IsDict(s, b) then None
      else
        var bd := Lookup(s[b.addr].fields, "bool");
        if !IsDict(s, bd) then None
        else
          var m := Lookup(s[bd.addr].fields, "must");
          if IsList(s, m) then Some(m.addr) else None
  }

  /** No container refers to q. */
  ghost predicate NoRefTo(s: Store, q: nat) {
    forall a :: a in s ==> Ref(q) !in Contents(s[a])
  }

  /** The dicts at a and a' agree on every key but "query". */
  ghost predicate SameButQuery(f: map<string, Val>, f': map<string, Val>) {
    forall k :: k != "query" ==> (k in f' <==> k in f) && (k in f ==> f'[k] == f[k])
  }

  /** The shallow copy: a fresh dict with the caller's keys, referred to by nothing. */
  lemma CopyStart(h: Heap, query: nat)
    requires Closed(h) && query in h.store && h.store[query].DictC?
    ensures var (h1, q) := Alloc(h, DictC(h.store[query].fields));
            q == h.next && q !in h.store && Closed(h1) && NoRefTo(h1.store, q)
            && h1.store[q] == h.store[query]
            && forall a :: a in h.store ==> h1.store[a] == h.store[a]
  {
    assert RefsWithin(h.store[query], h.store);
    AllocClosed(h, DictC(h.store[query].fields));
    var (h1, q) := Alloc(h, DictC(h.store[query].fields));
    forall a | a in h1.store
      ensures Ref(q) !in Contents(h1.store[a])
    {
      if a == q {
        assert RefsWithin(h.store[query], h.store);
      } else {
        assert RefsWithin(h.store[a], h.store);
      }
    }
  }

  /** The `query` step: q points to the dict b; an existing truthy one is kept, a falsy one replaced by a fresh chain. */
  lemma BaseLink(h: Heap, q: nat)
    requires Closed(h) && q in h.store && h.store[q].DictC? && NoRefTo(h.store, q)
    ensures var (h', b) := EnsureBase(h, q);
            var base := Lookup(h.store[q].fields, "query");
            && (b.Some? ==> b.value != q && Points(h'.store, q, "query", b.value)
                            && Lookup(h'.store[b.value].fields, "bool") != Ref(q)
                            && SameButQuery(h.store[q].fields, h'.store[q].fields))
            && (IsTruthy(h.store, base) ==> h' == h && (b.Some? <==> IsDict(h.store, base)))
            && (!IsTruthy(h.store, base) ==>
                  b == Some(h.next + 2) && h'.store[h.next + 2] == DictC(map["bool" := Ref(h.next + 1)])
                  && h'.store[h.next + 1] == DictC(map["must" := Ref(h.next)])
                  && h'.store[h.next] == ListC([])
                  && forall a :: a in h.store && a != q ==> a in h'.store && h'.store[a] == h.store[a])
  {
    var base := Lookup(h.store[q].fields, "query");
    if IsDict(h.store, base) && IsTruthy(h.store, base) {
      assert base in Contents(h.store[q]);
      var bq := Lookup(h.store[base.addr].fields, "bool");
      if bq.Ref? {
        assert bq in Contents(h.store[base.addr]);
      }
    }
  }

  /** The `bool` step, under b: b points to the dict bd; q is untouched. */
  lemma BoolLink(h: Heap, q: nat, b: nat)
    requires Bounded(h) && q != b && Points(h.store, q, "query", b)
    requires b in h.store && h.store[b].DictC? && Lookup(h.store[b].fields, "bool") != Ref(q)
    ensures var (h', bd) := EnsureBool(h, b);
            bd.Some? ==> bd.value != q && h'.store[q] == h.store[q]
                         && Points(h'.store, b, "bool", bd.value)
  {
  }

  /** The `must` step, under bd: the path from q ends in a list; q is untouched. */
  lemma MustLink(h: Heap, q: nat, b: nat, bd: nat)
    requires Bounded(h) && bd != q && Points(h.store, q, "query", b) && Points(h.store, b, "bool", bd)
    requires bd in h.store && h.store[bd].DictC?
    ensures var (h', m) := EnsureMust(h, bd);
            m.Some? ==> h'.store[q] == h.store[q] && MustList(h'.store, q) == m
  {
  }

  /** A heap change that only touches the list at m leaves the path to m in place. */
  lemma MustListKept(s: Store, s': Store, q: nat, m: nat)
    requires MustList(s, q) == Some(m) && m in s' && s'[m].ListC?
    requires forall a :: a in s && a != m ==> a in s' && s'[a] == s[a]
    ensures MustList(s', q) == Some(m)
  {
    var b := Lookup(s[q].fields, "query").addr;
    var bd := Lookup(s[b].fields, "bool").addr;
    assert s'[q] == s[q] && s'[b] == s[b] && s'[bd] == s[bd];
  }

  /**
   * The promise of the function: on success the result is a fresh dict with
   * the caller's keys (all but "query" unchanged), and the list at its
   * `query.bool.must` holds a clause whose range mentions "@timestamp".
   */
  lemma EnsureAddsRange(h: Heap, query: nat)
    requires Closed(h) && query in h.store && h.store[query].DictC?
    ensures var (h', r) := Ensure(h, query);
            r.Some? ==> r.value == h.next && h.next !in h.store
                        && r.value in h'.store && h'.store[r.value].DictC?
                        && SameButQuery(h.store[query].fields, h'.store[r.value].fields)
                        && MustList(h'.store, r.value).Some?
                        && HasRange(h'.store, h'.store[MustList(h'.store, r.value).value].items) == Some(true)
  {
    CopyStart(h, query);
    var (h1, q) := Alloc(h, DictC(h.store[query].fields));
    BaseLink(h1, q);
    BaseClosed(h1, q);
    var (h2, b) := EnsureBase(h1, q);
    if b.Some? {
      BoolLink(h2, q, b.value);
      BoolClosed(h2, b.value);
      var (h3, bd) := EnsureBool(h2, b.value);
      if bd.Some? {
        MustLink(h3, q, b.value, bd.value);
        MustClosed(h3, bd.value);
        var (h4, m) := EnsureMust(h3, bd.value);
        if m.Some? {
          AddRangeSpec(h4, q, m.value);
          var h' := AddRange(h4, q, m.value).0;
          MustListKept(h4.store, h'.store, q, m.value);
          assert h'.store[q] == h2.store[q];
        }
      }
    }
  }

  /** Every reference in the list at m leads to an allocated container. */
  lemma ItemsResolve(h: Heap, m: nat)
    requires Closed(h) && m in h.store && h.store[m].ListC?
    ensures forall i :: 0 <= i < |h.store[m].items| && h.store[m].items[i].Ref? ==> h.store[m].items[i].addr in h.store
  {
    assert RefsWithin(h.store[m], h.store);
    forall i | 0 <= i < |h.store[m].items| && h.store[m].items[i].Ref?
      ensures h.store[m].items[i].addr in h.store
    {
      assert h.store[m].items[i] in Contents(h.store[m]);
    }
  }

  /** On a query whose `query.bool.must` list exists, the three steps find it and change nothing. */
  lemma ExistingSteps(h: Heap, query: nat, m: nat)
    requires Bounded(h) && query in h.store && h.store[query].DictC? && MustList(h.store, query) == Some(m)
    ensures var (h1, q) := Alloc(h, DictC(h.store[query].fields));
            MustList(h1.store, q) == Some(m) && Ensure(h, query) == AddRange(h1, q, m)
  {
    var (h1, q) := Alloc(h, DictC(h.store[query].fields));
    var b := Lookup(h.store[query].fields, "query");
    assert "bool" in h.store[b.addr].fields;
    var bd := Lookup(h.store[b.addr].fields, "bool");
    assert "must" in h.store[bd.addr].fields;
    assert h1.store[b.addr] == h.store[b.addr] && h1.store[bd.addr] == h.store[bd.addr] && h1.store[m] == h.store[m];
    assert EnsureBase(h1, q) == (h1, Some(b.addr));
    assert EnsureBool(h1, b.addr) == (h1, Some(bd.addr));
    assert EnsureMust(h1, bd.addr) == (h1, Some(m));
  }

  /**
   * A query that already has its `query.bool.must` list: the test raises
   * (None) exactly when Python's `any` does; otherwise the copy and the
   * caller's query share that same list, which keeps its clauses in order
   * and gains the clause only when no clause mentioned "@timestamp".
   * Nothing else that existed changes: not the caller's dict, not the
   * clauses themselves.
   */
  lemma EnsureExisting(h: Heap, query: nat, m: nat)
    requires Closed(h) && query in h.store && h.store[query].DictC? && MustList(h.store, query) == Some(m)
    ensures var (h', r) := Ensure(h, query);
            var items := h.store[m].items;
            && (r.None? <==> HasRange(h.store, items).None?)
            && (r.Some? ==> r.value != query
                            && MustList(h'.store, query) == Some(m) && MustList(h'.store, r.value) == Some(m))
            && (forall a :: a in h.store && a != m ==> a in h'.store && h'.store[a] == h.store[a])
            && (HasRange(h.store, items) == Some(true) ==> h'.store[m] == h.store[m])
            && (HasRange(h.store, items) == Some(false) ==>
                  |h'.store[m].items| == |items| + 1 && h'.store[m].items[..|items|] == items
                  && IsRangeClause(h'.store, h'.store[m].items[|items|]))
  {
    CopyStart(h, query);
    var (h1, q) := Alloc(h, DictC(h.store[query].fields));
    ExistingSteps(h, query, m);
    ItemsResolve(h, m);
    HasRangeStable(h.store, h1.store, h.store[m].items);
    AddRangeSpec(h1, q, m);
    var h' := AddRange(h1, q, m).0;
    MustListKept(h1.store, h'.store, q, m);
    assert MustList(h1.store, query) == Some(m);
    MustListKept(h1.store, h'.store, query, m);
  }

  /** The `bool` and `must` steps under a chain `{"bool": {"must": []}}` just created: both find it and change nothing. */
  lemma ChainSteps(h: Heap, b: nat, bd: nat, m: nat)
    requires b in h.store && h.store[b] == DictC(map["bool" := Ref(bd)])
    requires bd in h.store && h.store[bd] == DictC(map["must" := Ref(m)])
    requires m in h.store && h.store[m].ListC?
    ensures Bounded(h) ==> EnsureBool(h, b) == (h, Some(bd)) && EnsureMust(h, bd) == (h, Some(m))
  {
    assert Lookup(h.store[b].fields, "bool") == Ref(bd);
    assert "must" in h.store[bd].fields;
  }

  /** The append to an empty `must` list: it then holds the clause alone, and nothing else that existed changes. */
  lemma AddRangeEmpty(h: Heap, q: nat, m: nat)
    requires Bounded(h) && m in h.store && h.store[m] == ListC([])
    ensures var (h', r) := AddRange(h, q, m);
            && r == Some(q) && m in h'.store && h'.store[m].ListC? && |h'.store[m].items| == 1
            && IsRangeClause(h'.store, h'.store[m].items[0])
            && forall a :: a in h.store && a != m ==> a in h'.store && h'.store[a] == h.store[a]
  {
    NewRangeClauseShape(h);
  }

  /** On a query whose "query" is falsy, the copy at h.next gets the chain `{"bool": {"must": []}}` with the list at h.next + 1. */
  lemma CreatedSteps(h: Heap, query: nat)
    requires Bounded(h) && query in h.store && h.store[query].DictC? && RefsWithin(h.store[query], h.store)
    requires !IsTruthy(h.store, Lookup(h.store[query].fields, "query"))
    ensures var (h1, q) := Alloc(h, DictC(h.store[query].fields));
            var h2 := EnsureBase(h1, q).0;
            && Bounded(h2) && MustList(h2.store, q) == Some(h.next + 1) && h2.store[h.next + 1] == ListC([])
            && h2.store[query] == h.store[query]
            && SameButQuery(h.store[query].fields, h2.store[q].fields)
            && Ensure(h, query) == AddRange(h2, q, h.next + 1)
  {
    var (h1, q) := Alloc(h, DictC(h.store[query].fields));
    var base := Lookup(h.store[query].fields, "query");
    if base.Ref? {
      assert base in Contents(h.store[query]);
    }
    assert !IsTruthy(h1.store, base);
    var (h2, b) := EnsureBase(h1, q);
    var m: nat := h1.next;
    var bd: nat := h1.next + 1;
    assert h2.store[q] == DictC(h.store[query].fields["query" := Ref(h1.next + 2)]);
    ChainSteps(h2, h1.next + 2, bd, m);
  }

  /**
   * The outcome on a query whose "query" is missing or falsy: the result is
   * the copy at h.next; it keeps every other key of the caller's dict and
   * its `query.bool.must` is the list at h.next + 1, holding the clause
   * alone; the caller's dict is not changed.
   */
  ghost predicate CreatedShape(h: Heap, query: nat, res: (Heap, Option<nat>))
    requires query in h.store && h.store[query].DictC?
  {
    var s' := res.0.store;
    && res.1 == Some(h.next)
    && query in s' && s'[query] == h.store[query]
    && h.next in s' && s'[h.next].DictC? && SameButQuery(h.store[query].fields, s'[h.next].fields)
    && MustList(s', h.next) == Some(h.next + 1) && IsList(s', Ref(h.next + 1))
    && |s'[h.next + 1].items| == 1 && IsRangeClause(s', s'[h.next + 1].items[0])
  }

  /** The append to the new `must` list at m, under the copy q == h.next, gives that outcome. */
  lemma CreatedAppend(h: Heap, query: nat, h2: Heap, q: nat)
    requires query in h.store && h.store[query].DictC? && q == h.next
    requires Bounded(h2) && MustList(h2.store, q) == Some(h.next + 1) && h2.store[h.next + 1] == ListC([])
    requires query in h2.store && h2.store[query] == h.store[query] && query != h.next + 1
    requires SameButQuery(h.store[query].fields, h2.store[q].fields)
    ensures CreatedShape(h, query, AddRange(h2, q, h.next + 1))
  {
    var m: nat := h.next + 1;
    AddRangeEmpty(h2, q, m);
    var h' := AddRange(h2, q, m).0;
    MustListKept(h2.store, h'.store, q, m);
  }

  /** A query whose "query" is missing or falsy gets the whole `{"bool": {"must": [clause]}}` in its copy. */
  lemma EnsureCreates(h: Heap, query: nat)
    requires Bounded(h) && query in h.store && h.store[query].DictC? && RefsWithin(h.store[query], h.store)
    requires !IsTruthy(h.store, Lookup(h.store[query].fields, "query"))
    ensures CreatedShape(h, query, Ensure(h, query))
  {
    CreatedSteps(h, query);
    var (h1, q) := Alloc(h, DictC(h.store[query].fields));
    CreatedAppend(h, query, EnsureBase(h1, q).0, q);
  }

  /** A query whose `must` list already has a clause mentioning "@timestamp": only a new shallow copy is made. */
  lemma CopyOnly(h: Heap, query: nat, m: nat)
    requires Closed(h) && query in h.store && h.store[query].DictC? && MustList(h.store, query) == Some(m)
    requires HasRange(h.store, h.store[m].items) == Some(true)
    ensures Ensure(h, query) == (Alloc(h, DictC(h.store[query].fields)).0, Some(h.next))
  {
    ExistingSteps(h, query, m);
    var h1 := Alloc(h, DictC(h.store[query].fields)).0;
    ItemsResolve(h, m);
    HasRangeStable(h.store, h1.store, h.store[m].items);
  }

  /**
   * Idempotence: applied again to its own result, the function finds the
   * clause and changes nothing; it only makes one more shallow copy.
   */
  lemma EnsureIdempotent(h: Heap, query: nat, h': Heap, q: nat)
    requires Closed(h) && query in h.store && h.store[query].DictC?
    requires Ensure(h, query) == (h', Some(q))
    ensures Bounded(h') && q in h'.store && h'.store[q].DictC?
    ensures Ensure(h', q) == (Alloc(h', DictC(h'.store[q].fields)).0, Some(h'.next))
  {
    EnsureAddsRange(h, query);
    EnsureClosed(h, query);
    CopyOnly(h', q, MustList(h'.store, q).value);
  }

  /** A truthy "query" that is not a dict (a string, a number, a list) makes `base.get` raise: no result, and the caller's dict is untouched. */
  lemma EnsureRejects(h: Heap, query: nat)
    requires Bounded(h) && query in h.store && h.store[query].DictC? && RefsWithin(h.store[query], h.store)
    requires var base := Lookup(h.store[query].fields, "query"); IsTruthy(h.store, base) && !IsDict(h.store, base)
    ensures Ensure(h, query).1 == None
    ensures query in Ensure(h, query).0.store && Ensure(h, query).0.store[query] == h.store[query]
  {
    var base := Lookup(h.store[query].fields, "query");
    if base.Ref? {
      assert base in Contents(h.store[query]);
    }
  }
}
