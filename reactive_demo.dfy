/**
 * Concrete runs of the reactive runtime: the demo at the end of reactive.js
 * and the behaviours its design exists for.
 */
module ReactiveDemo {
  import opened Seqs
  import opened Reactive

  const Obj: Target := 0

  // ---------------------------------------------------------------------------
  // The demo (reactive.js:123-126)

  const SumGetter := Add(Get(Obj, "foo"), Get(Obj, "bar"))

  /** The runtime of the demo: one computed `foo + bar`, no effect running. */
  ghost predicate SumRuntime(rt: Runtime, d: Data, cs: ComputedState)
    reads rt
  {
    && rt.Valid()
    && rt.effects == [Effect(SumGetter, Options(true, MarkDirty))]
    && rt.data == d && rt.computeds == map[0 := cs]
    && rt.activeEffect == None
  }

  /** The store once the computed has read `foo` and `bar`. */
  lemma StoreAfterSum(e: EffectId)
    ensures AddAll(map[], e, [(Obj, "foo"), (Obj, "bar")]) == map[Obj := map["foo" := [e], "bar" := [e]]]
  {
    var rs: seq<Dep> := [(Obj, "foo"), (Obj, "bar")];
    assert Insert([], e) == [e];
    var b1 := AddSub(map[], Obj, "foo", e);
    assert b1 == map[Obj := map["foo" := [e]]];
    var b2 := AddSub(b1, Obj, "bar", e);
    assert "bar" !in b1[Obj];
    assert b2 == map[Obj := map["foo" := [e], "bar" := [e]]];
    assert rs[1..] == [(Obj, "bar")] && |rs[1..][1..]| == 0;
    assert AddAll(b1, e, rs[1..]) == AddAll(b2, e, []);
  }

  /** `const sum = computed(() => obj.foo + obj.bar)` over `{ foo: 1, bar: 2 }`. */
  method NewSum() returns (rt: Runtime, sum: EffectId)
    ensures fresh(rt) && sum == 0
    ensures SumRuntime(rt, map[Obj := map["foo" := 1, "bar" := 2]], ComputedState(true, 0))
    ensures rt.bucket == map[] && rt.deps == [[]]
  {
    rt := new Runtime(map[Obj := map["foo" := 1, "bar" := 2]]);
    sum := rt.MakeComputed(SumGetter);
  }

  /** The first `sum.value`: computes 3 and subscribes the computed to `foo`. */
  method FirstRead(rt: Runtime) returns (v: int)
    requires SumRuntime(rt, map[Obj := map["foo" := 1, "bar" := 2]], ComputedState(true, 0))
    requires rt.bucket == map[] && rt.deps == [[]]
    modifies rt
    ensures v == 3
    ensures SumRuntime(rt, map[Obj := map["foo" := 1, "bar" := 2]], ComputedState(false, 3))
    ensures SubscribersOf(rt.bucket, Obj, "foo") == [0]
  {
    assert Read(rt.data, Obj, "foo") == 1 && Read(rt.data, Obj, "bar") == 2;
    assert EvalPure(SumGetter, rt.data) == 3;
    assert ReadsOf(SumGetter, rt.data) == [(Obj, "foo")] + [(Obj, "bar")];
    v := rt.ComputedValue(0, 1);
    StoreAfterSum(0);
  }

  /** `obj.foo++`: a read, then the set trap, which marks the computed dirty. */
  method Increment(rt: Runtime)
    requires SumRuntime(rt, map[Obj := map["foo" := 1, "bar" := 2]], ComputedState(false, 3))
    requires SubscribersOf(rt.bucket, Obj, "foo") == [0]
    modifies rt
    ensures SumRuntime(rt, map[Obj := map["foo" := 2, "bar" := 2]], ComputedState(true, 3))
  {
    var foo := rt.GetProp(Obj, "foo");
    assert foo == 1;
    assert Write(rt.data, Obj, "foo", 2) == map[Obj := map["foo" := 2, "bar" := 2]] by {
      assert map["foo" := 1, "bar" := 2]["foo" := 2] == map["foo" := 2, "bar" := 2];
    }
    assert ToRun(rt.bucket, Obj, "foo", rt.activeEffect) == [0];
    assert MarkAll(map[0 := ComputedState(false, 3)], rt.effects, [0]) == map[0 := ComputedState(true, 3)] by {
      assert [0][..0] == [];
    }
    assert RunsReadOnly(rt.effects, [0]) && NoneImmediate(rt.effects, [0]);
    ReactAllScheduled(rt.State(), rt.effects, Write(rt.data, Obj, "foo", 2), [0]);
    var _ := rt.SetProp(Obj, "foo", foo + 1, 1);
  }

  /** The second `sum.value`: dirty, so recomputed over the new data. */
  method SecondRead(rt: Runtime) returns (v: int)
    requires SumRuntime(rt, map[Obj := map["foo" := 2, "bar" := 2]], ComputedState(true, 3))
    modifies rt
    ensures v == 4
  {
    assert EvalPure(SumGetter, rt.data) == 4;
    v := rt.ComputedValue(0, 1);
  }

  /** The demo prints 3, then 4: the computed caches, and a write it read invalidates the cache. */
  method ComputedSum() returns (first: int, second: int)
    ensures first == 3 && second == 4
  {
    var rt, sum := NewSum();
    first := FirstRead(rt);
    Increment(rt);
    second := SecondRead(rt);
  }

  // ---------------------------------------------------------------------------
  // One effect over `{ foo: 1, ok: 1, text: 5 }`

  const Start: Data := map[Obj := map["foo" := 1, "ok" := 1, "text" := 5]]

  /** The runtime holding a single effect and no computed, with no effect running. */
  ghost predicate OneEffect(rt: Runtime, body: Expr, options: Options)
    reads rt
  {
    && rt.Valid()
    && rt.effects == [Effect(body, options)]
    && rt.computeds == map[] && rt.activeEffect == None
  }

  /** `effect(fn, options)` on a fresh runtime: the eager run subscribes it to what it read. */
  method NewEffect(body: Expr, options: Options) returns (rt: Runtime)
    requires Plain(body) && !options.lazy && options.scheduler != MarkDirty
    ensures fresh(rt) && OneEffect(rt, body, options) && rt.data == Start
    ensures rt.bucket == AddAll(map[], 0, ReadsOf(body, Start)) && rt.deps == [ReadsOf(body, Start)]
    ensures rt.jobQueue == [] && !rt.isFlushing
  {
    rt := new Runtime(Start);
    var _ := rt.MakeEffect(body, options, 1);
  }

  /** The store once effect e has read `foo`. */
  lemma StoreAfterFoo(e: EffectId)
    ensures AddAll(map[], e, [(Obj, "foo")]) == map[Obj := map["foo" := [e]]]
  {
    assert Insert([], e) == [e];
    var rs: seq<Dep> := [(Obj, "foo")];
    assert |rs[1..]| == 0;
  }

  /** The store after effect 0 switched from reading `ok` and `text` to reading `ok` only. */
  lemma StoreAfterSwitch()
    ensures Rerun(map[Obj := map["ok" := [0], "text" := [0]]], [[(Obj, "ok"), (Obj, "text")]], 0, [(Obj, "ok")])
      == map[Obj := map["ok" := [0], "text" := []]]
  {
    var ds: seq<Dep> := [(Obj, "ok"), (Obj, "text")];
    var b0 := map[Obj := map["ok" := [0], "text" := [0]]];
    assert Remove([0], 0) == [] by { assert [0][1..] == []; }
    assert ds[..1][..0] == [] && ds[..1][0] == (Obj, "ok") && ds[..2][..1] == ds[..1];
    var b1 := map[Obj := map["ok" := [], "text" := [0]]];
    assert DropSub(b0, (Obj, "ok"), 0) == b1 by {
      assert b0[Obj]["ok" := []] == map["ok" := [], "text" := [0]];
    }
    assert DropAll(b0, 0, ds[..1]) == b1;
    var b2 := map[Obj := map["ok" := [], "text" := []]];
    assert DropSub(b1, (Obj, "text"), 0) == b2 by {
      assert b1[Obj]["text" := []] == map["ok" := [], "text" := []];
    }
    assert ds == ds[..2];
    assert DropAll(b0, 0, ds) == b2;
    assert Insert([], 0) == [0];
    var rs: seq<Dep> := [(Obj, "ok")];
    assert |rs[1..]| == 0;
    assert AddSub(b2, Obj, "ok", 0) == map[Obj := map["ok" := [0], "text" := []]] by {
      assert b2[Obj]["ok" := [0]] == map["ok" := [0], "text" := []];
    }
    assert AddAll(b2, 0, rs) == AddAll(AddSub(b2, Obj, "ok", 0), 0, []);
    assert [ds][0] == ds;
  }

  /**
   * A write to a key an effect read re-runs that effect at once (reactive.js:46-52):
   * the re-run reads the new data, so once `ok` is 0 it reads only `ok`, and
   * its cleanup unsubscribes it from `text`.
   */
  method EffectReruns() returns (reactions: seq<Reaction>, deps: seq<seq<Dep>>, store: Bucket)
    ensures reactions == [Ran(0)]
    ensures deps == [[(Obj, "ok")]]
    ensures store == map[Obj := map["ok" := [0], "text" := []]]
  {
    var rt := NewEffect(Toggle, Options(false, Immediate));
    StoreAfterToggle(0);
    assert ToRun(rt.bucket, Obj, "ok", rt.activeEffect) == [0];
    assert RunsReadOnly(rt.effects, [0]);
    assert ReadsOf(Toggle, Start) == [(Obj, "ok"), (Obj, "text")];
    ghost var before, written := rt.State(), Write(rt.data, Obj, "ok", 0);
    assert ReadsOf(Toggle, written) == [(Obj, "ok")];
    assert ReactAll(before, rt.effects, written, [0]) == React(before, rt.effects, written, 0) by {
      assert [0][..0] == [];
    }
    StoreAfterSwitch();
    reactions := rt.SetProp(Obj, "ok", 0, 1);
    deps, store := rt.deps, rt.bucket;
  }

  /**
   * Two writes before the microtask runs queue the job once: `jobQueue` is a
   * Set, and the flush runs it a single time (reactive.js:55-67).
   */
  method QueuedOnce() returns (afterFirst: seq<EffectId>, afterSecond: seq<EffectId>, ran: seq<EffectId>)
    ensures afterFirst == [0] && afterSecond == [0] && ran == [0]
  {
    var rt := NewEffect(Get(Obj, "foo"), Options(false, Queue));
    StoreAfterFoo(0);
    afterFirst := QueueWrite(rt, 2, []);
    afterSecond := QueueWrite(rt, 3, [0]);
    ran := rt.Flush(1);
    NoDupBounded(ran, 1);
    assert ran[..1] == [0];
  }

  /** A write to `foo`, whose only subscriber is the queued effect 0. */
  method QueueWrite(rt: Runtime, value: int, q: seq<EffectId>) returns (after: seq<EffectId>)
    requires OneEffect(rt, Get(Obj, "foo"), Options(false, Queue))
    requires rt.bucket == map[Obj := map["foo" := [0]]] && rt.jobQueue == q && (q == [] || q == [0])
    modifies rt
    ensures OneEffect(rt, Get(Obj, "foo"), Options(false, Queue))
    ensures rt.bucket == map[Obj := map["foo" := [0]]] && rt.isFlushing
    ensures after == rt.jobQueue == [0]
  {
    assert ToRun(rt.bucket, Obj, "foo", rt.activeEffect) == [0];
    assert RunsReadOnly(rt.effects, [0]) && NoneImmediate(rt.effects, [0]);
    assert QueueAll(q, rt.effects, [0]) == Insert(q, 0) by {
      assert [0][..0] == [];
    }
    ReactAllScheduled(rt.State(), rt.effects, Write(rt.data, Obj, "foo", value), [0]);
    var _ := rt.SetProp(Obj, "foo", value, 1);
    after := rt.jobQueue;
  }

  // ---------------------------------------------------------------------------
  // Branch switching: cleanup drops dependencies a re-run no longer reads

  const Toggle := If(Get(Obj, "ok"), Get(Obj, "text"), Lit(0))

  /** The store once effect e has read `ok` and then `text`. */
  lemma StoreAfterToggle(e: EffectId)
    ensures AddAll(map[], e, [(Obj, "ok"), (Obj, "text")]) == map[Obj := map["ok" := [e], "text" := [e]]]
  {
    var rs: seq<Dep> := [(Obj, "ok"), (Obj, "text")];
    assert Insert([], e) == [e];
    var b1 := AddSub(map[], Obj, "ok", e);
    assert b1 == map[Obj := map["ok" := [e]]];
    var b2 := AddSub(b1, Obj, "text", e);
    assert "text" !in b1[Obj];
    assert b2 == map[Obj := map["ok" := [e], "text" := [e]]];
    assert rs[1..] == [(Obj, "text")] && |rs[1..][1..]| == 0;
    assert AddAll(b1, e, rs[1..]) == AddAll(b2, e, []);
  }

  /** A write to `key` while effect 0 is the only subscriber of `ok` and `text`: the job is queued. */
  method WriteQueued(rt: Runtime, key: Key, value: int) returns (reactions: seq<Reaction>)
    requires OneEffect(rt, Toggle, Options(false, Queue)) && key in {"ok", "text"}
    requires rt.bucket == map[Obj := map["ok" := [0], "text" := [0]]]
    modifies rt
    ensures OneEffect(rt, Toggle, Options(false, Queue))
    ensures rt.bucket == old(rt.bucket) && rt.deps == old(rt.deps) && rt.data == Write(old(rt.data), Obj, key, value)
    ensures reactions == [Scheduled(0, Queue)]
  {
    assert ToRun(rt.bucket, Obj, key, rt.activeEffect) == [0];
    assert RunsReadOnly(rt.effects, [0]) && NoneImmediate(rt.effects, [0]);
    assert [0][..0] == [];
    ReactAllScheduled(rt.State(), rt.effects, Write(rt.data, Obj, key, value), [0]);
    reactions := rt.SetProp(Obj, key, value, 1);
  }

  /** Re-running the effect once `ok` is 0: it reads only `ok` now, and cleanup unsubscribed it from `text`. */
  method RerunSwitched(rt: Runtime)
    requires OneEffect(rt, Toggle, Options(false, Queue)) && Read(rt.data, Obj, "ok") == 0
    requires rt.bucket == map[Obj := map["ok" := [0], "text" := [0]]]
    modifies rt
    ensures OneEffect(rt, Toggle, Options(false, Queue))
    ensures SubscribersOf(rt.bucket, Obj, "text") == []
  {
    assert ReadsOf(Toggle, rt.data) == [(Obj, "ok")];
    ResubscribeExact(rt.bucket, rt.deps, 0, [(Obj, "ok")]);
    var _ := rt.Run(0, 1);
    var s := SubscribersOf(rt.bucket, Obj, "text");
    if s != [] {
      assert Subscribed(rt.bucket, Obj, "text", s[0]);
      assert false;
    }
  }

  /**
   * `effect(() => obj.ok ? obj.text : 0)`: while `ok` holds, a write to `text`
   * notifies the effect; after `ok` turns 0 and the effect re-ran, it does not.
   */
  method StaleBranchDropped() returns (before: seq<Reaction>, after: seq<Reaction>)
    ensures before == [Scheduled(0, Queue)] && after == []
  {
    var rt := NewEffect(Toggle, Options(false, Queue));
    StoreAfterToggle(0);
    before := WriteQueued(rt, "text", 6);
    var _ := WriteQueued(rt, "ok", 0);
    RerunSwitched(rt);
    after := rt.SetProp(Obj, "text", 7, 1);
  }
}
