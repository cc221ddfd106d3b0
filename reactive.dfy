/**
 * Model of reactive.js: the dependency store (`bucket`), `track` and `trigger`
 * behind a proxy's get/set traps, effects run through a LIFO `effectStack`
 * with cleanup before every run, dirty-flag `computed` values, and the
 * deduplicating job queue drained by `flushJob`.
 *
 * Raw objects and effect closures become ids. An effect body is an `Expr`
 * whose evaluation performs the reads (and writes) the closure would make.
 */
module Reactive {
  import opened Seqs

  type Target = nat      // identity of a raw object behind the proxy
  type Key = string
  type EffectId = nat    // identity of an `effectFn` closure: its index in the registry

  /** One subscriber Set is named by the pair that reaches it: bucket.get(target).get(key). */
  type Dep = (Target, Key)

  /** A JS Set of effects: insertion order, no element twice. */
  type Subscribers = seq<EffectId>
  type Bucket = map<Target, map<Key, Subscribers>>
  type Data = map<Target, map<Key, int>>

  /** Body of an effect or getter of a computed: what the closure reads and writes. */
  datatype Expr =
    | Lit(n: int)
    | Get(target: Target, key: Key)                         // obj[key] through the get trap
    | Add(left: Expr, right: Expr)
    | If(cond: Expr, thn: Expr, els: Expr)                  // cond ? thn : els (0 is falsy)
    | Put(target: Target, key: Key, value: Expr, rest: Expr) // obj[key] = value; then rest
    | ValueOf(computed: EffectId)                           // reading `.value` of a computed (by its effect)

  /**
   * `options.scheduler`: none, the dirty-marking callback that `computed`
   * installs on its own effect, or the queueing callback `jobQueue.add(fn); flushJob()`.
   */
  datatype Scheduler = Immediate | MarkDirty | Queue
  datatype Options = Options(lazy: bool, scheduler: Scheduler)
  datatype Effect = Effect(body: Expr, options: Options)

  /** The variables a `computed` closes over: `isDirty` and the cached `value`. */
  datatype ComputedState = ComputedState(isDirty: bool, value: int)

  /** What `trigger` does with one effect: runs it, or hands it to its scheduler. */
  datatype Reaction = Ran(effect: EffectId) | Scheduled(effect: EffectId, scheduler: Scheduler)

  ghost predicate NoDup<T>(s: seq<T>) {
    forall i, j :: 0 <= i < j < |s| ==> s[i] != s[j]
  }

  ghost predicate IsPrefix<T>(a: seq<T>, b: seq<T>) {
    |a| <= |b| && b[..|a|] == a
  }

  lemma PrefixTrans<T>(a: seq<T>, b: seq<T>, c: seq<T>)
    requires IsPrefix(a, b) && IsPrefix(b, c)
    ensures IsPrefix(a, c)
  {
    assert c[..|a|] == c[..|b|][..|a|];
  }

  // ---------------------------------------------------------------------------
  // Sets of effects

  /** `Set.prototype.add`: appends only an absent element. */
  function Insert(s: Subscribers, e: EffectId): (r: Subscribers) {
    if e in s then s else s + [e]
  }

  /** `Set.prototype.delete`: the remaining elements keep their order. */
  function Remove(s: Subscribers, e: EffectId): (r: Subscribers) {
    if s == [] then []
    else if s[0] == e then Remove(s[1..], e)
    else [s[0]] + Remove(s[1..], e)
  }

  lemma InsertFacts(s: Subscribers, e: EffectId)
    ensures forall x :: x in Insert(s, e) <==> x in s || x == e
    ensures NoDup(s) ==> NoDup(Insert(s, e))
    ensures IsPrefix(s, Insert(s, e))
    ensures e in s ==> Insert(s, e) == s
  {
  }

  lemma {:induction false} RemoveFacts(s: Subscribers, e: EffectId)
    ensures forall x :: x in Remove(s, e) <==> x in s && x != e
    ensures NoDup(s) ==> NoDup(Remove(s, e)) && |Remove(s, e)| >= |s| - 1
    ensures e !in s ==> Remove(s, e) == s
  {
    if s != [] {
      RemoveFacts(s[1..], e);
      assert s == [s[0]] + s[1..];
      if NoDup(s) {
        assert NoDup(s[1..]);
        assert s[0] !in s[1..];
      }
    }
  }

  /** A Set of effects never holds more members than there are effects. */
  lemma {:induction false} NoDupBounded(s: seq<EffectId>, n: nat)
    requires NoDup(s) && forall x | x in s :: x < n
    ensures |s| <= n
    decreases n
  {
    if s != [] {
      assert s[0] in s;
      RemoveFacts(s, n - 1);
      NoDupBounded(Remove(s, n - 1), n - 1);
    }
  }

  // ---------------------------------------------------------------------------
  // The dependency store

  function SubscribersOf(b: Bucket, t: Target, k: Key): (r: Subscribers) {
    if t in b && k in b[t] then b[t][k] else []
  }

  predicate Subscribed(b: Bucket, t: Target, k: Key, e: EffectId) {
    e in SubscribersOf(b, t, k)
  }

  ghost predicate SetsNoDup(b: Bucket) {
    forall t, k | t in b && k in b[t] :: NoDup(b[t][k])
  }

  /** The store after `track(t, k)` with active effect e: maps created on demand, e added once. */
  function AddSub(b: Bucket, t: Target, k: Key, e: EffectId): (r: Bucket) {
    var m := if t in b then b[t] else map[];
    var s := if k in m then m[k] else [];
    b[t := m[k := Insert(s, e)]]
  }

  /** `deps.delete(effectFn)` on the Set named by d. */
  function DropSub(b: Bucket, d: Dep, e: EffectId): (r: Bucket) {
    var (t, k) := d;
    if t in b && k in b[t] then b[t := b[t][k := Remove(b[t][k], e)]] else b
  }

  /** The store after cleanup's loop over the Sets listed in ds, first to last. */
  function DropAll(b: Bucket, e: EffectId, ds: seq<Dep>): (r: Bucket)
    decreases |ds|
  {
    if ds == [] then b else DropSub(DropAll(b, e, ds[..|ds| - 1]), ds[|ds| - 1], e)
  }

  /** The store after the active effect e tracks every pair in rs, in order. */
  function AddAll(b: Bucket, e: EffectId, rs: seq<Dep>): (r: Bucket)
    decreases |rs|
  {
    if rs == [] then b else AddAll(AddSub(b, rs[0].0, rs[0].1, e), e, rs[1..])
  }

  /** The store after effect e was cleaned up and re-ran, reading rs. */
  function Rerun(b: Bucket, deps: seq<seq<Dep>>, e: EffectId, rs: seq<Dep>): (r: Bucket)
    requires e < |deps|
  {
    AddAll(DropAll(b, e, deps[e]), e, rs)
  }

  /** Tracking adds exactly (t, k, e) to the memberships and keeps every Set duplicate-free. */
  lemma AddSubFacts(b: Bucket, t: Target, k: Key, e: EffectId)
    ensures forall t': Target, k': Key, f: EffectId :: Subscribed(AddSub(b, t, k, e), t', k', f) <==>
      Subscribed(b, t', k', f) || (f == e && t' == t && k' == k)
    ensures SetsNoDup(b) ==> SetsNoDup(AddSub(b, t, k, e))
  {
    var m := if t in b then b[t] else map[];
    var s := if k in m then m[k] else [];
    InsertFacts(s, e);
  }

  /** Deleting from one Set removes exactly that membership. */
  lemma DropSubFacts(b: Bucket, d: Dep, e: EffectId)
    ensures forall t: Target, k: Key, f: EffectId :: Subscribed(DropSub(b, d, e), t, k, f) <==>
      Subscribed(b, t, k, f) && !(f == e && (t, k) == d)
    ensures SetsNoDup(b) ==> SetsNoDup(DropSub(b, d, e))
  {
    var (t, k) := d;
    if t in b && k in b[t] {
      RemoveFacts(b[t][k], e);
    }
  }

  /** Cleanup removes e from exactly the listed Sets and touches no other membership. */
  lemma {:induction false} DropAllMembership(b: Bucket, e: EffectId, ds: seq<Dep>, t: Target, k: Key, f: EffectId)
    ensures Subscribed(DropAll(b, e, ds), t, k, f) <==> Subscribed(b, t, k, f) && !(f == e && (t, k) in ds)
    decreases |ds|
  {
    if ds != [] {
      DropAllMembership(b, e, ds[..|ds| - 1], t, k, f);
      DropSubFacts(DropAll(b, e, ds[..|ds| - 1]), ds[|ds| - 1], e);
      assert ds == ds[..|ds| - 1] + [ds[|ds| - 1]];
    }
  }

  lemma {:induction false} DropAllNoDup(b: Bucket, e: EffectId, ds: seq<Dep>)
    requires SetsNoDup(b)
    ensures SetsNoDup(DropAll(b, e, ds))
    decreases |ds|
  {
    if ds != [] {
      DropAllNoDup(b, e, ds[..|ds| - 1]);
      DropSubFacts(DropAll(b, e, ds[..|ds| - 1]), ds[|ds| - 1], e);
    }
  }

  /** Tracking a list of reads subscribes e to exactly those pairs on top of the old store. */
  lemma {:induction false} AddAllMembership(b: Bucket, e: EffectId, rs: seq<Dep>, t: Target, k: Key, f: EffectId)
    ensures Subscribed(AddAll(b, e, rs), t, k, f) <==> Subscribed(b, t, k, f) || (f == e && (t, k) in rs)
    decreases |rs|
  {
    if rs != [] {
      AddSubFacts(b, rs[0].0, rs[0].1, e);
      AddAllMembership(AddSub(b, rs[0].0, rs[0].1, e), e, rs[1..], t, k, f);
      assert rs == [rs[0]] + rs[1..];
    }
  }

  /** Tracking r1 and then r2 is tracking r1 + r2. */
  lemma {:induction false} AddAllAppend(b: Bucket, e: EffectId, r1: seq<Dep>, r2: seq<Dep>)
    ensures AddAll(AddAll(b, e, r1), e, r2) == AddAll(b, e, r1 + r2)
    decreases |r1|
  {
    if r1 != [] {
      assert (r1 + r2)[0] == r1[0];
      assert (r1 + r2)[1..] == r1[1..] + r2;
      AddAllAppend(AddSub(b, r1[0].0, r1[0].1, e), e, r1[1..], r2);
    } else {
      assert r1 + r2 == r2;
    }
  }

  /** Tracking the same pair twice leaves the store as tracking it once. */
  lemma AddSubIdempotent(b: Bucket, t: Target, k: Key, e: EffectId)
    ensures AddSub(AddSub(b, t, k, e), t, k, e) == AddSub(b, t, k, e)
  {
    var b1 := AddSub(b, t, k, e);
    AddSubFacts(b, t, k, e);
    assert Subscribed(b1, t, k, e);
    assert Insert(b1[t][k], e) == b1[t][k];
    assert b1[t][k := b1[t][k]] == b1[t];
  }

  /**
   * Every membership in the store is recorded in its effect's `deps` list:
   * the back-references that let cleanup find all of them.
   */
  ghost predicate BucketOk(b: Bucket, deps: seq<seq<Dep>>) {
    forall t: Target, k: Key, e: EffectId | Subscribed(b, t, k, e) :: e < |deps| && (t, k) in deps[e]
  }

  /** `track` records the Set it adds to in the effect's `deps`, keeping the store consistent. */
  lemma TrackKeepsOk(b: Bucket, deps: seq<seq<Dep>>, t: Target, k: Key, e: EffectId)
    requires BucketOk(b, deps) && e < |deps|
    ensures BucketOk(AddSub(b, t, k, e), deps[e := deps[e] + [(t, k)]])
  {
    AddSubFacts(b, t, k, e);
    var b' := AddSub(b, t, k, e);
    var deps' := deps[e := deps[e] + [(t, k)]];
    forall t': Target, k': Key, f: EffectId | Subscribed(b', t', k', f)
      ensures f < |deps'| && (t', k') in deps'[f]
    {
      if f == e && t' == t && k' == k {
        assert deps'[e][|deps[e]|] == (t, k);
      } else {
        assert (t', k') in deps[f];
      }
    }
  }

  /** After cleanup e belongs to no Set, and the store still matches the emptied `deps`. */
  lemma CleanupKeepsOk(b: Bucket, deps: seq<seq<Dep>>, e: EffectId)
    requires BucketOk(b, deps) && e < |deps|
    ensures forall t: Target, k: Key :: !Subscribed(DropAll(b, e, deps[e]), t, k, e)
    ensures BucketOk(DropAll(b, e, deps[e]), deps[e := []])
  {
    forall t: Target, k: Key, f: EffectId
      ensures Subscribed(DropAll(b, e, deps[e]), t, k, f) <==> Subscribed(b, t, k, f) && !(f == e && (t, k) in deps[e])
    {
      DropAllMembership(b, e, deps[e], t, k, f);
    }
  }

  /** Re-tracking after cleanup keeps the store consistent with the rebuilt `deps`. */
  lemma {:induction false} ReTrackKeepsOk(b: Bucket, deps: seq<seq<Dep>>, e: EffectId, rs: seq<Dep>)
    requires BucketOk(b, deps) && e < |deps|
    ensures BucketOk(AddAll(b, e, rs), deps[e := deps[e] + rs])
    decreases |rs|
  {
    if rs == [] {
      assert deps[e] + rs == deps[e];
      assert deps[e := deps[e] + rs] == deps;
    } else {
      TrackKeepsOk(b, deps, rs[0].0, rs[0].1, e);
      var deps1 := deps[e := deps[e] + [rs[0]]];
      ReTrackKeepsOk(AddSub(b, rs[0].0, rs[0].1, e), deps1, e, rs[1..]);
      assert deps1[e := deps1[e] + rs[1..]] == deps[e := deps[e] + rs] by {
        assert deps1[e] + rs[1..] == deps[e] + rs;
      }
    }
  }

  /**
   * The subscription accuracy a completed run establishes: after cleanup and
   * re-tracking rs, e is subscribed exactly to rs, and every other effect's
   * memberships are as before.
   */
  lemma ResubscribeExact(b: Bucket, deps: seq<seq<Dep>>, e: EffectId, rs: seq<Dep>)
    requires BucketOk(b, deps) && e < |deps|
    ensures forall t: Target, k: Key, f: EffectId :: Subscribed(Rerun(b, deps, e, rs), t, k, f) <==>
      if f == e then (t, k) in rs else Subscribed(b, t, k, f)
  {
    CleanupKeepsOk(b, deps, e);
    forall t: Target, k: Key, f: EffectId
      ensures Subscribed(Rerun(b, deps, e, rs), t, k, f) <==> if f == e then (t, k) in rs else Subscribed(b, t, k, f)
    {
      AddAllMembership(DropAll(b, e, deps[e]), e, rs, t, k, f);
      DropAllMembership(b, e, deps[e], t, k, f);
    }
  }

  lemma {:induction false} AddAllNoDup(b: Bucket, e: EffectId, rs: seq<Dep>)
    requires SetsNoDup(b)
    ensures SetsNoDup(AddAll(b, e, rs))
    decreases |rs|
  {
    if rs != [] {
      AddSubFacts(b, rs[0].0, rs[0].1, e);
      AddAllNoDup(AddSub(b, rs[0].0, rs[0].1, e), e, rs[1..]);
    }
  }

  /** A run leaves every Set of the store duplicate-free, as a JS Set is. */
  lemma RerunNoDup(b: Bucket, deps: seq<seq<Dep>>, e: EffectId, rs: seq<Dep>)
    requires SetsNoDup(b) && e < |deps|
    ensures SetsNoDup(Rerun(b, deps, e, rs))
  {
    DropAllNoDup(b, e, deps[e]);
    AddAllNoDup(DropAll(b, e, deps[e]), e, rs);
  }

  // ---------------------------------------------------------------------------
  // What `trigger` notifies

  /**
   * `effectsToRun` (reactive.js:34-44): a copy of the Set taken before any
   * effect runs, without the active effect. Empty for an untracked target or key.
   */
  function ToRun(b: Bucket, t: Target, k: Key, active: Option<EffectId>): (r: seq<EffectId>) {
    if active.Some? then Remove(SubscribersOf(b, t, k), active.value) else SubscribersOf(b, t, k)
  }

  /** The snapshot holds every subscriber except the active effect, each once; untracked pairs notify nobody. */
  lemma ToRunFacts(b: Bucket, t: Target, k: Key, active: Option<EffectId>)
    ensures forall f: EffectId :: f in ToRun(b, t, k, active) <==> Subscribed(b, t, k, f) && active != Some(f)
    ensures SetsNoDup(b) ==> NoDup(ToRun(b, t, k, active))
    ensures t !in b || k !in b[t] ==> ToRun(b, t, k, active) == []
  {
    if active.Some? {
      RemoveFacts(SubscribersOf(b, t, k), active.value);
    }
  }

  function SchedulerOf(effects: seq<Effect>, f: EffectId): (r: Scheduler) {
    if f < |effects| then effects[f].options.scheduler else Immediate
  }

  function ReactionTo(effects: seq<Effect>, f: EffectId): (r: Reaction) {
    if SchedulerOf(effects, f) == Immediate then Ran(f) else Scheduled(f, SchedulerOf(effects, f))
  }

  predicate NoneImmediate(effects: seq<Effect>, s: seq<EffectId>) {
    forall i | 0 <= i < |s| :: SchedulerOf(effects, s[i]) != Immediate
  }

  /** The scheduler of a computed's effect sets its `isDirty`. */
  function MarkOne(cs: map<EffectId, ComputedState>, effects: seq<Effect>, f: EffectId): (r: map<EffectId, ComputedState>) {
    if SchedulerOf(effects, f) == MarkDirty && f in cs then cs[f := cs[f].(isDirty := true)] else cs
  }

  /** The queueing scheduler adds the effect to `jobQueue`. */
  function QueueOne(q: seq<EffectId>, effects: seq<Effect>, f: EffectId): (r: seq<EffectId>) {
    if SchedulerOf(effects, f) == Queue then Insert(q, f) else q
  }

  /** The computeds after the schedulers of s ran, first to last. */
  function MarkAll(cs: map<EffectId, ComputedState>, effects: seq<Effect>, s: seq<EffectId>): (r: map<EffectId, ComputedState>)
    decreases |s|
  {
    if s == [] then cs else MarkOne(MarkAll(cs, effects, s[..|s| - 1]), effects, s[|s| - 1])
  }

  /** The job queue after the schedulers of s ran, first to last. */
  function QueueAll(q: seq<EffectId>, effects: seq<Effect>, s: seq<EffectId>): (r: seq<EffectId>)
    decreases |s|
  {
    if s == [] then q else QueueOne(QueueAll(q, effects, s[..|s| - 1]), effects, s[|s| - 1])
  }

  /** Whether a scheduler among s called `flushJob`. */
  predicate AnyQueued(effects: seq<Effect>, s: seq<EffectId>)
    decreases |s|
  {
    s != [] && (AnyQueued(effects, s[..|s| - 1]) || SchedulerOf(effects, s[|s| - 1]) == Queue)
  }

  /** Exactly the notified computeds are marked dirty; no value and no other flag changes. */
  lemma {:induction false} MarkAllFacts(cs: map<EffectId, ComputedState>, effects: seq<Effect>, s: seq<EffectId>)
    ensures MarkAll(cs, effects, s).Keys == cs.Keys
    ensures forall c | c in cs ::
      && MarkAll(cs, effects, s)[c].value == cs[c].value
      && MarkAll(cs, effects, s)[c].isDirty == (cs[c].isDirty || (c in s && SchedulerOf(effects, c) == MarkDirty))
    decreases |s|
  {
    if s != [] {
      MarkAllFacts(cs, effects, s[..|s| - 1]);
      assert s == s[..|s| - 1] + [s[|s| - 1]];
    }
  }

  /** Queued effects are appended once each, in notification order, after the jobs already queued. */
  lemma {:induction false} QueueAllFacts(q: seq<EffectId>, effects: seq<Effect>, s: seq<EffectId>)
    ensures IsPrefix(q, QueueAll(q, effects, s))
    ensures forall x :: x in QueueAll(q, effects, s) <==> x in q || (x in s && SchedulerOf(effects, x) == Queue)
    ensures NoDup(q) ==> NoDup(QueueAll(q, effects, s))
    decreases |s|
  {
    if s != [] {
      var r := QueueAll(q, effects, s[..|s| - 1]);
      QueueAllFacts(q, effects, s[..|s| - 1]);
      InsertFacts(r, s[|s| - 1]);
      PrefixTrans(q, r, QueueAll(q, effects, s));
      assert s == s[..|s| - 1] + [s[|s| - 1]];
    }
  }

  // ---------------------------------------------------------------------------
  // What `trigger` does when every effect it runs only reads

  /** The part of the runtime a notification can change: the store, `deps`, the computeds and the job queue. */
  datatype Reacted = Reacted(bucket: Bucket, deps: seq<seq<Dep>>, computeds: map<EffectId, ComputedState>,
                             jobQueue: seq<EffectId>, isFlushing: bool)

  /** f is registered, and if `trigger` would run it directly, its body only reads. */
  predicate ReadOnlyRun(effects: seq<Effect>, f: EffectId) {
    f < |effects| && (SchedulerOf(effects, f) == Immediate ==> Plain(effects[f].body))
  }

  predicate RunsReadOnly(effects: seq<Effect>, s: seq<EffectId>) {
    forall i | 0 <= i < |s| :: ReadOnlyRun(effects, s[i])
  }

  /**
   * Notifying f over data d (reactive.js:46-52): without a scheduler the effect
   * re-runs, which cleans it up and re-subscribes it to exactly what it reads
   * now; otherwise its scheduler marks it dirty or queues it.
   */
  function React(st: Reacted, effects: seq<Effect>, d: Data, f: EffectId): (r: Reacted)
    requires ReadOnlyRun(effects, f) && |st.deps| == |effects|
    ensures |r.deps| == |st.deps|
  {
    if SchedulerOf(effects, f) == Immediate then
      var rs := ReadsOf(effects[f].body, d);
      st.(bucket := Rerun(st.bucket, st.deps, f, rs), deps := st.deps[f := rs])
    else
      st.(computeds := MarkOne(st.computeds, effects, f), jobQueue := QueueOne(st.jobQueue, effects, f),
          isFlushing := st.isFlushing || SchedulerOf(effects, f) == Queue)
  }

  /** Notifying the effects of s, first to last. */
  function ReactAll(st: Reacted, effects: seq<Effect>, d: Data, s: seq<EffectId>): (r: Reacted)
    requires RunsReadOnly(effects, s) && |st.deps| == |effects|
    ensures |r.deps| == |st.deps|
    decreases |s|
  {
    if s == [] then st else React(ReactAll(st, effects, d, s[..|s| - 1]), effects, d, s[|s| - 1])
  }

  lemma ReactAllStep(st: Reacted, effects: seq<Effect>, d: Data, s: seq<EffectId>, i: nat)
    requires RunsReadOnly(effects, s) && |st.deps| == |effects| && i < |s|
    ensures ReactAll(st, effects, d, s[..i + 1]) == React(ReactAll(st, effects, d, s[..i]), effects, d, s[i])
  {
    assert s[..i + 1][..i] == s[..i];
  }

  /** When no effect of s runs directly, notifying s only calls the schedulers: the store and `deps` stay put. */
  lemma {:induction false} ReactAllScheduled(st: Reacted, effects: seq<Effect>, d: Data, s: seq<EffectId>)
    requires RunsReadOnly(effects, s) && NoneImmediate(effects, s) && |st.deps| == |effects|
    ensures ReactAll(st, effects, d, s) == st.(computeds := MarkAll(st.computeds, effects, s),
      jobQueue := QueueAll(st.jobQueue, effects, s), isFlushing := st.isFlushing || AnyQueued(effects, s))
    decreases |s|
  {
    if s != [] {
      var n := |s| - 1;
      assert forall i | 0 <= i < n :: s[..n][i] == s[i];
      ReactAllScheduled(st, effects, d, s[..n]);
    }
  }

  /**
   * After notifying s, each effect that ran is subscribed to exactly the pairs
   * it read, every effect that was not notified keeps its subscriptions, and
   * the store stays consistent with `deps`.
   */
  lemma {:induction false} ReactAllSubscriptions(st: Reacted, effects: seq<Effect>, d: Data, s: seq<EffectId>)
    requires RunsReadOnly(effects, s) && |st.deps| == |effects| && BucketOk(st.bucket, st.deps)
    ensures BucketOk(ReactAll(st, effects, d, s).bucket, ReactAll(st, effects, d, s).deps)
    ensures forall t: Target, k: Key, f: EffectId | f !in s ::
      Subscribed(ReactAll(st, effects, d, s).bucket, t, k, f) == Subscribed(st.bucket, t, k, f)
    ensures forall i, t: Target, k: Key | 0 <= i < |s| && SchedulerOf(effects, s[i]) == Immediate ::
      Subscribed(ReactAll(st, effects, d, s).bucket, t, k, s[i]) <==> (t, k) in ReadsOf(effects[s[i]].body, d)
    decreases |s|
  {
    if s != [] {
      var n := |s| - 1;
      var p := ReactAll(st, effects, d, s[..n]);
      var r := ReactAll(st, effects, d, s);
      assert RunsReadOnly(effects, s[..n]);
      ReactAllSubscriptions(st, effects, d, s[..n]);
      var g := s[n];
      if SchedulerOf(effects, g) == Immediate {
        var rs := ReadsOf(effects[g].body, d);
        ResubscribeExact(p.bucket, p.deps, g, rs);
        CleanupKeepsOk(p.bucket, p.deps, g);
        ReTrackKeepsOk(DropAll(p.bucket, g, p.deps[g]), p.deps[g := []], g, rs);
        assert p.deps[g := []][g := [] + rs] == p.deps[g := rs] by { assert [] + rs == rs; }
      }
      forall i, t: Target, k: Key | 0 <= i < |s| && SchedulerOf(effects, s[i]) == Immediate
        ensures Subscribed(r.bucket, t, k, s[i]) <==> (t, k) in ReadsOf(effects[s[i]].body, d)
      {
        if s[i] != g {
          assert s[..n][i] == s[i];
        }
      }
      assert s == s[..n] + [g];
    }
  }

  // ---------------------------------------------------------------------------
  // Effect bodies

  /** Reads through the proxy; an absent key reads as 0. */
  function Read(data: Data, t: Target, k: Key): (r: int) {
    if t in data && k in data[t] then data[t][k] else 0
  }

  /** `target[key] = value` (reactive.js:11). */
  function Write(data: Data, t: Target, k: Key, v: int): (r: Data)
    ensures Read(r, t, k) == v
    ensures forall t', k' | t' != t || k' != k :: Read(r, t', k') == Read(data, t', k')
  {
    data[t := (if t in data then data[t] else map[])[k := v]]
  }

  function Top(s: seq<EffectId>): (r: Option<EffectId>) {
    if s == [] then None else Some(s[|s| - 1])
  }

  function Size(x: Expr): (n: nat) {
    match x
    case Lit(_) => 1
    case Get(_, _) => 1
    case Add(a, b) => Size(a) + Size(b) + 1
    case If(c, a, b) => Size(c) + Size(a) + Size(b) + 1
    case Put(_, _, v, r) => Size(v) + Size(r) + 1
    case ValueOf(_) => 1
  }

  /** A body that only reads the proxy: no writes and no computed reads. */
  predicate Plain(x: Expr) {
    match x
    case Lit(_) => true
    case Get(_, _) => true
    case Add(a, b) => Plain(a) && Plain(b)
    case If(c, a, b) => Plain(c) && Plain(a) && Plain(b)
    case Put(_, _, _, _) => false
    case ValueOf(_) => false
  }

  /** The value a plain body produces over the given data. */
  function EvalPure(x: Expr, data: Data): (r: int)
    requires Plain(x)
  {
    match x
    case Lit(n) => n
    case Get(t, k) => Read(data, t, k)
    case Add(a, b) => EvalPure(a, data) + EvalPure(b, data)
    case If(c, a, b) => if EvalPure(c, data) != 0 then EvalPure(a, data) else EvalPure(b, data)
  }

  /** The proxy reads a plain body makes, in order: only the taken branch of a conditional is read. */
  function ReadsOf(x: Expr, data: Data): (r: seq<Dep>)
    requires Plain(x)
  {
    match x
    case Lit(_) => []
    case Get(t, k) => [(t, k)]
    case Add(a, b) => ReadsOf(a, data) + ReadsOf(b, data)
    case If(c, a, b) => ReadsOf(c, data) + (if EvalPure(c, data) != 0 then ReadsOf(a, data) else ReadsOf(b, data))
  }

  // ---------------------------------------------------------------------------
  // The runtime: module-level state of reactive.js

  class Runtime {
    var data: Data
    var bucket: Bucket
    /** The registry of effect closures with their options. */
    var effects: seq<Effect>
    /** `effectFn.deps` per effect. */
    var deps: seq<seq<Dep>>
    var effectStack: seq<EffectId>
    var activeEffect: Option<EffectId>
    /** The closure state of each computed, keyed by its internal effect. */
    var computeds: map<EffectId, ComputedState>
    var jobQueue: seq<EffectId>
    var isFlushing: bool
    /** Set when the fuel bound stopped a run (the source would recurse until the stack overflows). */
    var exhausted: bool

    ghost predicate Valid()
      reads this
    {
      StoreOk() && StackOk() && QueueOk() && ComputedOk()
    }

    /** Every Set membership is recorded in its effect's `deps`, and no Set holds an effect twice. */
    ghost predicate StoreOk()
      reads this`bucket, this`deps, this`effects
    {
      |deps| == |effects| && BucketOk(bucket, deps) && SetsNoDup(bucket)
    }

    /** `activeEffect` is the top of `effectStack`, which holds registered effects. */
    ghost predicate StackOk()
      reads this`effectStack, this`activeEffect, this`effects
    {
      && (forall i | 0 <= i < |effectStack| :: effectStack[i] < |effects|)
      && activeEffect == Top(effectStack)
    }

    /** `jobQueue` is a Set of registered effects. */
    ghost predicate QueueOk()
      reads this`jobQueue, this`effects
    {
      NoDup(jobQueue) && forall e | e in jobQueue :: e < |effects|
    }

    /** Every computed has its effect, and the effect of every computed has its closure state. */
    ghost predicate ComputedOk()
      reads this`computeds, this`effects
    {
      && (forall c | c in computeds :: c < |effects|)
      && (forall c | 0 <= c < |effects| && effects[c].options.scheduler == MarkDirty :: c in computeds)
    }

    /** The part of the state a notification can change. */
    function State(): (r: Reacted)
      reads this
    {
      Reacted(bucket, deps, computeds, jobQueue, isFlushing)
    }

    /** What no operation other than creating an effect changes. */
    twostate predicate Kept()
      reads this
    {
      && effects == old(effects)
      && effectStack == old(effectStack)
      && activeEffect == old(activeEffect)
      && IsPrefix(old(jobQueue), jobQueue)
    }

    /** Nothing but the store and the `deps` lists changed. */
    twostate predicate Quiet()
      reads this
    {
      && data == old(data) && computeds == old(computeds)
      && jobQueue == old(jobQueue) && isFlushing == old(isFlushing) && exhausted == old(exhausted)
    }

    /** The store and `deps` are as if the active effect (if any) had tracked rs. */
    twostate predicate Tracked(new rs: seq<Dep>)
      reads this
    {
      && (activeEffect.None? ==> bucket == old(bucket) && deps == old(deps))
      && (activeEffect.Some? && activeEffect.value < |old(deps)| ==>
            && bucket == AddAll(old(bucket), activeEffect.value, rs)
            && deps == old(deps)[activeEffect.value := old(deps)[activeEffect.value] + rs])
    }

    constructor (initial: Data)
      ensures Valid()
      ensures data == initial && bucket == map[] && effects == [] && deps == []
      ensures effectStack == [] && activeEffect == None && computeds == map[]
      ensures jobQueue == [] && !isFlushing && !exhausted
    {
      data := initial;
      bucket := map[];
      effects := [];
      deps := [];
      effectStack := [];
      activeEffect := None;
      computeds := map[];
      jobQueue := [];
      isFlushing := false;
      exhausted := false;
    }

    /** `track` (reactive.js:17-31). */
    method Track(t: Target, k: Key)
      requires Valid()
      modifies this`bucket, this`deps
      ensures Valid()
      ensures Tracked([(t, k)])
    {
      if activeEffect.None? {
        return;
      }
      var e := activeEffect.value;
      assert effectStack[|effectStack| - 1] == e;
      TrackKeepsOk(bucket, deps, t, k, e);
      AddSubFacts(bucket, t, k, e);
      AddAllAppend(bucket, e, [(t, k)], []);
      bucket := AddSub(bucket, t, k, e);
      deps := deps[e := deps[e] + [(t, k)]];
    }

    /** The proxy's get trap (reactive.js:6-9). */
    method GetProp(t: Target, k: Key) returns (v: int)
      requires Valid()
      modifies this`bucket, this`deps
      ensures Valid() && v == Read(data, t, k)
      ensures Tracked([(t, k)])
    {
      Track(t, k);
      v := Read(data, t, k);
    }

    /** `cleanup` (reactive.js:92-98). */
    method Cleanup(e: EffectId)
      requires Valid() && e < |effects|
      modifies this`bucket, this`deps
      ensures Valid()
      ensures bucket == DropAll(old(bucket), e, old(deps[e])) && deps == old(deps)[e := []]
    {
      var ds := deps[e];
      var i := 0;
      while i < |ds|
        invariant 0 <= i <= |ds|
        invariant bucket == DropAll(old(bucket), e, ds[..i])
        invariant deps == old(deps)
      {
        assert ds[..i + 1][..i] == ds[..i];
        bucket := DropSub(bucket, ds[i], e);
        i := i + 1;
      }
      assert ds[..|ds|] == ds;
      CleanupKeepsOk(old(bucket), old(deps), e);
      DropAllNoDup(old(bucket), e, ds);
      deps := deps[e := []];
    }

    /** `flushJob` (reactive.js:58-67) up to the point where it registers the microtask. */
    method FlushJob()
      modifies this`isFlushing
      ensures isFlushing
    {
      if isFlushing {
        return;
      }
      isFlushing := true;
    }

    /**
     * The runner `effectFn` (reactive.js:73-81): cleanup, push, run the body,
     * pop and restore the active effect to the new stack top.
     */
    method Run(e: EffectId, fuel: nat) returns (res: int)
      requires Valid() && e < |effects|
      modifies this
      ensures Valid() && Kept()
      ensures fuel == 0 ==> exhausted && bucket == old(bucket) && deps == old(deps) && data == old(data)
      ensures fuel > 0 && Plain(effects[e].body) ==>
        && res == EvalPure(effects[e].body, old(data))
        && Quiet()
        && deps == old(deps)[e := ReadsOf(effects[e].body, old(data))]
        && bucket == Rerun(old(bucket), old(deps), e, ReadsOf(effects[e].body, old(data)))
      decreases fuel, 1
    {
      if fuel == 0 {
        exhausted := true;
        return 0;
      }
      Cleanup(e);
      ghost var cleaned := deps;
      Enter(e);
      var body := effects[e].body;
      res := Eval(body, fuel - 1);
      if Plain(body) {
        NilAppend(cleaned[e], ReadsOf(body, old(data)));
      }
      PushPop(old(effectStack), e);
      Leave();
    }

    /** `activeEffect = effectFn; effectStack.push(effectFn)` (reactive.js:75-76). */
    method Enter(e: EffectId)
      requires Valid() && e < |effects|
      modifies this`effectStack, this`activeEffect
      ensures Valid() && effectStack == old(effectStack) + [e] && activeEffect == Some(e)
    {
      activeEffect := Some(e);
      effectStack := effectStack + [e];
    }

    /** `effectStack.pop(); activeEffect = effectStack[effectStack.length - 1]` (reactive.js:78-79). */
    method Leave()
      requires Valid() && effectStack != []
      modifies this`effectStack, this`activeEffect
      ensures Valid() && effectStack == old(effectStack)[..|old(effectStack)| - 1] && activeEffect == Top(effectStack)
    {
      effectStack := effectStack[..|effectStack| - 1];
      activeEffect := Top(effectStack);
    }

    /**
     * Evaluating a body that only reads: every read goes through the get trap
     * and is tracked to the active effect, nothing else changes.
     */
    method EvalPlain(x: Expr) returns (v: int)
      requires Valid() && Plain(x)
      modifies this`bucket, this`deps
      ensures Valid()
      ensures v == EvalPure(x, data) && Tracked(ReadsOf(x, data))
      decreases Size(x), 1
    {
      match x
      case Lit(n) =>
        v := n;
        if activeEffect.Some? {
          assert deps[activeEffect.value] + [] == deps[activeEffect.value];
        }
      case Get(t, k) =>
        v := GetProp(t, k);
      case Add(a, b) =>
        v := EvalPlainAdd(a, b);
      case If(c, a, b) =>
        v := EvalPlainIf(c, a, b);
    }

    /** The `Add` case of `EvalPlain`: the reads of both operands, in order. */
    method EvalPlainAdd(a: Expr, b: Expr) returns (v: int)
      requires Valid() && Plain(a) && Plain(b)
      modifies this`bucket, this`deps
      ensures Valid()
      ensures v == EvalPure(Add(a, b), data) && Tracked(ReadsOf(Add(a, b), data))
      decreases Size(Add(a, b)), 0
    {
      ghost var b0, d0 := bucket, deps;
      var va := EvalPlain(a);
      var vb := EvalPlain(b);
      v := va + vb;
      if activeEffect.Some? {
        var e := activeEffect.value;
        AddAllAppend(b0, e, ReadsOf(a, data), ReadsOf(b, data));
        Assoc3(d0[e], ReadsOf(a, data), ReadsOf(b, data));
      }
    }

    /** The `If` case of `EvalPlain`: the condition's reads, then the taken branch's. */
    method EvalPlainIf(c: Expr, a: Expr, b: Expr) returns (v: int)
      requires Valid() && Plain(c) && Plain(a) && Plain(b)
      modifies this`bucket, this`deps
      ensures Valid()
      ensures v == EvalPure(If(c, a, b), data) && Tracked(ReadsOf(If(c, a, b), data))
      decreases Size(If(c, a, b)), 0
    {
      ghost var b0, d0 := bucket, deps;
      var vc := EvalPlain(c);
      var taken := if vc != 0 then a else b;
      v := EvalPlain(taken);
      if activeEffect.Some? {
        var e := activeEffect.value;
        AddAllAppend(b0, e, ReadsOf(c, data), ReadsOf(taken, data));
        Assoc3(d0[e], ReadsOf(c, data), ReadsOf(taken, data));
      }
    }

    /**
     * Evaluating any body with the proxy's traps: reads are tracked, writes
     * go through the set trap, `.value` reads go through the computed getter.
     * A `ValueOf` naming no computed (which no JS program can write) reads 0.
     * On a plain body it does what `EvalPlain` does.
     */
    method Eval(x: Expr, fuel: nat) returns (v: int)
      requires Valid()
      modifies this
      ensures Valid() && Kept()
      ensures Plain(x) ==> v == EvalPure(x, old(data)) && Quiet() && Tracked(ReadsOf(x, old(data)))
      decreases fuel, Size(x) + 4
    {
      if Plain(x) {
        v := EvalPlain(x);
        return;
      }
      // `Lit` and `Get` are plain, so they were handled above.
      match x
      case Add(a, b) =>
        var va := Eval(a, fuel);
        var vb := Eval(b, fuel);
        v := va + vb;
      case If(c, a, b) =>
        var vc := Eval(c, fuel);
        if vc != 0 {
          v := Eval(a, fuel);
        } else {
          v := Eval(b, fuel);
        }
      case Put(t, k, ve, rest) =>
        var w := Eval(ve, fuel);
        var _ := SetProp(t, k, w, fuel);
        v := Eval(rest, fuel);
      case ValueOf(c) =>
        if c in computeds {
          v := ComputedValue(c, fuel);
        } else {
          v := 0;
        }
    }

    /** One step of `effectsToRun.forEach` (reactive.js:46-52): call the scheduler, or run the effect. */
    method Notify(f: EffectId, fuel: nat) returns (reaction: Reaction)
      requires Valid() && f < |effects|
      modifies this
      ensures Valid() && Kept()
      ensures reaction == ReactionTo(effects, f)
      ensures ReadOnlyRun(effects, f) && (fuel > 0 || SchedulerOf(effects, f) != Immediate) ==>
        data == old(data) && exhausted == old(exhausted) && State() == React(old(State()), effects, old(data), f)
      decreases fuel, 2
    {
      reaction := ReactionTo(effects, f);
      var sched := effects[f].options.scheduler;
      if sched == Immediate {
        var _ := Run(f, fuel);
      } else if sched == MarkDirty {
        computeds := computeds[f := computeds[f].(isDirty := true)];
      } else {
        InsertFacts(jobQueue, f);
        jobQueue := Insert(jobQueue, f);
        FlushJob();
      }
    }

    /**
     * `trigger` (reactive.js:33-53): snapshot the subscribers, then run each
     * effect or hand it to its scheduler, in Set order.
     */
    method Trigger(t: Target, k: Key, fuel: nat) returns (reactions: seq<Reaction>)
      requires Valid()
      modifies this
      ensures Valid() && Kept()
      ensures var snap := ToRun(old(bucket), t, k, old(activeEffect));
        && |reactions| == |snap|
        && forall i | 0 <= i < |snap| :: snap[i] < |effects| && reactions[i] == ReactionTo(effects, snap[i])
      ensures var snap := ToRun(old(bucket), t, k, old(activeEffect));
        && NoDup(snap)
        && forall f: EffectId :: f in snap <==> Subscribed(old(bucket), t, k, f) && old(activeEffect) != Some(f)
      ensures var snap := ToRun(old(bucket), t, k, old(activeEffect));
        RunsReadOnly(effects, snap) && (fuel > 0 || NoneImmediate(effects, snap)) ==>
          data == old(data) && exhausted == old(exhausted) && State() == ReactAll(old(State()), effects, old(data), snap)
      decreases fuel, 3
    {
      var snap := ToRun(bucket, t, k, activeEffect);
      ToRunFacts(bucket, t, k, activeEffect);
      forall j | 0 <= j < |snap|
        ensures snap[j] < |effects|
      {
        assert snap[j] in snap;
      }
      reactions := [];
      var i := 0;
      while i < |snap|
        invariant 0 <= i <= |snap|
        invariant Valid() && Kept()
        invariant |reactions| == i && forall j | 0 <= j < i :: reactions[j] == ReactionTo(effects, snap[j])
        invariant RunsReadOnly(effects, snap) && (fuel > 0 || NoneImmediate(effects, snap)) ==>
          data == old(data) && exhausted == old(exhausted) && State() == ReactAll(old(State()), effects, old(data), snap[..i])
      {
        if RunsReadOnly(effects, snap) && (fuel > 0 || NoneImmediate(effects, snap)) {
          ReactAllStep(old(State()), effects, old(data), snap, i);
        }
        ghost var q := jobQueue;
        var r := Notify(snap[i], fuel);
        PrefixTrans(old(jobQueue), q, jobQueue);
        reactions := reactions + [r];
        i := i + 1;
      }
      assert snap[..|snap|] == snap;
    }

    /** The proxy's set trap (reactive.js:10-14): write unconditionally, then trigger. */
    method SetProp(t: Target, k: Key, value: int, fuel: nat) returns (reactions: seq<Reaction>)
      requires Valid()
      modifies this
      ensures Valid() && Kept()
      ensures var snap := ToRun(old(bucket), t, k, old(activeEffect));
        && |reactions| == |snap|
        && forall i | 0 <= i < |snap| :: snap[i] < |effects| && reactions[i] == ReactionTo(effects, snap[i])
      ensures var snap := ToRun(old(bucket), t, k, old(activeEffect));
        && NoDup(snap)
        && forall f: EffectId :: f in snap <==> Subscribed(old(bucket), t, k, f) && old(activeEffect) != Some(f)
      ensures var snap := ToRun(old(bucket), t, k, old(activeEffect));
        RunsReadOnly(effects, snap) && (fuel > 0 || NoneImmediate(effects, snap)) ==>
          && data == Write(old(data), t, k, value) && exhausted == old(exhausted)
          && State() == ReactAll(old(State()), effects, Write(old(data), t, k, value), snap)
      decreases fuel, 4
    {
      data := Write(data, t, k, value);
      reactions := Trigger(t, k, fuel);
    }

    /** The `.value` getter of a computed (reactive.js:111-117). */
    method ComputedValue(c: EffectId, fuel: nat) returns (v: int)
      requires Valid() && c in computeds
      modifies this
      ensures Valid() && Kept()
      ensures !old(computeds[c].isDirty) ==>
        v == old(computeds[c].value) && Quiet() && bucket == old(bucket) && deps == old(deps)
      ensures old(computeds[c].isDirty) && fuel > 0 && Plain(effects[c].body) ==>
        && v == EvalPure(effects[c].body, old(data))
        && computeds == old(computeds)[c := ComputedState(false, v)]
        && data == old(data) && jobQueue == old(jobQueue) && isFlushing == old(isFlushing) && exhausted == old(exhausted)
        && deps == old(deps)[c := ReadsOf(effects[c].body, old(data))]
        && bucket == Rerun(old(bucket), old(deps), c, ReadsOf(effects[c].body, old(data)))
      decreases fuel, 2
    {
      if computeds[c].isDirty {
        var r := Run(c, fuel);
        computeds := computeds[c := ComputedState(false, r)];
      }
      v := computeds[c].value;
    }

    /**
     * The microtask `flushJob` registers (reactive.js:62-66): run every job in
     * the live queue, including jobs added meanwhile, then clear the flag.
     * The queue itself is never emptied.
     */
    method Flush(fuel: nat) returns (ran: seq<EffectId>)
      requires Valid()
      modifies this
      ensures Valid() && !isFlushing
      ensures effects == old(effects) && effectStack == old(effectStack) && activeEffect == old(activeEffect)
      ensures IsPrefix(old(jobQueue), jobQueue)
      ensures !old(isFlushing) ==> ran == [] && jobQueue == old(jobQueue) && data == old(data) && bucket == old(bucket)
      ensures old(isFlushing) ==> ran == jobQueue
    {
      if !isFlushing {
        return [];
      }
      ran := [];
      var i := 0;
      while i < |jobQueue|
        invariant Valid() && Kept()
        invariant 0 <= i <= |jobQueue|
        invariant ran == jobQueue[..i]
        decreases |effects| - i
      {
        NoDupBounded(jobQueue, |effects|);
        var job := jobQueue[i];
        assert job in jobQueue;
        ghost var before := jobQueue;
        var _ := Run(job, fuel);
        PrefixTrans(old(jobQueue), before, jobQueue);
        assert jobQueue[..i] == before[..i];
        assert jobQueue[..i + 1] == jobQueue[..i] + [job];
        ran := ran + [job];
        i := i + 1;
      }
      assert jobQueue[..|jobQueue|] == jobQueue;
      isFlushing := false;
    }

    /** `effect(fn, options)` (reactive.js:72-90). */
    method MakeEffect(body: Expr, options: Options, fuel: nat) returns (e: EffectId)
      requires Valid()
      requires options.scheduler != MarkDirty
      modifies this
      ensures Valid()
      ensures e == old(|effects|) && effects == old(effects) + [Effect(body, options)]
      ensures effectStack == old(effectStack) && activeEffect == old(activeEffect)
      ensures options.lazy ==>
        && data == old(data) && bucket == old(bucket) && deps == old(deps) + [[]]
        && computeds == old(computeds) && jobQueue == old(jobQueue) && isFlushing == old(isFlushing)
      ensures !options.lazy && fuel > 0 && Plain(body) ==>
        && data == old(data) && computeds == old(computeds) && jobQueue == old(jobQueue)
        && isFlushing == old(isFlushing) && exhausted == old(exhausted)
        && deps == old(deps) + [ReadsOf(body, old(data))]
        && bucket == AddAll(old(bucket), e, ReadsOf(body, old(data)))
    {
      effects := effects + [Effect(body, options)];
      deps := deps + [[]];
      e := |effects| - 1;
      assert forall x | 0 <= x < |old(effects)| :: effects[x] == old(effects)[x];
      if !options.lazy {
        ghost var d0 := deps;
        var _ := Run(e, fuel);
        if fuel > 0 && Plain(body) {
          assert d0[e := ReadsOf(body, old(data))] == old(deps) + [ReadsOf(body, old(data))];
        }
      }
    }

    /** `computed(getter)` (reactive.js:100-121): a lazy effect whose scheduler only marks it dirty. */
    method MakeComputed(getter: Expr) returns (c: EffectId)
      requires Valid()
      modifies this
      ensures Valid()
      ensures c == old(|effects|) && effects == old(effects) + [Effect(getter, Options(true, MarkDirty))]
      ensures computeds == old(computeds)[c := ComputedState(true, 0)]
      ensures data == old(data) && bucket == old(bucket) && deps == old(deps) + [[]]
      ensures effectStack == old(effectStack) && activeEffect == old(activeEffect) && jobQueue == old(jobQueue)
    {
      effects := effects + [Effect(getter, Options(true, MarkDirty))];
      deps := deps + [[]];
      c := |effects| - 1;
      computeds := computeds[c := ComputedState(true, 0)];
      assert forall x | 0 <= x < |old(effects)| :: effects[x] == old(effects)[x];
    }
  }
}
