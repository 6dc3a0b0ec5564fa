/** The last turn of each conversation thread, bounded by an LRU (src/shared/conversation/thread_memory.py). */
module ThreadMemory {
  import opened Text
  import opened Lru

  const MAX_THREADS: nat := 5000

  /** What `extract_critical_from_result` keeps of a turn; its content is not interpreted here. */
  type Snapshot = string

  /** The three operations on the store. A `Save` carries the extracted snapshot, absent when nothing is worth keeping.
      */
  datatype Op =
    | Get(thread: string)
    | Save(thread: string, snapshot: Option<Snapshot>)
    | Clear(thread: string)

  /** The `OrderedDict`: its keys in order, and its mapping. */
  datatype Store = Store(order: seq<string>, snapshots: map<string, Snapshot>) {
    ghost predicate Valid(cap: nat) {
      NoDup(order) && |order| <= cap && (forall k :: k in order <==> k in snapshots)
    }
  }

  function Lookup(s: Store, thread: string): Option<Snapshot> {
    if thread != "" && thread in s.snapshots then Some(s.snapshots[thread]) else None
  }

  /** What one operation does to a store of capacity `cap`. */
  function Step(s: Store, op: Op, cap: nat): Store {
    match op
    case Get(t) => if t != "" && t in s.snapshots then s.(order := Touch(s.order, t)) else s
    case Save(t, snap) =>
      if t == "" || snap.None? then s
      else
        var order, snapshots := Touch(s.order, t), s.snapshots[t := snap.value];
        if |order| > cap then Store(order[1..], snapshots - {order[0]}) else Store(order, snapshots)
    case Clear(t) => if t != "" then Store(Remove(s.order, t), s.snapshots - {t}) else s
  }

  function Run(s: Store, ops: seq<Op>, cap: nat): Store
    decreases |ops|
  {
    if ops == [] then s else Run(Step(s, ops[0], cap), ops[1..], cap)
  }

  class ThreadTurns {
    var store: Store

    constructor ()
      ensures store == Store([], map[])
    {
      store := Store([], map[]);
    }

    method GetTurn(thread: string) returns (r: Option<Snapshot>)
      requires store.Valid(MAX_THREADS)
      modifies this
      ensures r == Lookup(old(store), thread)
      ensures store == Step(old(store), Get(thread), MAX_THREADS) && store.Valid(MAX_THREADS)
    {
      if thread == "" {
        return None;
      }
      r := if thread in store.snapshots then Some(store.snapshots[thread]) else None;
      if r.Some? {
        StepValid(store, Get(thread), MAX_THREADS);
        store := store.(order := Touch(store.order, thread));
      }
    }

    method SaveTurn(thread: string, snapshot: Option<Snapshot>)
      requires store.Valid(MAX_THREADS)
      modifies this
      ensures store == Step(old(store), Save(thread, snapshot), MAX_THREADS) && store.Valid(MAX_THREADS)
    {
      if thread == "" {
        return;
      }
      if snapshot.Some? {
        StepValid(store, Save(thread, snapshot), MAX_THREADS);
        TouchNoDup(store.order, thread);
        store := Store(Touch(store.order, thread), store.snapshots[thread := snapshot.value]);
        ghost var full := store;
        while |store.order| > MAX_THREADS
          invariant |full.order| <= MAX_THREADS + 1
          invariant store == full || store == Store(full.order[1..], full.snapshots - {full.order[0]})
          invariant store != full ==> |full.order| == MAX_THREADS + 1
        {
          store := Store(store.order[1..], store.snapshots - {store.order[0]});
        }
      }
    }

    method ClearTurn(thread: string)
      requires store.Valid(MAX_THREADS)
      modifies this
      ensures store == Step(old(store), Clear(thread), MAX_THREADS) && store.Valid(MAX_THREADS)
    {
      StepValid(store, Clear(thread), MAX_THREADS);
      if thread != "" {
        store := Store(Remove(store.order, thread), store.snapshots - {thread});
      }
    }
  }

  /** Every operation keeps the store an LRU order within its bound. */
  lemma StepValid(s: Store, op: Op, cap: nat)
    requires s.Valid(cap) && cap > 0
    ensures Step(s, op, cap).Valid(cap)
  {
    match op
    case Get(t) => TouchNoDup(s.order, t);
    case Save(t, snap) => SaveValid(s, t, snap, cap);
    case Clear(t) => RemovePresent(s.order, t);
  }

  lemma SaveValid(s: Store, t: string, snap: Option<Snapshot>, cap: nat)
    requires s.Valid(cap) && cap > 0
    ensures Step(s, Save(t, snap), cap).Valid(cap)
  {
    TouchNoDup(s.order, t);
    DropOldest(Touch(s.order, t));
  }

  lemma {:induction false} RunValid(s: Store, ops: seq<Op>, cap: nat)
    requires s.Valid(cap) && cap > 0
    ensures Run(s, ops, cap).Valid(cap)
    decreases |ops|
  {
    if ops != [] {
      StepValid(s, ops[0], cap);
      RunValid(Step(s, ops[0], cap), ops[1..], cap);
    }
  }

  /** The other live threads touched since the last touch of `t`, updated by one operation on `s`. */
  ghost function Others(s: Store, op: Op, t: string, acc: set<string>): set<string> {
    match op
    case Get(u) => if u == "" || u !in s.snapshots then acc else if u == t then {} else acc + {u}
    case Save(u, snap) => if u == "" || snap.None? then acc else if u == t then {} else acc + {u}
    case Clear(u) => if u == "" then acc else acc - {u}
  }

  /** Along the whole run, fewer than `cap` other threads were ever touched since the last touch of `t`. */
  ghost predicate FewOthers(s: Store, ops: seq<Op>, t: string, acc: set<string>, cap: nat)
    decreases |ops|
  {
    ops == [] ||
    (var acc' := Others(s, ops[0], t, acc);
     |acc'| < cap && FewOthers(Step(s, ops[0], cap), ops[1..], t, acc', cap))
  }

  /** No operation of the run clears `t` or stores a new snapshot for it. */
  ghost predicate Undisturbed(ops: seq<Op>, t: string) {
    forall i | 0 <= i < |ops| :: ops[i] != Clear(t) && (ops[i].Save? && ops[i].thread == t ==> ops[i].snapshot.None?)
  }

  /** One operation keeps `t` exactly when the tracked set stays below the bound, and then the set is what is newer than
      `t`. */
  ghost predicate Tracks(s: Store, s': Store, t: string, acc: set<string>, cap: nat)
    requires t in s.snapshots
  {
    && (t in s'.snapshots <==> |acc| < cap)
    && (t in s'.snapshots ==> s'.snapshots[t] == s.snapshots[t] && Elements(After(s'.order, t)) == acc)
  }

  lemma StepTracksOthers(s: Store, op: Op, t: string, cap: nat)
    requires s.Valid(cap) && cap > 0 && t in s.snapshots && Undisturbed([op], t)
    ensures Tracks(s, Step(s, op, cap), t, Others(s, op, t, Elements(After(s.order, t))), cap)
  {
    assert [op][0] == op;
    match op
    case Get(u) => GetTracksOthers(s, u, t, cap);
    case Save(u, snap) =>
      if u != "" && snap.Some? {
        SaveTracksOthers(s, u, snap.value, t, cap);
      } else {
        NewerFewerThan(s.order, t);
      }
    case Clear(u) => ClearTracksOthers(s, u, t, cap);
  }

  lemma NewerFewerThan(q: seq<string>, t: string)
    requires NoDup(q) && t in q
    ensures |Elements(After(q, t))| < |q|
    ensures |Elements(After(q, t))| == |q| - 1 <==> q[0] == t
  {
    SplitAt(q, t);
    ElementCount(After(q, t));
  }

  lemma GetTracksOthers(s: Store, u: string, t: string, cap: nat)
    requires s.Valid(cap) && t in s.snapshots
    ensures Tracks(s, Step(s, Get(u), cap), t, Others(s, Get(u), t, Elements(After(s.order, t))), cap)
  {
    NewerFewerThan(s.order, t);
    if u != "" && u in s.snapshots {
      AfterTouch(s.order, u, t);
      TouchNoDup(s.order, u);
      NewerFewerThan(Touch(s.order, u), t);
    }
  }

  lemma ClearTracksOthers(s: Store, u: string, t: string, cap: nat)
    requires s.Valid(cap) && t in s.snapshots && u != t
    ensures Tracks(s, Step(s, Clear(u), cap), t, Others(s, Clear(u), t, Elements(After(s.order, t))), cap)
  {
    NewerFewerThan(s.order, t);
    if u != "" {
      RemovePresent(s.order, u);
      AfterRemove(s.order, u, t);
      NewerFewerThan(Remove(s.order, u), t);
    }
  }

  /** Saving another thread evicts `t` exactly when `t` is oldest in a full store. */
  lemma SaveTracksOthers(s: Store, u: string, snap: Snapshot, t: string, cap: nat)
    requires s.Valid(cap) && cap > 0 && t in s.snapshots && u != t && u != ""
    ensures Tracks(s, Step(s, Save(u, Some(snap)), cap), t, Elements(After(s.order, t)) + {u}, cap)
  {
    hide Touch, After, NoDup, Elements;
    var q := Touch(s.order, u);
    TouchTracks(s.order, u, t);
    TouchNoDup(s.order, u);
    if |q| > cap && q[0] != t {
      AfterDropOldest(q, t);
    }
  }

  lemma TouchTracks(q: seq<string>, u: string, t: string)
    requires NoDup(q) && t in q && u != t
    ensures Elements(After(Touch(q, u), t)) == Elements(After(q, t)) + {u}
    ensures |Elements(After(q, t)) + {u}| < |Touch(q, u)|
    ensures |Elements(After(q, t)) + {u}| == |Touch(q, u)| - 1 <==> Touch(q, u)[0] == t
  {
    AfterTouch(q, u, t);
    TouchNoDup(q, u);
    NewerFewerThan(Touch(q, u), t);
  }

  lemma AfterDropOldest(q: seq<string>, t: string)
    requires t in q && q[0] != t
    ensures After(q[1..], t) == After(q, t)
  {
  }

  lemma {:induction false} NeverReturns(s: Store, ops: seq<Op>, t: string, cap: nat)
    requires t !in s.snapshots && Undisturbed(ops, t)
    ensures t !in Run(s, ops, cap).snapshots
    decreases |ops|
  {
    if ops != [] {
      assert forall i | 0 <= i < |ops[1..]| :: ops[1..][i] == ops[i + 1];
      NeverReturns(Step(s, ops[0], cap), ops[1..], t, cap);
    }
  }

  lemma {:induction false} Retained(s: Store, ops: seq<Op>, t: string, cap: nat)
    requires s.Valid(cap) && cap > 0 && t != "" && t in s.snapshots && Undisturbed(ops, t)
    ensures Lookup(Run(s, ops, cap), t) ==
            if FewOthers(s, ops, t, Elements(After(s.order, t)), cap) then Some(s.snapshots[t]) else None
    decreases |ops|
  {
    if ops != [] {
      assert forall i | 0 <= i < |ops[1..]| :: ops[1..][i] == ops[i + 1];
      var s' := Step(s, ops[0], cap);
      StepValid(s, ops[0], cap);
      assert Undisturbed([ops[0]], t);
      StepTracksOthers(s, ops[0], t, cap);
      if t in s'.snapshots {
        Retained(s', ops[1..], t, cap);
      } else {
        NeverReturns(s', ops[1..], t, cap);
      }
    }
  }

  /** A saved turn is read back after any undisturbed run exactly when fewer than `MAX_THREADS` other live threads
      were touched, at every point of the run, since the thread itself was last touched; otherwise it is gone. */
  lemma RetentionAfterSave(s: Store, t: string, snap: Snapshot, ops: seq<Op>)
    requires s.Valid(MAX_THREADS) && t != "" && Undisturbed(ops, t)
    ensures var saved := Step(s, Save(t, Some(snap)), MAX_THREADS);
            Lookup(Run(saved, ops, MAX_THREADS), t) ==
            if FewOthers(saved, ops, t, {}, MAX_THREADS) then Some(snap) else None
  {
    var saved := Step(s, Save(t, Some(snap)), MAX_THREADS);
    StepValid(s, Save(t, Some(snap)), MAX_THREADS);
    TouchNoDup(s.order, t);
    RemovePresent(s.order, t);
    AfterLast(Remove(s.order, t), t);
    AfterLast(Remove(s.order, t)[if |Touch(s.order, t)| > MAX_THREADS then 1 else 0..], t);
    Retained(saved, ops, t, MAX_THREADS);
  }

  lemma AfterLast(q: seq<string>, t: string)
    requires t !in q
    ensures After(q + [t], t) == []
  {
    AfterAppend(q, t, [t]);
  }

  /** The other threads that the reads and saves of a run name, live or not. */
  function Named(ops: seq<Op>, t: string): set<string> {
    set i | 0 <= i < |ops| && !ops[i].Clear? && ops[i].thread != t :: ops[i].thread
  }

  lemma {:induction false} NamedBoundsOthers(s: Store, ops: seq<Op>, t: string, acc: set<string>, cap: nat,
                                             all: set<string>)
    requires acc <= all && Named(ops, t) <= all && |all| < cap
    ensures FewOthers(s, ops, t, acc, cap)
    decreases |ops|
  {
    if ops != [] {
      var acc' := Others(s, ops[0], t, acc);
      assert acc' <= all by {
        assert !ops[0].Clear? && ops[0].thread != t ==> ops[0].thread in Named(ops, t);
      }
      SubsetSize(acc', all);
      assert Named(ops[1..], t) <= Named(ops, t) by {
        assert forall i | 0 <= i < |ops[1..]| :: ops[1..][i] == ops[i + 1];
      }
      NamedBoundsOthers(Step(s, ops[0], cap), ops[1..], t, acc', cap, all);
    }
  }

  lemma SubsetSize(a: set<string>, b: set<string>)
    requires a <= b
    ensures |a| <= |b|
  {
    assert b == a + (b - a);
  }

  /** What a caller can tell from the calls alone: with fewer than `MAX_THREADS` other threads read or saved since, the
      turn is still there. */
  lemma SurvivesFewNamed(s: Store, t: string, snap: Snapshot, ops: seq<Op>)
    requires s.Valid(MAX_THREADS) && t != "" && Undisturbed(ops, t) && |Named(ops, t)| < MAX_THREADS
    ensures Lookup(Run(Step(s, Save(t, Some(snap)), MAX_THREADS), ops, MAX_THREADS), t) == Some(snap)
  {
    RetentionAfterSave(s, t, snap, ops);
    NamedBoundsOthers(Step(s, Save(t, Some(snap)), MAX_THREADS), ops, t, {}, MAX_THREADS, Named(ops, t));
  }

  /** A cleared thread reads as absent, whatever its place in the order, and no other thread is disturbed. */
  lemma ClearForgets(s: Store, t: string, cap: nat)
    requires s.Valid(cap)
    ensures Lookup(Step(s, Clear(t), cap), t) == None
    ensures forall u | u != t :: Lookup(Step(s, Clear(t), cap), u) == Lookup(s, u)
    ensures t == "" ==> Step(s, Clear(t), cap) == s
  {
  }

  /** A saved turn is what is read next, in place of any earlier one; and saving disturbs no other thread but the one
      that a full store forgets, which is its oldest. */
  lemma SaveRemembers(s: Store, t: string, snap: Snapshot, cap: nat)
    requires s.Valid(cap) && cap > 0 && t != ""
    ensures var s' := Step(s, Save(t, Some(snap)), cap);
            && Lookup(s', t) == Some(snap)
            && forall u | u != t ::
                 Lookup(s', u) == if |s.order| == cap && t !in s.order && u == s.order[0] then None else Lookup(s, u)
  {
    TouchNoDup(s.order, t);
    if |Touch(s.order, t)| > cap {
      RemoveAbsent(s.order, t);
      assert Touch(s.order, t)[0] == s.order[0];
    }
  }

  /** What changes nothing: reading an absent thread, saving no snapshot, and any call without a thread. Reading a
      present one changes the order alone. */
  lemma NoEffect(s: Store, t: string, snap: Option<Snapshot>, cap: nat)
    ensures Lookup(s, t).None? ==> Step(s, Get(t), cap) == s
    ensures Step(s, Get(t), cap).snapshots == s.snapshots
    ensures Step(s, Save(t, None), cap) == s == Step(s, Save("", snap), cap) == Step(s, Get(""), cap) ==
            Step(s, Clear(""), cap)
  {
  }
}
