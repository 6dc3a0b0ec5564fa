/** Resolving a blob key to its text, plain and behind a bounded LRU (src/shared/storage/hydrator.py). */
module Hydrator {
  import opened Text
  import opened Lru

  /** What one `BlobStore.get` does. */
  datatype Fetch = Found(text: string) | Absent | Raised

  /** What `hydrate` hands back: text, or the private sentinel that `CachingHydrator` passes as the fallback. */
  datatype Hydrated = Got(text: string) | Miss

  type BlobStore = string -> Fetch

  /** A caller's request: the key may be missing, and the fallback may be any text. */
  datatype Request = Request(key: Option<string>, fallback: string)

  /** `BlobHydrator.hydrate`. */
  function Hydrate(store: BlobStore, key: Option<string>, fallback: Hydrated): Hydrated {
    if key.None? || key.value == "" then fallback
    else match store(key.value)
      case Found(t) => if t != "" then Got(t) else fallback
      case Absent => fallback
      case Raised => fallback
  }

  predicate Resolves(store: BlobStore, key: string) {
    key != "" && Hydrate(store, Some(key), Miss) != Miss
  }

  /** The plain answer to a request. */
  function Plain(store: BlobStore, r: Request): string {
    match Hydrate(store, r.key, Got(r.fallback)) case Got(t) => t case Miss => r.fallback
  }

  /** The keys of a run of requests that reach the cache at all: those that resolve. */
  function Accesses(store: BlobStore, rs: seq<Request>): seq<string> {
    if rs == [] then []
    else
      var r := rs[|rs| - 1];
      Accesses(store, rs[..|rs| - 1]) +
      if r.key.Some? && Resolves(store, r.key.value) then [r.key.value] else []
  }

  function Capacity(maxEntries: int): nat {
    if maxEntries < 0 then 0 else maxEntries
  }

  /** A cache whose order and mapping list the same keys, each with the text the plain hydrator finds. */
  ghost predicate Consistent(store: BlobStore, order: seq<string>, texts: map<string, string>) {
    && NoDup(order)
    && (forall k :: k in order <==> k in texts)
    && (forall k | k in texts :: Resolves(store, k) && Got(texts[k]) == Hydrate(store, Some(k), Miss))
  }

  lemma HitKeeps(store: BlobStore, order: seq<string>, texts: map<string, string>, key: string, cap: nat)
    requires Consistent(store, order, texts) && |order| <= cap && key in texts
    ensures Consistent(store, Touch(order, key), texts) && |Touch(order, key)| <= cap
    ensures Access(order, key, cap) == Touch(order, key)
  {
    TouchNoDup(order, key);
  }

  lemma MissKeeps(store: BlobStore, order: seq<string>, texts: map<string, string>, key: string, text: string)
    requires Consistent(store, order, texts) && key !in texts
    requires Resolves(store, key) && Hydrate(store, Some(key), Miss) == Got(text)
    ensures Touch(order, key) == order + [key]
    ensures Consistent(store, Touch(order, key), texts[key := text])
  {
    TouchNoDup(order, key);
    RemoveAbsent(order, key);
  }

  lemma EvictKeeps(store: BlobStore, order: seq<string>, texts: map<string, string>)
    requires Consistent(store, order, texts) && order != []
    ensures Consistent(store, order[1..], texts - {order[0]})
  {
    DropOldest(order);
  }

  class CachingHydrator {
    const store: BlobStore
    const maxEntries: int
    /** The `OrderedDict`: its keys in order, and its mapping. */
    var order: seq<string>
    var texts: map<string, string>
    /** How often the wrapped hydrator was asked. */
    var innerCalls: nat

    ghost predicate Valid()
      reads this
    {
      Consistent(store, order, texts) && |order| <= Capacity(maxEntries)
    }

    constructor (store: BlobStore, maxEntries: int)
      ensures Valid() && order == [] && innerCalls == 0
      ensures this.store == store && this.maxEntries == maxEntries
    {
      this.store, this.maxEntries := store, maxEntries;
      order, texts, innerCalls := [], map[], 0;
    }

    /** Always the plain answer; the order moves as one LRU access, and only for keys that resolve. */
    method HydrateCached(r: Request) returns (text: string)
      requires Valid()
      modifies this
      ensures Valid()
      ensures text == Plain(store, r)
      ensures order == if r.key.Some? && Resolves(store, r.key.value)
                       then Access(old(order), r.key.value, Capacity(maxEntries)) else old(order)
      ensures innerCalls ==
              old(innerCalls) + if r.key.None? || r.key.value == "" || r.key.value in old(order) then 0 else 1
    {
      if r.key.None? || r.key.value == "" {
        return r.fallback;
      }
      var key := r.key.value;
      if key in texts {
        HitKeeps(store, order, texts, key, Capacity(maxEntries));
        order := Touch(order, key);
        return texts[key];
      }
      var value := Hydrate(store, Some(key), Miss);
      innerCalls := innerCalls + 1;
      if value == Miss {
        return r.fallback;
      }
      MissKeeps(store, order, texts, key, value.text);
      texts := texts[key := value.text];
      order := Touch(order, key);
      if |order| > maxEntries {
        EvictKeeps(store, order, texts);
        texts := texts - {order[0]};
        order := order[1..];
      }
      return value.text;
    }

    /** `hydrate_batch` answers as the plain hydrator's batch does, one access per entry in order. */
    method HydrateBatch(entries: seq<(string, Option<string>)>) returns (answers: map<string, string>)
      requires Valid()
      modifies this
      ensures Valid()
      ensures answers == PlainBatch(store, entries)
      ensures order == Replay(store, BatchRequests(entries), old(order), Capacity(maxEntries))
    {
      answers := map[];
      for n := 0 to |entries|
        invariant Valid()
        invariant answers == PlainBatch(store, entries[..n])
        invariant order == Replay(store, BatchRequests(entries[..n]), old(order), Capacity(maxEntries))
      {
        var text := HydrateCached(Request(entries[n].1, ""));
        answers := answers[entries[n].0 := text];
        assert entries[..n + 1][..n] == entries[..n];
        assert BatchRequests(entries[..n + 1]) == BatchRequests(entries[..n]) + [Request(entries[n].1, "")];
      }
      assert entries[..|entries|] == entries;
    }
  }

  /** `BlobHydrator.hydrate_batch`. */
  function PlainBatch(store: BlobStore, entries: seq<(string, Option<string>)>): map<string, string> {
    if entries == [] then map[]
    else
      var (name, key) := entries[|entries| - 1];
      PlainBatch(store, entries[..|entries| - 1])[name := Plain(store, Request(key, ""))]
  }

  function BatchRequests(entries: seq<(string, Option<string>)>): seq<Request> {
    if entries == [] then []
    else BatchRequests(entries[..|entries| - 1]) + [Request(entries[|entries| - 1].1, "")]
  }

  /** The order after a run of requests, starting from `order`: what repeated `HydrateCached` calls produce. */
  function Replay(store: BlobStore, rs: seq<Request>, order: seq<string>, cap: nat): seq<string> {
    if rs == [] then order
    else
      var before := Replay(store, rs[..|rs| - 1], order, cap);
      var r := rs[|rs| - 1];
      if r.key.Some? && Resolves(store, r.key.value) then Access(before, r.key.value, cap) else before
  }

  lemma {:induction false} ReplayIsBounded(store: BlobStore, rs: seq<Request>, cap: nat)
    ensures Replay(store, rs, [], cap) == Bounded(Accesses(store, rs), cap)
  {
    if rs != [] {
      ReplayIsBounded(store, rs[..|rs| - 1], cap);
      var r := rs[|rs| - 1];
      if r.key.Some? && Resolves(store, r.key.value) {
        var h := Accesses(store, rs);
        assert h == Accesses(store, rs[..|rs| - 1]) + [r.key.value];
        assert h[..|h| - 1] == Accesses(store, rs[..|rs| - 1]);
      } else {
        assert Accesses(store, rs) == Accesses(store, rs[..|rs| - 1]);
      }
    }
  }

  /** For every run of requests, a cache of any capacity holds exactly the end of the unbounded recency list. */
  lemma CacheIsRecencySuffix(store: BlobStore, rs: seq<Request>, maxEntries: int)
    ensures Replay(store, rs, [], Capacity(maxEntries)) == Last(Recency(Accesses(store, rs)), Capacity(maxEntries))
  {
    ReplayIsBounded(store, rs, Capacity(maxEntries));
    StackProperty(Accesses(store, rs), Capacity(maxEntries));
  }

  /** A hit at one capacity is a hit at every larger one. */
  lemma HitsGrowWithCapacity(store: BlobStore, rs: seq<Request>, small: int, large: int, key: string)
    requires small <= large && key in Replay(store, rs, [], Capacity(small))
    ensures key in Replay(store, rs, [], Capacity(large))
  {
    ReplayIsBounded(store, rs, Capacity(small));
    ReplayIsBounded(store, rs, Capacity(large));
    Inclusion(Accesses(store, rs), Capacity(small), Capacity(large), key);
  }

  /** A request hits exactly when its key resolved before and fewer than `maxEntries` other keys resolved since. */
  lemma HitCondition(store: BlobStore, rs: seq<Request>, maxEntries: int, key: string)
    ensures key in Replay(store, rs, [], Capacity(maxEntries)) <==>
            key in Accesses(store, rs) && |Since(Accesses(store, rs), key)| < maxEntries
  {
    ReplayIsBounded(store, rs, Capacity(maxEntries));
    HitIffReuseDistance(Accesses(store, rs), Capacity(maxEntries), key);
  }

  /** What a request is answered with: the text found under its key, or else, or if that is empty, the fallback. */
  lemma PlainIs(store: BlobStore, key: string, fallback: string)
    ensures Plain(store, Request(None, fallback)) == Plain(store, Request(Some(""), fallback)) == fallback
    ensures forall text :: key != "" && text != "" && store(key) == Found(text) ==>
              Plain(store, Request(Some(key), fallback)) == text
    ensures store(key) == Found("") || store(key) == Absent || store(key) == Raised ==>
              Plain(store, Request(Some(key), fallback)) == fallback
    ensures Resolves(store, key) <==> key != "" && exists text :: text != "" && store(key) == Found(text)
  {
    if store(key).Found? {
      assert store(key) == Found(store(key).text);
    }
  }

  /** A batch, name by name: each gets the text found under its key, or the empty text. */
  lemma {:induction false} BatchIs(store: BlobStore, entries: seq<(string, Option<string>)>, i: nat)
    requires i < |entries| && forall j, k | 0 <= j < k < |entries| :: entries[j].0 != entries[k].0
    ensures var (name, key) := entries[i];
            && name in PlainBatch(store, entries)
            && PlainBatch(store, entries)[name] ==
               if key.Some? && key.value != "" && store(key.value).Found? then store(key.value).text else ""
  {
    var init := entries[..|entries| - 1];
    if i < |init| {
      BatchIs(store, init, i);
      assert init[i] == entries[i];
    }
  }

  lemma {:induction false} BatchNames(store: BlobStore, entries: seq<(string, Option<string>)>, name: string)
    ensures name in PlainBatch(store, entries) <==> exists i :: 0 <= i < |entries| && entries[i].0 == name
  {
    if entries != [] {
      var init := entries[..|entries| - 1];
      BatchNames(store, init, name);
      assert forall i | 0 <= i < |init| :: init[i] == entries[i];
    }
  }
}
