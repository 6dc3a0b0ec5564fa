/** Key orders of an `OrderedDict` used as an LRU: oldest key first, most recently used key last. */
module Lru {
  import opened Text

  /** The order without `k`. */
  function Remove(q: seq<string>, k: string): seq<string> {
    if q == [] then [] else if q[0] == k then q[1..] else [q[0]] + Remove(q[1..], k)
  }

  lemma {:induction false} RemoveAbsent(q: seq<string>, k: string)
    requires k !in q
    ensures Remove(q, k) == q
  {
    if q != [] {
      assert q == [q[0]] + q[1..];
      RemoveAbsent(q[1..], k);
    }
  }

  lemma {:induction false} RemovePresent(q: seq<string>, k: string)
    requires NoDup(q)
    ensures k !in Remove(q, k) && NoDup(Remove(q, k))
    ensures forall x :: x in Remove(q, k) <==> x in q && x != k
    ensures |Remove(q, k)| == if k in q then |q| - 1 else |q|
  {
    if q != [] {
      assert q == [q[0]] + q[1..];
      assert q[0] !in q[1..];
      RemovePresent(q[1..], k);
    }
  }

  /** `move_to_end(k)`, or appending `k` when it is new. */
  function Touch(q: seq<string>, k: string): seq<string> {
    Remove(q, k) + [k]
  }

  /** The last `n` keys, or all of them. */
  function Last(q: seq<string>, n: nat): seq<string> {
    if |q| <= n then q else q[|q| - n..]
  }

  /** The keys used more recently than `k`. */
  function After(q: seq<string>, k: string): seq<string> {
    if q == [] then [] else if q[0] == k then q[1..] else After(q[1..], k)
  }

  lemma {:induction false} ElementCount(q: seq<string>)
    requires NoDup(q)
    ensures |Elements(q)| == |q|
  {
    if q != [] {
      ElementCount(q[1..]);
      assert q == [q[0]] + q[1..];
      assert Elements(q) == {q[0]} + Elements(q[1..]);
    }
  }

  lemma TouchNoDup(q: seq<string>, k: string)
    requires NoDup(q)
    ensures NoDup(Touch(q, k))
    ensures Elements(Touch(q, k)) == Elements(q) + {k}
    ensures forall x :: x in Touch(q, k) <==> x in q || x == k
    ensures |Touch(q, k)| == if k in q then |q| else |q| + 1
  {
    RemovePresent(q, k);
  }

  lemma RemoveSplitStep(p: seq<string>, q: seq<string>, k: string)
    requires p != [] && p[0] != k
    ensures k in p <==> k in p[1..]
    ensures Remove(p, k) == [p[0]] + Remove(p[1..], k)
    ensures [p[0]] + (Remove(p[1..], k) + q) == Remove(p, k) + q
    ensures [p[0]] + (p[1..] + Remove(q, k)) == p + Remove(q, k)
  {
    assert p == [p[0]] + p[1..];
  }

  lemma {:induction false} RemoveSplit(p: seq<string>, q: seq<string>, k: string)
    ensures Remove(p + q, k) == if k in p then Remove(p, k) + q else p + Remove(q, k)
  {
    if p == [] {
      assert p + q == q;
    } else {
      assert (p + q)[0] == p[0] && (p + q)[1..] == p[1..] + q;
      if p[0] != k {
        RemoveSplit(p[1..], q, k);
        RemoveSplitStep(p, q, k);
      }
    }
  }

  /** Where `k` sits: a NoDup order is what precedes `k`, `k`, and `After`. */
  lemma {:induction false} SplitAt(q: seq<string>, k: string)
    requires k in q && NoDup(q)
    ensures |After(q, k)| < |q|
    ensures q[|q| - |After(q, k)|..] == After(q, k)
    ensures q[|q| - |After(q, k)| - 1] == k
    ensures k !in After(q, k) && NoDup(After(q, k))
  {
    if q[0] != k {
      assert q == [q[0]] + q[1..];
      SplitAt(q[1..], k);
    }
  }

  /** Touching another key puts it among the keys newer than `k`; touching `k` empties that set. */
  lemma {:induction false} AfterTouch(q: seq<string>, u: string, k: string)
    requires NoDup(q) && k in q
    ensures u == k ==> After(Touch(q, u), k) == []
    ensures u != k ==> Elements(After(Touch(q, u), k)) == Elements(After(q, k)) + {u}
  {
    if u == k {
      RemovePresent(q, k);
      AfterAppend(Remove(q, k), k, [k]);
    } else if q[0] == k {
      assert Touch(q, u) == [k] + Touch(q[1..], u);
      RemovePresent(q[1..], u);
    } else if q[0] == u {
      assert q == [u] + q[1..];
      AfterAppend(q[1..], k, [u]);
    } else {
      assert q == [q[0]] + q[1..];
      AfterTouch(q[1..], u, k);
      assert Touch(q, u) == [q[0]] + Touch(q[1..], u);
    }
  }

  lemma {:induction false} AfterAppend(q: seq<string>, k: string, tail: seq<string>)
    ensures After(q + tail, k) == if k in q then After(q, k) + tail else After(tail, k)
  {
    if q == [] {
      assert q + tail == tail;
    } else {
      assert q == [q[0]] + q[1..];
      assert (q + tail)[1..] == q[1..] + tail;
      if q[0] != k {
        AfterAppend(q[1..], k, tail);
      }
    }
  }

  /** Dropping an older key, or any key but `k`, acts on `After` as set removal. */
  lemma {:induction false} AfterRemove(q: seq<string>, u: string, k: string)
    requires NoDup(q) && k in q && u != k
    ensures Elements(After(Remove(q, u), k)) == Elements(After(q, k)) - {u}
  {
    if q[0] == k {
      assert Remove(q, u) == [k] + Remove(q[1..], u);
      RemovePresent(q[1..], u);
    } else {
      assert q == [q[0]] + q[1..];
      if q[0] == u {
        SplitAt(q[1..], k);
        assert forall x | x in After(q[1..], k) :: x in q[1..];
      } else {
        AfterRemove(q[1..], u, k);
        assert Remove(q, u) == [q[0]] + Remove(q[1..], u);
      }
    }
  }

  /** One access of a demand-filled LRU: refresh or insert, then evict the oldest key if over capacity. */
  function Access(q: seq<string>, k: string, cap: nat): seq<string> {
    var t := Touch(q, k);
    if |t| > cap then t[1..] else t
  }

  /** The unbounded recency list of a history of accesses. */
  function Recency(h: seq<string>): (q: seq<string>)
    ensures NoDup(q)
    ensures forall x :: x in q <==> x in h
  {
    if h == [] then []
    else
      var init := h[..|h| - 1];
      assert h == init + [h[|h| - 1]];
      RemovePresent(Recency(init), h[|h| - 1]);
      Touch(Recency(init), h[|h| - 1])
  }

  /** The order an LRU of capacity `cap` reaches from empty. */
  function Bounded(h: seq<string>, cap: nat): seq<string> {
    if h == [] then [] else Access(Bounded(h[..|h| - 1], cap), h[|h| - 1], cap)
  }

  lemma SuffixFacts(p: seq<string>, l: seq<string>)
    requires NoDup(p + l)
    ensures NoDup(l)
    ensures forall x | x in p :: x !in l
  {
    var q := p + l;
    assert forall i | 0 <= i < |l| :: l[i] == q[|p| + i];
    forall x | x in p
      ensures x !in l
    {
      var i :| 0 <= i < |p| && p[i] == x;
      assert q[i] == x;
    }
  }

  lemma DropOldest(q: seq<string>)
    requires NoDup(q) && q != []
    ensures NoDup(q[1..])
    ensures forall x :: x in q[1..] <==> x in q && x != q[0]
  {
    assert q == [q[0]] + q[1..];
    SuffixFacts([q[0]], q[1..]);
  }

  lemma PrefixNoDup(p: seq<string>, l: seq<string>)
    requires NoDup(p + l)
    ensures NoDup(p)
  {
    assert forall i | 0 <= i < |p| :: p[i] == (p + l)[i];
  }

  /** How `Touch` acts on an order split in two. */
  lemma TouchSplit(p: seq<string>, l: seq<string>, k: string)
    requires NoDup(p + l)
    ensures k in p ==> Touch(p + l, k) == Remove(p, k) + (l + [k])
    ensures k in p ==> |Remove(p, k)| == |p| - 1 && Touch(l, k) == l + [k]
    ensures k !in p ==> Touch(p + l, k) == p + Touch(l, k)
  {
    hide NoDup;
    RemoveSplit(p, l, k);
    SuffixFacts(p, l);
    if k in p {
      RemoveAbsent(l, k);
      PrefixNoDup(p, l);
      RemovePresent(p, k);
      assert (Remove(p, k) + l) + [k] == Remove(p, k) + (l + [k]);
    } else {
      assert (p + Remove(l, k)) + [k] == p + (Remove(l, k) + [k]);
    }
  }

  lemma AccessLast(q: seq<string>, k: string, cap: nat)
    requires NoDup(q)
    ensures Access(Last(q, cap), k, cap) == Last(Touch(q, k), cap)
  {
    hide NoDup, Touch, Remove;
    var l := Last(q, cap);
    var p := q[..|q| - |l|];
    assert q == p + l;
    TouchSplit(p, l, k);
    TouchLength(p, l, k);
    TrimIsLast(if k in p then Remove(p, k) else p, Touch(l, k), cap);
  }

  lemma TrimIsLast(r: seq<string>, t: seq<string>, cap: nat)
    requires |t| <= cap + 1 && (r == [] || |t| >= cap)
    ensures Last(r + t, cap) == if |t| > cap then t[1..] else t
  {
    if |t| >= cap {
      assert (r + t)[|r| + |t| - cap..] == t[|t| - cap..];
    } else {
      assert r + t == t;
    }
  }

  lemma TouchLength(p: seq<string>, l: seq<string>, k: string)
    requires NoDup(p + l)
    ensures |Touch(l, k)| == if k in l then |l| else |l| + 1
    ensures k in p ==> k !in l
  {
    hide NoDup, Touch;
    SuffixFacts(p, l);
    TouchNoDup(l, k);
  }

  /** Stack property: a bounded LRU always holds exactly the end of the unbounded recency list. */
  lemma {:induction false} StackProperty(h: seq<string>, cap: nat)
    ensures Bounded(h, cap) == Last(Recency(h), cap)
  {
    if h != [] {
      StackProperty(h[..|h| - 1], cap);
      AccessLast(Recency(h[..|h| - 1]), h[|h| - 1], cap);
    }
  }

  /** Inclusion: whatever a small cache holds, a larger one holds. */
  lemma Inclusion(h: seq<string>, small: nat, large: nat, k: string)
    requires small <= large && k in Bounded(h, small)
    ensures k in Bounded(h, large)
  {
    StackProperty(h, small);
    StackProperty(h, large);
    LastGrows(Recency(h), small, large, k);
  }

  lemma LastGrows(q: seq<string>, small: nat, large: nat, k: string)
    requires small <= large && k in Last(q, small)
    ensures k in Last(q, large)
  {
    var i :| 0 <= i < |Last(q, small)| && Last(q, small)[i] == k;
    assert Last(q, large)[|Last(q, large)| - |Last(q, small)| + i] == k;
  }

  /** The distinct keys accessed since the last access of `k`. */
  ghost function Since(h: seq<string>, k: string): set<string> {
    if h == [] || h[|h| - 1] == k then {} else Since(h[..|h| - 1], k) + {h[|h| - 1]}
  }

  lemma {:induction false} RecencySince(h: seq<string>, k: string)
    requires k in h
    ensures Elements(After(Recency(h), k)) == Since(h, k)
  {
    var init, u := h[..|h| - 1], h[|h| - 1];
    assert h == init + [u];
    if k in init {
      RecencySince(init, k);
      AfterTouch(Recency(init), u, k);
    } else {
      assert u == k;
      RemoveAbsent(Recency(init), k);
      AfterAppend(Remove(Recency(init), k), k, [k]);
    }
  }

  lemma AtLast(q: seq<string>, at: nat, n: nat)
    requires NoDup(q) && at < |q|
    ensures q[at] in Last(q, n) <==> |q| - at <= n
  {
    var l := Last(q, n);
    var from := |q| - |l|;
    if at >= from {
      assert l[at - from] == q[at];
    } else {
      forall i | 0 <= i < |l|
        ensures l[i] != q[at]
      {
        assert l[i] == q[from + i];
      }
    }
  }

  /** A key is among the last `n` exactly when fewer than `n` keys are newer. */
  lemma InLastIff(q: seq<string>, k: string, n: nat)
    requires NoDup(q) && k in q
    ensures k in Last(q, n) <==> |After(q, k)| < n
  {
    hide NoDup, After, Last;
    SplitAt(q, k);
    AtLast(q, |q| - |After(q, k)| - 1, n);
  }

  /** Reuse distance: `k` is cached exactly when fewer than `cap` distinct keys were accessed since. */
  lemma HitIffReuseDistance(h: seq<string>, cap: nat, k: string)
    ensures k in Bounded(h, cap) <==> k in h && |Since(h, k)| < cap
  {
    hide Bounded, Since, After, Last;
    StackProperty(h, cap);
    var r := Recency(h);
    if k in h {
      RecencySince(h, k);
      SplitAt(r, k);
      ElementCount(After(r, k));
      InLastIff(r, k, cap);
    } else {
      LastWithin(r, cap, k);
    }
  }

  lemma LastWithin(q: seq<string>, n: nat, k: string)
    requires k !in q
    ensures k !in Last(q, n)
  {
  }
}
