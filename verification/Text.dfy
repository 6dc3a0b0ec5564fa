/** Strings as Python sees them: whitespace, `strip`, and the code-point order used by `<`, `sorted` and `ORDER BY`. */
module Text {

  datatype Option<+T> = None | Some(value: T)

  /** The characters for which `str.isspace` holds; `\s` in a `str` pattern matches the same set. */
  predicate IsSpace(c: char) {
    var n := c as int;
    || 0x09 <= n <= 0x0D || 0x1C <= n <= 0x20 || n == 0x85 || n == 0xA0 || n == 0x1680
    || 0x2000 <= n <= 0x200A || n == 0x2028 || n == 0x2029 || n == 0x202F || n == 0x205F || n == 0x3000
  }

  function StripLeft(s: string): string {
    if s != "" && IsSpace(s[0]) then StripLeft(s[1..]) else s
  }

  function StripRight(s: string): string {
    if s != "" && IsSpace(s[|s| - 1]) then StripRight(s[..|s| - 1]) else s
  }

  /** `s.strip()`. */
  function Strip(s: string): string {
    StripRight(StripLeft(s))
  }

  lemma {:induction false} StripLeftFacts(s: string)
    ensures StripLeft(s) != "" ==> !IsSpace(StripLeft(s)[0])
  {
    if s != "" && IsSpace(s[0]) {
      StripLeftFacts(s[1..]);
    }
  }

  lemma {:induction false} StripRightFacts(s: string)
    ensures StripRight(s) <= s
    ensures StripRight(s) != "" ==> !IsSpace(StripRight(s)[|StripRight(s)| - 1])
  {
    if s != "" && IsSpace(s[|s| - 1]) {
      StripRightFacts(s[..|s| - 1]);
    }
  }

  lemma StripIdempotent(s: string)
    ensures Strip(Strip(s)) == Strip(s)
  {
    StripLeftFacts(s);
    StripRightFacts(StripLeft(s));
  }

  ghost predicate Blanks(s: string) {
    forall i | 0 <= i < |s| :: IsSpace(s[i])
  }

  lemma {:induction false} StripLeftPadded(a: string, s: string)
    requires Blanks(a) && (s != "" ==> !IsSpace(s[0]))
    ensures StripLeft(a + s) == s
  {
    if a == "" {
      assert a + s == s;
    } else {
      assert (a + s)[1..] == a[1..] + s && IsSpace(a[0]);
      assert forall i | 0 <= i < |a[1..]| :: a[1..][i] == a[i + 1];
      StripLeftPadded(a[1..], s);
    }
  }

  lemma {:induction false} StripRightPadded(s: string, b: string)
    requires Blanks(b) && (s != "" ==> !IsSpace(s[|s| - 1]))
    ensures StripRight(s + b) == s
  {
    if b == "" {
      assert s + b == s;
    } else {
      assert (s + b)[..|s + b| - 1] == s + b[..|b| - 1];
      StripRightPadded(s, b[..|b| - 1]);
    }
  }

  /** Stripping takes off the white space at both ends, and nothing else. */
  lemma StripPadded(a: string, s: string, b: string)
    requires Blanks(a) && Blanks(b) && (s != "" ==> !IsSpace(s[0]) && !IsSpace(s[|s| - 1]))
    ensures Strip(a + s + b) == s
  {
    if s == "" {
      assert a + s + b == (a + b) + "";
      StripLeftPadded(a + b, "");
    } else {
      assert a + s + b == a + (s + b);
      StripLeftPadded(a, s + b);
      StripRightPadded(s, b);
    }
  }

  /** `s[:k]`, which is all of `s` when it is shorter. */
  function Take(s: string, k: nat): string {
    if |s| <= k then s else s[..k]
  }

  /** `a < b` on strings: first differing code point decides, a proper prefix comes first. */
  predicate Less(a: string, b: string)
    decreases |a|
  {
    b != "" && (a == "" || a[0] < b[0] || (a[0] == b[0] && Less(a[1..], b[1..])))
  }

  lemma {:induction false} LessTransitive(a: string, b: string, c: string)
    requires Less(a, b) && Less(b, c)
    ensures Less(a, c)
    decreases |a|
  {
    if a != "" && a[0] == b[0] == c[0] {
      LessTransitive(a[1..], b[1..], c[1..]);
    }
  }

  lemma {:induction false} LessTotal(a: string, b: string)
    ensures a == b || Less(a, b) || Less(b, a)
    decreases |a|
  {
    if a != "" && b != "" && a[0] == b[0] {
      LessTotal(a[1..], b[1..]);
      assert a == [a[0]] + a[1..] && b == [b[0]] + b[1..];
    }
  }

  lemma {:induction false} LessAsymmetric(a: string, b: string)
    requires Less(a, b)
    ensures !Less(b, a) && a != b
    decreases |a|
  {
    if a != "" && a[0] == b[0] {
      LessAsymmetric(a[1..], b[1..]);
    }
  }

  /** Comparing prefixes soundly bounds comparing the whole strings. */
  lemma {:induction false} PrefixOrderBounds(a: string, b: string, k: nat)
    requires Less(Take(a, k), Take(b, k))
    ensures Less(a, b)
    decreases k
  {
    var ta, tb := Take(a, k), Take(b, k);
    if a != "" && ta != "" && a[0] == b[0] {
      assert ta[1..] == Take(a[1..], k - 1) && tb[1..] == Take(b[1..], k - 1);
      PrefixOrderBounds(a[1..], b[1..], k - 1);
    }
  }

  predicate IsLeast(m: string, s: set<string>) {
    m in s && forall x | x in s :: x == m || Less(m, x)
  }

  lemma {:induction false} LeastExists(s: set<string>) returns (m: string)
    requires s != {}
    ensures IsLeast(m, s)
    decreases |s|
  {
    var x :| x in s;
    if s == {x} {
      m := x;
    } else {
      var rest := s - {x};
      var n := LeastExists(rest);
      LessTotal(n, x);
      m := if Less(x, n) then x else n;
      forall y | y in s
        ensures y == m || Less(m, y)
      {
        if m == x && y != x && y != n {
          LessTransitive(x, n, y);
        }
      }
    }
  }

  lemma LeastUnique(s: set<string>, m: string, n: string)
    requires IsLeast(m, s) && IsLeast(n, s)
    ensures m == n
  {
    if m != n {
      LessAsymmetric(m, n);
    }
  }

  function Least(s: set<string>): (m: string)
    requires s != {}
    ensures IsLeast(m, s)
  {
    assert exists m :: IsLeast(m, s) by {
      var w := LeastExists(s);
    }
    assert forall m, n | IsLeast(m, s) && IsLeast(n, s) :: m == n by {
      forall m, n | IsLeast(m, s) && IsLeast(n, s)
        ensures m == n
      {
        LeastUnique(s, m, n);
      }
    }
    var m :| m in s && IsLeast(m, s);
    m
  }

  ghost predicate Ascending(q: seq<string>) {
    forall i, j | 0 <= i < j < |q| :: Less(q[i], q[j])
  }

  /** The members of a set in increasing order: `sorted(s)`, or `ORDER BY`. */
  function Sorted(s: set<string>): (q: seq<string>)
    ensures forall x :: x in q <==> x in s
    decreases |s|
  {
    if s == {} then [] else var m := Least(s); [m] + Sorted(s - {m})
  }

  lemma {:induction false} SortedAscending(s: set<string>)
    ensures Ascending(Sorted(s)) && |Sorted(s)| == |s|
    decreases |s|
  {
    if s != {} {
      var m := Least(s);
      SortedAscending(s - {m});
      var rest := Sorted(s - {m});
      assert forall i | 0 <= i < |rest| :: rest[i] in rest;
    }
  }

  lemma {:induction false} SortedUnique(q: seq<string>, s: set<string>)
    requires Ascending(q)
    requires forall x :: x in q <==> x in s
    ensures q == Sorted(s)
    decreases |q|
  {
    if q == [] {
      assert forall x | x in s :: x in q;
    } else {
      assert q[0] in s;
      var m := Least(s);
      assert m in q;
      var i :| 0 <= i < |q| && q[i] == m;
      if i > 0 {
        LessAsymmetric(q[0], m);
        assert false;
      }
      forall x
        ensures x in q[1..] <==> x in s - {m}
      {
        assert q == [m] + q[1..];
        if x in q[1..] {
          var j :| 0 <= j < |q[1..]| && q[1..][j] == x;
          assert Less(q[0], q[j + 1]);
          LessAsymmetric(m, x);
        }
      }
      SortedUnique(q[1..], s - {m});
    }
  }

  // ---- lists of distinct strings -----------------------------------------------------------------------------------

  ghost predicate NoDup(q: seq<string>) {
    forall i, j | 0 <= i < j < |q| :: q[i] != q[j]
  }

  function Elements(q: seq<string>): set<string> {
    set x | x in q
  }
}
