/** Bringing documents ingested before language scoping to the rule that ingest follows (scripts/backfill_language.py).
    */
module Backfill {
  import opened Text
  import opened Language

  /** The properties of a document-tree node that the backfill reads or writes; absent is null. `logical` is the label
      that `main` collects language codes from. */
  datatype Node = Node(logical: bool, language: Option<string>, searchText: Option<string>, matchText: Option<string>)

  /** Nodes by their unique ids. */
  type Nodes = map<string, Node>

  function Unstamped(nodes: Nodes): set<string> {
    set id | id in nodes && nodes[id].language.None?
  }

  function Stamp(nodes: Nodes, ids: set<string>, language: string): Nodes {
    map id | id in nodes :: if id in ids then nodes[id].(language := Some(language)) else nodes[id]
  }

  /** All the stamping batches together; batches of no nodes stamp none. */
  function StampEvery(nodes: Nodes, language: string, size: nat): Nodes {
    if size == 0 then nodes else Stamp(nodes, Unstamped(nodes), language)
  }

  /** What the page query matches before it looks at the cursor. */
  function Candidates(nodes: Nodes, language: string): set<string> {
    set id | id in nodes && nodes[id].language == Some(language) && nodes[id].searchText.Some?
  }

  function BeyondCursor(ids: set<string>, cursor: string): set<string> {
    set id | id in ids && Less(cursor, id)
  }

  /** One page of the cursor query: the ids after `cursor`, in order, at most `size` of them. */
  function Page(nodes: Nodes, language: string, cursor: string, size: nat): seq<string> {
    var ids := Sorted(BeyondCursor(Candidates(nodes, language), cursor));
    if |ids| <= size then ids else ids[..size]
  }

  /** Can the cursor pages get to this id? They start after the empty string, and an empty page ends them. */
  predicate Reached(id: string, size: nat) {
    id != "" && size >= 1
  }

  /** The ids that `_backfill_match_text` visits. */
  function Eligible(nodes: Nodes, language: string, size: nat): set<string> {
    set id | id in Candidates(nodes, language) && Reached(id, size)
  }

  /** A node after its key was derived: written only where normalization changed something. */
  function Derived(n: Node, p: Profile): Node {
    var key := DeriveMatchText(p, n.searchText);
    if key.Some? then n.(matchText := key) else n
  }

  function DeriveOn(nodes: Nodes, ids: set<string>, p: Profile): Nodes {
    map id | id in nodes :: if id in ids then Derived(nodes[id], p) else nodes[id]
  }

  function Cleared(n: Node): Node {
    if n.matchText.Some? && n.matchText == n.searchText then n.(matchText := None) else n
  }

  function ClearOn(nodes: Nodes, language: string): Nodes {
    map id | id in nodes :: if nodes[id].language == Some(language) then Cleared(nodes[id]) else nodes[id]
  }

  /** Both passes for one language. */
  function Migrate(nodes: Nodes, language: string, p: Profile, size: nat): Nodes {
    ClearOn(if p.normalize.Identity? then nodes else DeriveOn(nodes, Eligible(nodes, language, size), p), language)
  }

  /** Both passes for one language after another. */
  function MigrateAll(nodes: Nodes, codes: seq<string>, profiles: string -> Profile, size: nat): Nodes {
    if codes == [] then nodes
    else
      var code := codes[|codes| - 1];
      Migrate(MigrateAll(nodes, codes[..|codes| - 1], profiles, size), code, profiles(code), size)
  }

  /** The languages `main` handles: the one asked for, and those the logical documents carry. */
  function Handled(nodes: Nodes, language: string): set<string> {
    {language} + (set id | id in nodes && nodes[id].logical && nodes[id].language.Some?
                  && nodes[id].language.value != "" ::
                    nodes[id].language.value)
  }

  /** The whole run, as far as it concerns these properties. */
  function Backfilled(nodes: Nodes, language: string, profiles: string -> Profile, size: nat): Nodes {
    var stamped := StampEvery(nodes, language, size);
    MigrateAll(stamped, Sorted(Handled(stamped, language)), profiles, size)
  }

  // ---- the code ----------------------------------------------------------------------------------------------------

  class Database {
    var nodes: Nodes

    /** `_stamp_batch`: which nodes a `LIMIT` takes is up to the database. */
    method StampBatch(language: string, size: nat) returns (stamped: nat, ghost chosen: set<string>)
      modifies this
      ensures chosen <= Unstamped(old(nodes)) && stamped == |chosen|
      ensures stamped == if |Unstamped(old(nodes))| <= size then |Unstamped(old(nodes))| else size
      ensures nodes == Stamp(old(nodes), chosen, language)
    {
      var left, taken := Unstamped(nodes), {};
      var all := left;
      while |taken| < size && left != {}
        invariant left <= all && taken == all - left && |taken| + |left| == |all|
        invariant |taken| <= size
        decreases left
      {
        var id :| id in left;
        left, taken := left - {id}, taken + {id};
      }
      chosen := taken;
      stamped := |taken|;
      nodes := Stamp(nodes, taken, language);
    }

    /** The stamping loop of `main`: every unstamped node gets the language, the others keep theirs. */
    method StampAll(language: string, size: nat) returns (stamped: nat)
      modifies this
      ensures nodes == StampEvery(old(nodes), language, size)
      ensures stamped == if size == 0 then 0 else |Unstamped(old(nodes))|
    {
      stamped := 0;
      ghost var start, done := nodes, {};
      StampNone(start, language);
      hide Stamp, Unstamped;
      while true
        invariant nodes == Stamp(start, done, language) && done <= Unstamped(start)
        invariant stamped == |done| && (size == 0 ==> done == {})
        decreases |Unstamped(nodes)|
      {
        var n, chosen := StampBatch(language, size);
        assert nodes == Stamp(Stamp(start, done, language), chosen, language);
        StampMore(start, done, chosen, language);
        if n == 0 {
          UnstampedAfter(start, done, language);
          Exhausted(Unstamped(start), done, chosen);
          return;
        }
        done := done + chosen;
        stamped := stamped + n;
      }
    }

    /** `_backfill_match_text`: the cursor pages visit every eligible node exactly once, in id order. */
    method BackfillMatchText(language: string, p: Profile, size: nat) returns (updated: nat, ghost visited: seq<string>)
      modifies this
      ensures if p.normalize.Identity? then visited == [] && nodes == old(nodes)
              else visited == Sorted(Eligible(old(nodes), language, size)) &&
                   nodes == DeriveOn(old(nodes), Eligible(old(nodes), language, size), p)
      ensures updated == |Changed(old(nodes), visited, p)|
    {
      updated, visited := 0, [];
      if p.normalize.Identity? {
        return;
      }
      ghost var start, all := nodes, Sorted(Eligible(nodes, language, size));
      SortedAscending(Eligible(nodes, language, size));
      var cursor := "";
      hide Text.Sorted, Text.Less;
      Nothing(start, all, p);
      hide Page, DeriveOn, Less, Changed, Elements, Eligible, CursorAt;
      while true
        invariant visited <= all && cursor == CursorAt(all, |visited|)
        invariant nodes == DeriveOn(start, Elements(visited), p)
        invariant updated == |Changed(start, visited, p)|
        decreases |all| - |visited|
      {
        PageStep(start, nodes, language, p, all, visited, size);
        var rows := Page(nodes, language, cursor, size);
        if rows == [] {
          AllVisited(all, Eligible(start, language, size));
          break;
        }
        CursorMoves(all, visited, rows);
        cursor := rows[|rows| - 1];
        var pairs := Changed(nodes, rows, p);
        updated := updated + |pairs|;
        nodes := DeriveOn(nodes, Elements(rows), p);
        visited := visited + rows;
      }
    }

    /** `_clear_redundant_match_text`. */
    method ClearRedundant(language: string) returns (cleared: nat)
      modifies this
      ensures nodes == ClearOn(old(nodes), language)
      ensures cleared == |Touched(old(nodes), nodes)|
    {
      var hit := set id | id in nodes && nodes[id].language == Some(language) &&
                            nodes[id].matchText.Some? && nodes[id].matchText == nodes[id].searchText;
      cleared := |hit|;
      ghost var before := nodes;
      nodes := ClearOn(nodes, language);
      assert hit == Touched(before, nodes);
    }

    /** Both passes for one language. */
    method MigrateLanguage(language: string, p: Profile, size: nat)
      modifies this
      ensures nodes == Migrate(old(nodes), language, p, size)
    {
      hide DeriveOn, ClearOn, Eligible, Changed, Touched;
      var _, _ := BackfillMatchText(language, p, size);
      var _ := ClearRedundant(language);
    }

    /** `main`: stamp, then both passes for every handled language in order of code. */
    method BackfillLanguages(language: string, profiles: string -> Profile, size: nat) returns (stamped: nat)
      modifies this
      ensures nodes == Backfilled(old(nodes), language, profiles, size)
      ensures stamped == if size == 0 then 0 else |Unstamped(old(nodes))|
    {
      stamped := StampAll(language, size);
      ghost var start := nodes;
      var codes := Sorted(Handled(nodes, language));
      MigrateNone(start, profiles, size);
      hide Migrate, MigrateAll, StampEvery, Handled, Sorted, Unstamped;
      for i := 0 to |codes|
        invariant nodes == MigrateAll(start, codes[..i], profiles, size)
      {
        MigrateNext(start, codes, i, profiles, size);
        MigrateLanguage(codes[i], profiles(codes[i]), size);
      }
      assert codes[..|codes|] == codes;
    }
  }

  lemma StampNone(nodes: Nodes, language: string)
    ensures Stamp(nodes, {}, language) == nodes
  {
  }

  lemma UnstampedAfter(start: Nodes, done: set<string>, language: string)
    ensures Unstamped(Stamp(start, done, language)) == Unstamped(start) - done
  {
  }

  lemma StampTwice(start: Nodes, done: set<string>, chosen: set<string>, language: string)
    ensures Stamp(Stamp(start, done, language), chosen, language) == Stamp(start, done + chosen, language)
  {
  }

  /** One more batch of nodes that were still unstamped. */
  lemma StampMore(start: Nodes, done: set<string>, chosen: set<string>, language: string)
    requires done <= Unstamped(start) && chosen <= Unstamped(Stamp(start, done, language))
    ensures Stamp(Stamp(start, done, language), chosen, language) == Stamp(start, done + chosen, language)
    ensures done + chosen <= Unstamped(start) && |done + chosen| == |done| + |chosen|
    ensures |Unstamped(Stamp(start, done + chosen, language))| == |Unstamped(Stamp(start, done, language))| - |chosen|
  {
    hide Stamp, Unstamped;
    UnstampedAfter(start, done, language);
    UnstampedAfter(start, done + chosen, language);
    StampTwice(start, done, chosen, language);
    Apart(Unstamped(start), done, chosen);
  }

  lemma Without(x: set<string>, y: set<string>)
    requires y <= x
    ensures |x - y| == |x| - |y|
  {
    assert (x - y) + y == x && (x - y) * y == {};
  }

  lemma Apart(all: set<string>, done: set<string>, chosen: set<string>)
    requires done <= all && chosen <= all - done
    ensures done + chosen <= all && |done + chosen| == |done| + |chosen|
    ensures |all - (done + chosen)| == |all - done| - |chosen|
  {
    Without(all, done);
    Without(all, done + chosen);
    Without(done + chosen, done);
    assert (done + chosen) - done == chosen;
  }

  lemma Exhausted(all: set<string>, done: set<string>, chosen: set<string>)
    requires done <= all && |chosen| == 0
    ensures done + chosen == done
    ensures |all - done| == 0 ==> done == all
  {
  }

  lemma MigrateNone(nodes: Nodes, profiles: string -> Profile, size: nat)
    ensures MigrateAll(nodes, [], profiles, size) == nodes
  {
  }

  lemma MigrateNext(nodes: Nodes, codes: seq<string>, i: nat, profiles: string -> Profile, size: nat)
    requires i < |codes|
    ensures MigrateAll(nodes, codes[..i + 1], profiles, size) ==
            Migrate(MigrateAll(nodes, codes[..i], profiles, size), codes[i], profiles(codes[i]), size)
  {
    assert codes[..i + 1][..i] == codes[..i];
  }

  /** The nodes of a run of ids whose derived key is written. */
  function Changed(nodes: Nodes, ids: seq<string>, p: Profile): set<string> {
    set id | id in ids && id in nodes && DeriveMatchText(p, nodes[id].searchText).Some?
  }

  /** What is counted as updated: the visited nodes with a text, not empty, that normalizes to another one. */
  lemma UpdatedAre(nodes: Nodes, ids: seq<string>, p: Profile, id: string)
    requires id in nodes
    ensures id in Changed(nodes, ids, p) <==>
            id in ids && nodes[id].searchText.Some? && nodes[id].searchText.value != "" &&
            p.normalize.Of(nodes[id].searchText.value) != nodes[id].searchText.value
    ensures id in Changed(nodes, ids, p) ==>
              DeriveOn(nodes, Elements(ids), p)[id].matchText == Some(p.normalize.Of(nodes[id].searchText.value))
  {
  }

  ghost function CursorAt(all: seq<string>, n: nat): string
    requires n <= |all|
  {
    if n == 0 then "" else all[n - 1]
  }

  lemma AfterCursor(all: seq<string>, n: nat, i: nat)
    requires Ascending(all) && n <= |all| && i < |all| && "" !in all
    ensures Less(CursorAt(all, n), all[i]) <==> i >= n
  {
    if 0 < n && i < n - 1 {
      LessAsymmetric(all[i], all[n - 1]);
    } else if 0 < n && i == n - 1 && Less(all[i], all[i]) {
      LessAsymmetric(all[i], all[i]);
    }
  }

  /** The ids after the cursor are the part of the sorted list that is still to come. */
  lemma SuffixMembers(all: seq<string>, ids: set<string>, n: nat, x: string)
    requires Ascending(all) && "" !in all && n <= |all| && (x in all <==> x in ids)
    ensures x in all[n..] <==> x in BeyondCursor(ids, CursorAt(all, n))
  {
    if x in all {
      var i :| 0 <= i < |all| && all[i] == x;
      AfterCursor(all, n, i);
      if i >= n {
        assert all[n..][i - n] == x;
      }
    }
  }

  lemma SuffixAscending(all: seq<string>, n: nat)
    requires Ascending(all) && n <= |all|
    ensures Ascending(all[n..])
  {
    assert forall i | 0 <= i < |all[n..]| :: all[n..][i] == all[n + i];
  }

  lemma CursorSuffix(all: seq<string>, ids: set<string>, n: nat)
    requires Ascending(all) && n <= |all| && forall x :: x in all <==> x in ids && x != ""
    ensures Sorted(BeyondCursor(ids, CursorAt(all, n))) == all[n..]
  {
    forall x
      ensures x in all[n..] <==> x in BeyondCursor(ids, CursorAt(all, n))
    {
      if x == "" {
        assert forall i | n <= i < |all| :: all[n..][i - n] == all[i] && all[i] in all;
      } else {
        SuffixMembers(all, ids, n, x);
      }
    }
    SuffixAscending(all, n);
    SortedUnique(all[n..], BeyondCursor(ids, CursorAt(all, n)));
  }

  /** The next page after `n` ids is the next stretch of the sorted list. */
  lemma NextPage(nodes: Nodes, language: string, all: seq<string>, n: nat, size: nat)
    requires n <= |all| && Sorted(BeyondCursor(Candidates(nodes, language), CursorAt(all, n))) == all[n..]
    ensures var rows := Page(nodes, language, CursorAt(all, n), size);
            all[..n] + rows <= all && |rows| == if |all| - n <= size then |all| - n else size
  {
    hide Sorted, BeyondCursor, CursorAt;
    Stretch(all, n, if |all| - n <= size then |all| - n else size);
    assert all[n..][..|all| - n] == all[n..];
  }

  lemma Stretch(all: seq<string>, n: nat, k: nat)
    requires n + k <= |all|
    ensures all[..n] + all[n..][..k] <= all
  {
    assert all[..n] + all[n..][..k] == all[..n + k];
  }

  lemma Nothing(nodes: Nodes, all: seq<string>, p: Profile)
    ensures DeriveOn(nodes, Elements([]), p) == nodes && Changed(nodes, [], p) == {} && CursorAt(all, 0) == ""
  {
  }

  lemma AllVisited(all: seq<string>, ids: set<string>)
    requires forall x :: x in all <==> x in ids
    ensures Elements(all) == ids
  {
  }

  lemma CursorMoves(all: seq<string>, visited: seq<string>, rows: seq<string>)
    requires visited + rows <= all && rows != []
    ensures CursorAt(all, |visited + rows|) == rows[|rows| - 1]
  {
    assert all[|visited + rows| - 1] == (visited + rows)[|visited + rows| - 1];
  }

  /** What one page contributes. */
  lemma PageStep(start: Nodes, nodes: Nodes, language: string, p: Profile, all: seq<string>, visited: seq<string>,
                 size: nat)
    requires Ascending(all) && forall x :: x in all <==> x in Eligible(start, language, size)
    requires visited <= all && nodes == DeriveOn(start, Elements(visited), p)
    ensures var rows := Page(nodes, language, CursorAt(all, |visited|), size);
            && visited + rows <= all
            && (rows == [] ==> visited == all)
            && DeriveOn(nodes, Elements(rows), p) == DeriveOn(start, Elements(visited + rows), p)
            && Changed(nodes, rows, p) == Changed(start, rows, p)
            && |Changed(start, visited + rows, p)| == |Changed(start, visited, p)| + |Changed(start, rows, p)|
  {
    DerivationKeepsCandidates(start, Elements(visited), language, p);
    assert all[..|visited|] == visited;
    PageIsNext(start, nodes, language, all, |visited|, size);
    hide Page, Eligible, DeriveOn, Changed, Elements, Ascending;
    PageExtends(start, all, visited, Page(nodes, language, CursorAt(all, |visited|), size), p);
  }

  lemma PageIsNext(start: Nodes, nodes: Nodes, language: string, all: seq<string>, n: nat, size: nat)
    requires Ascending(all) && (forall x :: x in all <==> x in Eligible(start, language, size)) && n <= |all|
    requires Candidates(nodes, language) == Candidates(start, language)
    ensures var rows := Page(nodes, language, CursorAt(all, n), size);
            all[..n] + rows <= all && (rows == [] ==> n == |all|)
  {
    hide Sorted, Less, Candidates;
    if size >= 1 {
      CursorSuffix(all, Candidates(start, language), n);
      NextPage(nodes, language, all, n, size);
    } else {
      Inhabited(all);
      EmptyPage(nodes, language, CursorAt(all, n));
    }
  }

  lemma Inhabited(all: seq<string>)
    ensures all == [] || exists x :: x in all
  {
    if all != [] {
      assert all[0] in all;
    }
  }

  lemma EmptyPage(nodes: Nodes, language: string, cursor: string)
    ensures Page(nodes, language, cursor, 0) == []
  {
  }

  lemma DerivationKeepsCandidates(nodes: Nodes, ids: set<string>, language: string, p: Profile)
    ensures Candidates(DeriveOn(nodes, ids, p), language) == Candidates(nodes, language)
  {
  }

  /** The nodes that differ between two states. */
  ghost function Touched(before: Nodes, after: Nodes): set<string>
    requires before.Keys <= after.Keys
  {
    set id | id in before && after[id] != before[id]
  }

  /** Deriving page by page is deriving once, because pages do not overlap. */
  lemma PageExtends(start: Nodes, all: seq<string>, visited: seq<string>, rows: seq<string>, p: Profile)
    requires Ascending(all) && visited + rows <= all
    ensures DeriveOn(DeriveOn(start, Elements(visited), p), Elements(rows), p) ==
            DeriveOn(start, Elements(visited + rows), p)
    ensures |Changed(start, visited + rows, p)| == |Changed(start, visited, p)| + |Changed(start, rows, p)|
  {
    var both := visited + rows;
    assert Elements(both) == Elements(visited) + Elements(rows);
    forall id | id in visited
      ensures id !in rows
    {
      var i :| 0 <= i < |visited| && visited[i] == id;
      assert both[i] == all[i] == id;
      forall j | 0 <= j < |rows|
        ensures rows[j] != id
      {
        assert rows[j] == both[|visited| + j] == all[|visited| + j];
        LessAsymmetric(all[i], all[|visited| + j]);
      }
    }
    assert Changed(start, both, p) == Changed(start, visited, p) + Changed(start, rows, p);
    assert Changed(start, visited, p) !! Changed(start, rows, p);
  }

  // ---- convergence to the ingest rule -------------------------------------------------------------------------------

  /** The rule ingest follows: a stored key exactly where normalization changes the text. */
  predicate FollowsRule(n: Node, p: Profile) {
    n.matchText == DeriveMatchText(p, n.searchText)
  }

  /** Can the backfill mend this node? If its text derives a key, the pages must reach it, unless it has that key
      already; if not, what is stored must be nothing or a copy of the text. */
  predicate Mendable(id: string, n: Node, p: Profile, size: nat) {
    match DeriveMatchText(p, n.searchText)
    case Some(key) => Reached(id, size) || n.matchText == Some(key)
    case None => n.matchText.None? || n.matchText == n.searchText
  }

  /** What both passes make of one node of the language. */
  function Mended(id: string, n: Node, p: Profile, size: nat): Node {
    Cleared(if n.searchText.Some? && Reached(id, size) then Derived(n, p) else n)
  }

  lemma MigrateAt(nodes: Nodes, language: string, p: Profile, size: nat, id: string)
    requires id in nodes
    ensures id in Migrate(nodes, language, p, size)
    ensures Migrate(nodes, language, p, size)[id] ==
            if nodes[id].language == Some(language) then Mended(id, nodes[id], p, size) else nodes[id]
  {
  }

  lemma MigrateKeys(nodes: Nodes, language: string, p: Profile, size: nat)
    ensures Migrate(nodes, language, p, size).Keys == nodes.Keys
  {
  }

  /** One node ends up following the rule exactly when it was mendable. */
  lemma MendedFollowsRule(id: string, n: Node, p: Profile, size: nat)
    ensures FollowsRule(Mended(id, n, p, size), p) <==> Mendable(id, n, p, size)
    ensures Mended(id, Mended(id, n, p, size), p, size) == Mended(id, n, p, size)
    ensures Mended(id, n, p, size).language == n.language && Mended(id, n, p, size).logical == n.logical
  {
  }

  /** After both passes every node of the language follows the ingest rule, if and only if every one was mendable
      before. */
  lemma ConvergesIffMendable(nodes: Nodes, language: string, p: Profile, size: nat)
    ensures var after := Migrate(nodes, language, p, size);
            (forall id | id in after && after[id].language == Some(language) :: FollowsRule(after[id], p)) <==>
            (forall id | id in nodes && nodes[id].language == Some(language) :: Mendable(id, nodes[id], p, size))
  {
    hide Migrate, Mendable, FollowsRule, Mended;
    var after := Migrate(nodes, language, p, size);
    MigrateKeys(nodes, language, p, size);
    forall id | id in nodes
      ensures after[id].language == nodes[id].language
      ensures nodes[id].language == Some(language) ==> (FollowsRule(after[id], p) <==> Mendable(id, nodes[id], p, size))
    {
      MigrateAt(nodes, language, p, size, id);
      MendedFollowsRule(id, nodes[id], p, size);
    }
  }

  /** A normal text with a foreign key: the migration leaves it, and it does not follow the rule. */
  lemma UnmendedExample()
    ensures var p := Profile("ar", [], Custom(NormalizeArabic));
            var nodes: Nodes := map["n" := Node(false, Some("ar"), Some("abc"), Some("old"))];
            Migrate(nodes, "ar", p, 1) == nodes && !FollowsRule(nodes["n"], p)
  {
    hide Migrate, NormalizeArabic;
    var p := Profile("ar", [], Custom(NormalizeArabic));
    var nodes: Nodes := map["n" := Node(false, Some("ar"), Some("abc"), Some("old"))];
    NormalizeSettles("abc");
    MigrateAt(nodes, "ar", p, 1, "n");
    MigrateKeys(nodes, "ar", p, 1);
    NodesEqual(Migrate(nodes, "ar", p, 1), nodes);
  }

  lemma NodesEqual(a: Nodes, b: Nodes)
    requires a.Keys == b.Keys && forall id | id in a :: a[id] == b[id]
    ensures a == b
  {
  }

  /** A second migration of one language changes nothing, whatever the first one found. */
  lemma MigrateIdempotent(nodes: Nodes, language: string, p: Profile, size: nat)
    ensures Migrate(Migrate(nodes, language, p, size), language, p, size) == Migrate(nodes, language, p, size)
  {
    hide Migrate, Mended;
    var once := Migrate(nodes, language, p, size);
    var twice := Migrate(once, language, p, size);
    MigrateKeys(nodes, language, p, size);
    MigrateKeys(once, language, p, size);
    forall id | id in once
      ensures twice[id] == once[id]
    {
      MigrateAt(nodes, language, p, size, id);
      MigrateAt(once, language, p, size, id);
      MendedFollowsRule(id, nodes[id], p, size);
    }
    NodesEqual(twice, once);
  }

  /** Migrating one language does not touch the nodes of another, so the order of the languages is irrelevant. */
  lemma LanguagesIndependent(nodes: Nodes, k: string, p: Profile, l: string, q: Profile, size: nat)
    requires k != l
    ensures Migrate(Migrate(nodes, k, p, size), l, q, size) == Migrate(Migrate(nodes, l, q, size), k, p, size)
  {
    hide Migrate, Mended;
    var kl, lk := Migrate(nodes, k, p, size), Migrate(nodes, l, q, size);
    var a, b := Migrate(kl, l, q, size), Migrate(lk, k, p, size);
    MigrateKeys(nodes, k, p, size);
    MigrateKeys(nodes, l, q, size);
    MigrateKeys(kl, l, q, size);
    MigrateKeys(lk, k, p, size);
    forall id | id in a
      ensures a[id] == b[id]
    {
      MigrateAt(nodes, k, p, size, id);
      MigrateAt(kl, l, q, size, id);
      MigrateAt(nodes, l, q, size, id);
      MigrateAt(lk, k, p, size, id);
      MendedFollowsRule(id, nodes[id], p, size);
      MendedFollowsRule(id, nodes[id], q, size);
    }
    NodesEqual(a, b);
  }

  /** Keys left behind by the earlier convention, absent or the normalized text, are mendable under every profile,
      except that an empty text never derives the key that a normalizer might make of it. */
  lemma NormalizedIsMendable(id: string, n: Node, p: Profile, size: nat)
    requires n.matchText.None? || (n.searchText.Some? && n.matchText.value == p.normalize.Of(n.searchText.value))
    requires Reached(id, size)
    ensures Mendable(id, n, p, size) <==> n.matchText.None? || n.searchText.value != "" || p.normalize.Of("") == ""
  {
  }

  // ---- the whole run -----------------------------------------------------------------------------------------------

  /** What the passes for several languages make of one node: what the passes for its own language do. */
  lemma {:induction false} MigrateAllAt(nodes: Nodes, codes: seq<string>, profiles: string -> Profile, size: nat,
                                        id: string)
    requires id in nodes && NoDup(codes)
    ensures MigrateAll(nodes, codes, profiles, size).Keys == nodes.Keys
    ensures MigrateAll(nodes, codes, profiles, size)[id] == OwnPasses(codes, profiles, size, id, nodes[id])
  {
    hide Migrate, Mended;
    if codes != [] {
      var init, code := codes[..|codes| - 1], codes[|codes| - 1];
      assert codes == init + [code];
      MigrateAllAt(nodes, init, profiles, size, id);
      MigrateAt(MigrateAll(nodes, init, profiles, size), code, profiles(code), size, id);
      MigrateKeys(MigrateAll(nodes, init, profiles, size), code, profiles(code), size);
      if nodes[id].language.Some? {
        MendedFollowsRule(id, nodes[id], profiles(nodes[id].language.value), size);
      }
    }
  }

  function OwnPasses(codes: seq<string>, profiles: string -> Profile, size: nat, id: string, n: Node): Node {
    if n.language.Some? && n.language.value in codes then Mended(id, n, profiles(n.language.value), size) else n
  }

  lemma {:induction false} MigrateAllKeys(nodes: Nodes, codes: seq<string>, profiles: string -> Profile, size: nat)
    ensures MigrateAll(nodes, codes, profiles, size).Keys == nodes.Keys
  {
    if codes != [] {
      MigrateAllKeys(nodes, codes[..|codes| - 1], profiles, size);
    }
  }

  lemma SortedNoDup(codes: set<string>)
    ensures NoDup(Sorted(codes))
  {
    hide Sorted, Less;
    SortedAscending(codes);
    forall i, j | 0 <= i < j < |Sorted(codes)|
      ensures Sorted(codes)[i] != Sorted(codes)[j]
    {
      LessAsymmetric(Sorted(codes)[i], Sorted(codes)[j]);
    }
  }

  /** What the whole run makes of one node. */
  lemma BackfilledAt(nodes: Nodes, language: string, profiles: string -> Profile, size: nat, id: string)
    requires id in nodes
    ensures var stamped := StampEvery(nodes, language, size);
            && id in stamped && id in Backfilled(nodes, language, profiles, size)
            && Backfilled(nodes, language, profiles, size)[id] ==
               OwnPasses(Sorted(Handled(stamped, language)), profiles, size, id, stamped[id])
  {
    hide Sorted, Handled, MigrateAll, OwnPasses;
    var stamped := StampEvery(nodes, language, size);
    SortedNoDup(Handled(stamped, language));
    MigrateAllAt(stamped, Sorted(Handled(stamped, language)), profiles, size, id);
  }

  lemma BackfilledKeys(nodes: Nodes, language: string, profiles: string -> Profile, size: nat)
    ensures Backfilled(nodes, language, profiles, size).Keys == nodes.Keys
  {
    var stamped := StampEvery(nodes, language, size);
    MigrateAllKeys(stamped, Sorted(Handled(stamped, language)), profiles, size);
  }

  /** What the whole run makes of one node, on its fields alone. A node is dealt with when the language it has or is
      stamped with is the one asked for, or a non-empty one that some logical document carries. Its text then gives it
      its key, if the pages reach it and normalization changes it; a copy of the text goes; anything else stays. */
  lemma BackfilledNode(nodes: Nodes, language: string, profiles: string -> Profile, size: nat, id: string)
    requires id in nodes
    ensures id in Backfilled(nodes, language, profiles, size)
    ensures var n, m := nodes[id], Backfilled(nodes, language, profiles, size)[id];
            && m.logical == n.logical && m.searchText == n.searchText
            && m.language == (if n.language.Some? || size == 0 then n.language else Some(language))
            && m.matchText ==
               if m.language.None? || !(m.language.value == language || Carried(nodes, m.language.value))
               then n.matchText
               else
                 var text, normal := n.searchText, profiles(m.language.value).normalize;
                 if text.Some? && text.value != "" && id != "" && size >= 1 && normal.Of(text.value) != text.value
                 then Some(normal.Of(text.value))
                 else if n.matchText == text then None
                 else n.matchText
  {
    hide Sorted, Backfilled;
    BackfilledAt(nodes, language, profiles, size, id);
    var stamped := StampEvery(nodes, language, size);
    if stamped[id].language.Some? {
      var code := stamped[id].language.value;
      SortedMembers(Handled(stamped, language), code);
      HandledIs(nodes, language, size, code);
    }
  }

  /** Does some logical document carry this language code? */
  predicate Carried(nodes: Nodes, code: string) {
    code != "" && exists id :: id in nodes && nodes[id].logical && nodes[id].language == Some(code)
  }

  lemma HandledIs(nodes: Nodes, language: string, size: nat, code: string)
    ensures code in Handled(StampEvery(nodes, language, size), language) <==> code == language || Carried(nodes, code)
  {
    var stamped := StampEvery(nodes, language, size);
    if id :| id in nodes && nodes[id].logical && nodes[id].language == Some(code) {
      assert stamped[id] == nodes[id];
    }
  }

  lemma SortedMembers(codes: set<string>, code: string)
    ensures code in Sorted(codes) <==> code in codes
  {
    SortedAscending(codes);
  }

  /** Does the run as a whole deal with this node? */
  predicate Dealt(nodes: Nodes, language: string, size: nat, id: string)
    requires id in nodes
  {
    var n := StampEvery(nodes, language, size)[id];
    n.language.Some? && n.language.value in Handled(StampEvery(nodes, language, size), language)
  }

  /** After the whole run every node of a handled language follows the ingest rule, if and only if every one was
      mendable, by the rule of the language it has or is stamped with. */
  lemma BackfillConvergesIff(nodes: Nodes, language: string, profiles: string -> Profile, size: nat)
    ensures var stamped, after := StampEvery(nodes, language, size), Backfilled(nodes, language, profiles, size);
            && after.Keys == stamped.Keys == nodes.Keys
            && (forall id | id in nodes :: after[id].language == stamped[id].language)
            && ((forall id | id in nodes && Dealt(nodes, language, size, id) ::
                   FollowsRule(after[id], profiles(stamped[id].language.value))) <==>
                (forall id | id in nodes && Dealt(nodes, language, size, id) ::
                   Mendable(id, stamped[id], profiles(stamped[id].language.value), size)))
  {
    hide Backfilled, Mendable, FollowsRule, Mended, Handled;
    var stamped, after := StampEvery(nodes, language, size), Backfilled(nodes, language, profiles, size);
    BackfilledKeys(nodes, language, profiles, size);
    forall id | id in nodes
      ensures after[id].language == stamped[id].language
      ensures Dealt(nodes, language, size, id) ==>
                var p := profiles(stamped[id].language.value);
                FollowsRule(after[id], p) <==> Mendable(id, stamped[id], p, size)
    {
      BackfilledAt(nodes, language, profiles, size, id);
      if stamped[id].language.Some? {
        MendedFollowsRule(id, stamped[id], profiles(stamped[id].language.value), size);
      }
    }
  }

  /** A stamped state stays stamped, and handles the same languages. */
  lemma StampedAgain(nodes: Nodes, after: Nodes, language: string, size: nat)
    requires var stamped := StampEvery(nodes, language, size);
             after.Keys == stamped.Keys &&
             forall id | id in after ::
               after[id].language == stamped[id].language && after[id].logical == stamped[id].logical
    ensures StampEvery(after, language, size) == after
    ensures Handled(after, language) == Handled(StampEvery(nodes, language, size), language)
  {
    if size >= 1 {
      assert Unstamped(after) == {};
    }
    var stamped := StampEvery(nodes, language, size);
    assert forall id | id in stamped :: id in after;
    assert Handled(after, language) == Handled(stamped, language);
  }

  /** A second run changes nothing, from any state and with any batch size. */
  lemma BackfillIdempotent(nodes: Nodes, language: string, profiles: string -> Profile, size: nat)
    ensures var once := Backfilled(nodes, language, profiles, size); Backfilled(once, language, profiles, size) == once
  {
    hide Backfilled, Mended, Handled, StampEvery;
    var stamped, once := StampEvery(nodes, language, size), Backfilled(nodes, language, profiles, size);
    var twice := Backfilled(once, language, profiles, size);
    BackfilledKeys(nodes, language, profiles, size);
    BackfilledKeys(once, language, profiles, size);
    StampKeys(nodes, language, size);
    forall id | id in once
      ensures once[id].language == stamped[id].language && once[id].logical == stamped[id].logical
    {
      BackfilledAt(nodes, language, profiles, size, id);
      if stamped[id].language.Some? {
        MendedFollowsRule(id, stamped[id], profiles(stamped[id].language.value), size);
      }
    }
    StampedAgain(nodes, once, language, size);
    forall id | id in once
      ensures twice[id] == once[id]
    {
      BackfilledAt(nodes, language, profiles, size, id);
      BackfilledAt(once, language, profiles, size, id);
      if stamped[id].language.Some? {
        MendedFollowsRule(id, stamped[id], profiles(stamped[id].language.value), size);
      }
    }
    NodesEqual(twice, once);
  }

  lemma StampKeys(nodes: Nodes, language: string, size: nat)
    ensures StampEvery(nodes, language, size).Keys == nodes.Keys
  {
  }
}
