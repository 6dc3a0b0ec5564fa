/** The daily JSONL audit log and its query (src/shared/audit/store.py). */
module AuditStore {
  import opened Text

  /** An event; `rest` is the text of every other value: role, request, resource, action, result, reason and metadata.
      */
  datatype Event = Event(eventId: string, ts: string, eventType: string, userId: string, tenantId: string, rest: string)

  /** A line of a file as the query reads it back. */
  datatype Line = Blank | Parsed(event: Event) | Corrupt

  datatype File = Unreadable | Lines(lines: seq<Line>)

  /** Files by name. */
  type Directory = map<string, File>

  datatype Filter = Filter(
    userId: Option<string>,
    tenantId: Option<string>,
    eventType: Option<string>,
    since: Option<string>,
    until: Option<string>)

  /** What `str.splitlines` cuts at although the JSON encoder leaves it unescaped when it keeps non-ASCII text. */
  predicate IsBreak(c: char) {
    c as int == 0x85 || c as int == 0x2028 || c as int == 0x2029
  }

  function Breaks(s: string): nat {
    if s == "" then 0 else (if IsBreak(s[0]) then 1 else 0) + Breaks(s[1..])
  }

  function BreaksIn(e: Event): nat {
    Breaks(e.eventId) + Breaks(e.ts) + Breaks(e.eventType) + Breaks(e.userId) + Breaks(e.tenantId) + Breaks(e.rest)
  }

  /** The lines that one recorded event reads back as. A cut inside a value leaves the quotation marks of the last piece
      unbalanced, so it never parses; the pieces before it are never reached, because lines are read last first. */
  function LinesOf(e: Event): seq<Line> {
    if BreaksIn(e) == 0 then [Parsed(e)] else seq(BreaksIn(e) + 1, i => Corrupt)
  }

  const SUFFIX := ".jsonl"

  function FileName(day: string): string {
    day + SUFFIX
  }

  /** `path.stem` of a `*.jsonl` file. */
  function Stem(name: string): string {
    if |name| < |SUFFIX| then name else name[..|name| - |SUFFIX|]
  }

  /** `_matches`. */
  predicate Matches(e: Event, f: Filter) {
    && (f.userId.Some? ==> e.userId == f.userId.value)
    && (f.tenantId.Some? ==> e.tenantId == f.tenantId.value)
    && (f.eventType.Some? ==> e.eventType == f.eventType.value)
    && (f.since.Some? ==> !Less(e.ts, f.since.value))
    && (f.until.Some? ==> !Less(f.until.value, e.ts))
  }

  /** The file prune: is this day entirely outside the requested range? */
  predicate Skipped(day: string, f: Filter) {
    || (f.since.Some? && Less(day, Take(f.since.value, 10)))
    || (f.until.Some? && Less(Take(f.until.value, 10), day))
  }

  /** The events a query reads from a file: last line first, up to a line that does not parse. */
  function Read(lines: seq<Line>): seq<Event> {
    if lines == [] then []
    else match lines[|lines| - 1]
      case Blank => Read(lines[..|lines| - 1])
      case Parsed(e) => [e] + Read(lines[..|lines| - 1])
      case Corrupt => []
  }

  function ReadFile(file: File): seq<Event> {
    match file case Unreadable => [] case Lines(lines) => Read(lines)
  }

  function Filtered(es: seq<Event>, f: Filter): seq<Event> {
    if es == [] then [] else (if Matches(es[0], f) then [es[0]] else []) + Filtered(es[1..], f)
  }

  /** Every event of the given files, in reading order. */
  function ReadAll(dir: Directory, names: seq<string>): seq<Event>
    requires forall n | n in names :: n in dir
  {
    if names == [] then [] else ReadFile(dir[names[0]]) + ReadAll(dir, names[1..])
  }

  /** The matches of the given files with pruned files left out, without a limit. */
  function Pruned(dir: Directory, names: seq<string>, f: Filter): seq<Event>
    requires forall n | n in names :: n in dir
  {
    if names == [] then []
    else FileMatches(Stem(names[0]), dir[names[0]], f) + Pruned(dir, names[1..], f)
  }

  function FileMatches(day: string, file: File, f: Filter): seq<Event> {
    if Skipped(day, f) then [] else Filtered(ReadFile(file), f)
  }

  function First(es: seq<Event>, n: nat): seq<Event> {
    if |es| <= n then es else es[..n]
  }

  function Reversed(q: seq<string>): (r: seq<string>)
    ensures forall x :: x in r <==> x in q
  {
    if q == [] then [] else assert q == [q[0]] + q[1..]; Reversed(q[1..]) + [q[0]]
  }

  /** The newest `retainDays` file names, newest first. */
  function Retained(dir: Directory, retainDays: nat): (names: seq<string>)
    ensures forall n | n in names :: n in dir
  {
    var all := Reversed(Sorted(dir.Keys));
    if |all| <= retainDays then all else all[..retainDays]
  }

  class JsonlAuditStore {
    var dir: Directory
    const retainDays: nat

    constructor (retainDays: int)
      ensures dir == map[] && this.retainDays == if retainDays < 1 then 1 else retainDays
    {
      dir := map[];
      this.retainDays := if retainDays < 1 then 1 else retainDays;
    }

    /** Append one event to the file of its day; an event without a timestamp goes to today's file. */
    method Record(event: Event, now: string)
      modifies this
      ensures dir == Recorded(old(dir), event, now)
    {
      var name := FileName(Take(if event.ts != "" then event.ts else now, 10));
      if name in dir && dir[name].Lines? {
        dir := dir[name := Lines(dir[name].lines + LinesOf(event))];
      } else if name !in dir {
        dir := dir[name := Lines(LinesOf(event))];
      }
    }

    /** The query, with its day prune and early return: the first `limit` pruned matches. A limit below one acts as one.
        */
    method Query(f: Filter, limit: int) returns (matched: seq<Event>)
      ensures matched == First(Pruned(dir, Retained(dir, retainDays), f), AtLeastOne(limit))
    {
      var files := Retained(dir, retainDays);
      matched := ScanFiles(dir, files, f, limit);
    }
  }

  /** The outer loop over the retained files. */
  method ScanFiles(dir: Directory, files: seq<string>, f: Filter, limit: int) returns (matched: seq<Event>)
    requires forall n | n in files :: n in dir
    ensures matched == First(Pruned(dir, files, f), AtLeastOne(limit))
  {
    matched := [];
    ghost var all := Pruned(dir, files, f);
    for n := 0 to |files|
      invariant |matched| < AtLeastOne(limit)
      invariant all == matched + Pruned(dir, files[n..], f)
    {
      ghost var later := Pruned(dir, files[n + 1..], f);
      ghost var upTo := matched + FileMatches(Stem(files[n]), dir[files[n]], f);
      PrunedFrom(dir, files, n, f);
      assert all == upTo + later;
      var full;
      matched, full := ScanFile(Stem(files[n]), dir[files[n]], f, limit, matched);
      if full {
        FirstOfPrefix(upTo, later, AtLeastOne(limit));
        return;
      }
    }
  }

  lemma PrunedFrom(dir: Directory, files: seq<string>, n: nat, f: Filter)
    requires n < |files| && forall x | x in files :: x in dir
    ensures Pruned(dir, files[n..], f) == FileMatches(Stem(files[n]), dir[files[n]], f) + Pruned(dir, files[n + 1..], f)
  {
    assert files[n..][1..] == files[n + 1..];
  }

  lemma FirstOfPrefix(a: seq<Event>, b: seq<Event>, n: nat)
    requires |a| >= n
    ensures First(a + b, n) == First(a, n)
  {
  }

  /** One file: skipped by its day, unreadable, or scanned. */
  method ScanFile(day: string, file: File, f: Filter, limit: int, before: seq<Event>)
    returns (matched: seq<Event>, full: bool)
    requires |before| < AtLeastOne(limit)
    ensures matched == First(before + FileMatches(day, file, f), AtLeastOne(limit))
    ensures full <==> |before + FileMatches(day, file, f)| >= AtLeastOne(limit)
  {
    if f.since.Some? && Less(day, Take(f.since.value, 10)) {
      return before, false;
    }
    if f.until.Some? && Less(Take(f.until.value, 10), day) {
      return before, false;
    }
    match file
    case Unreadable => return before, false;
    case Lines(lines) => matched, full := ScanLines(lines, f, limit, before);
  }

  function AtLeastOne(limit: int): nat {
    if limit < 1 then 1 else limit
  }

  /** The inner loop: one file's lines, last first, until enough matches are found or a line does not parse. */
  method ScanLines(lines: seq<Line>, f: Filter, limit: int, before: seq<Event>)
    returns (matched: seq<Event>, full: bool)
    requires |before| < AtLeastOne(limit)
    ensures matched == First(before + Filtered(Read(lines), f), AtLeastOne(limit))
    ensures full <==> |before + Filtered(Read(lines), f)| >= AtLeastOne(limit)
  {
    matched := before;
    ghost var all := before + Filtered(Read(lines), f);
    var i := |lines|;
    assert lines[..i] == lines;
    while i > 0
      invariant 0 <= i <= |lines| && |matched| < AtLeastOne(limit)
      invariant all == matched + Filtered(Read(lines[..i]), f)
    {
      ghost var rest := lines[..i];
      i := i - 1;
      assert rest[..i] == lines[..i];
      match lines[i]
      case Blank =>
      case Corrupt =>
        return matched, false;
      case Parsed(event) =>
        ghost var tail := Filtered(Read(lines[..i]), f);
        FilteredCons(event, Read(lines[..i]), f);
        if Matches(event, f) {
          assert all == (matched + [event]) + tail;
          matched := matched + [event];
          if |matched| >= limit {
            assert all[..|matched|] == matched;
            return matched, true;
          }
        }
    }
    full := false;
  }

  lemma FilteredCons(e: Event, es: seq<Event>, f: Filter)
    ensures Filtered([e] + es, f) == (if Matches(e, f) then [e] else []) + Filtered(es, f)
  {
    assert ([e] + es)[1..] == es;
  }

  /** `_path_for_ts`. */
  function NameFor(event: Event, now: string): string {
    FileName(Take(if event.ts != "" then event.ts else now, 10))
  }

  /** An event is filed under the first ten characters of its timestamp, or of the present time without one. */
  lemma FiledByDay(event: Event, now: string, day: string, rest: string)
    requires day + rest == (if event.ts == "" then now else event.ts) && (|day| == 10 || (|day| < 10 && rest == ""))
    ensures NameFor(event, now) == day + ".jsonl"
  {
    assert |day| == 10 ==> (day + rest)[..10] == day;
  }

  /** What recording an event does to the directory. */
  function Recorded(dir: Directory, event: Event, now: string): Directory {
    var name := NameFor(event, now);
    if name !in dir then dir[name := Lines(LinesOf(event))]
    else match dir[name]
      case Unreadable => dir
      case Lines(lines) => dir[name := Lines(lines + LinesOf(event))]
  }

  // ---- pruning by day ---------------------------------------------------------------------------------------------

  /** The reference: every event the retained files hold, filtered. */
  function Unpruned(dir: Directory, names: seq<string>, f: Filter): seq<Event>
    requires forall n | n in names :: n in dir
  {
    Filtered(ReadAll(dir, names), f)
  }

  /** Every timestamped event is in the file of its own day; file names carry a non-empty day. */
  ghost predicate WellFiled(dir: Directory) {
    forall n | n in dir ::
      && n == FileName(Stem(n)) && Stem(n) != ""
      && (dir[n].Lines? ==>
          forall l | l in dir[n].lines && l.Parsed? && l.event.ts != "" :: Take(l.event.ts, 10) == Stem(n))
  }

  /** Recording keeps the log well filed, on any clock that says anything. */
  lemma RecordedWellFiled(dir: Directory, event: Event, now: string)
    requires WellFiled(dir) && now != ""
    ensures WellFiled(Recorded(dir, event, now))
  {
    hide LinesOf, Stem, FileName;
    var day := Take(if event.ts != "" then event.ts else now, 10);
    StemOf(day);
    OnlyItself(event);
  }

  lemma StemOf(day: string)
    ensures Stem(FileName(day)) == day
  {
  }

  /** The only event a recorded event can read back as is itself. */
  lemma OnlyItself(e: Event)
    ensures forall l | l in LinesOf(e) && l.Parsed? :: l.event == e
  {
    hide BreaksIn;
  }

  lemma {:induction false} FilteredAppend(a: seq<Event>, b: seq<Event>, f: Filter)
    ensures Filtered(a + b, f) == Filtered(a, f) + Filtered(b, f)
  {
    if a == [] {
      assert a + b == b;
    } else {
      assert (a + b)[1..] == a[1..] + b;
      FilteredAppend(a[1..], b, f);
    }
  }

  lemma {:induction false} FilteredIn(es: seq<Event>, f: Filter, e: Event)
    ensures e in Filtered(es, f) <==> e in es && Matches(e, f)
  {
    if es != [] {
      assert es == [es[0]] + es[1..];
      FilteredIn(es[1..], f, e);
    }
  }

  lemma FilteredNone(es: seq<Event>, f: Filter)
    requires forall e | e in es :: !Matches(e, f)
    ensures Filtered(es, f) == []
  {
    if Filtered(es, f) != [] {
      FilteredIn(es, f, Filtered(es, f)[0]);
    }
  }

  lemma {:induction false} ReadIn(lines: seq<Line>, e: Event)
    requires e in Read(lines)
    ensures Parsed(e) in lines
  {
    var init := lines[..|lines| - 1];
    assert lines == init + [lines[|lines| - 1]];
    if lines[|lines| - 1] != Parsed(e) {
      ReadIn(init, e);
    }
  }

  /** Ten-character prefixes soundly bound full timestamps: a skipped day holds no match. */
  lemma PruneSound(e: Event, f: Filter)
    requires Skipped(Take(e.ts, 10), f)
    ensures !Matches(e, f)
  {
    if f.since.Some? && Less(Take(e.ts, 10), Take(f.since.value, 10)) {
      PrefixOrderBounds(e.ts, f.since.value, 10);
    } else {
      PrefixOrderBounds(f.until.value, e.ts, 10);
    }
  }

  lemma FileMatchesExact(dir: Directory, name: string, f: Filter)
    requires WellFiled(dir) && name in dir
    requires forall e | e in ReadFile(dir[name]) :: e.ts != ""
    ensures FileMatches(Stem(name), dir[name], f) == Filtered(ReadFile(dir[name]), f)
  {
    if Skipped(Stem(name), f) {
      forall e | e in ReadFile(dir[name])
        ensures !Matches(e, f)
      {
        ReadIn(dir[name].lines, e);
        PruneSound(e, f);
      }
      FilteredNone(ReadFile(dir[name]), f);
    }
  }

  lemma {:induction false} PrunedExact(dir: Directory, names: seq<string>, f: Filter)
    requires WellFiled(dir) && forall n | n in names :: n in dir
    requires forall e | e in ReadAll(dir, names) :: e.ts != ""
    ensures Pruned(dir, names, f) == Unpruned(dir, names, f)
  {
    if names != [] {
      FileMatchesExact(dir, names[0], f);
      PrunedExact(dir, names[1..], f);
      FilteredAppend(ReadFile(dir[names[0]]), ReadAll(dir, names[1..]), f);
    }
  }

  const UNTIL_NOTHING := Filter(None, None, None, None, Some(""))

  /** With an empty upper bound every file is skipped, while an event without a timestamp still matches. */
  lemma {:induction false} PrunedEmpty(dir: Directory, names: seq<string>)
    requires WellFiled(dir) && forall n | n in names :: n in dir
    ensures Pruned(dir, names, UNTIL_NOTHING) == []
  {
    if names != [] {
      PrunedEmpty(dir, names[1..]);
      assert Less("", Stem(names[0]));
    }
  }

  /** Day pruning agrees with the unpruned filter for every filter exactly when no retained event lacks a timestamp. */
  lemma PruningExactIffTimestamped(dir: Directory, names: seq<string>)
    requires WellFiled(dir) && forall n | n in names :: n in dir
    ensures (forall f :: Pruned(dir, names, f) == Unpruned(dir, names, f)) <==>
            (forall e | e in ReadAll(dir, names) :: e.ts != "")
  {
    if forall e | e in ReadAll(dir, names) :: e.ts != "" {
      forall f
        ensures Pruned(dir, names, f) == Unpruned(dir, names, f)
      {
        PrunedExact(dir, names, f);
      }
    } else {
      var e :| e in ReadAll(dir, names) && e.ts == "";
      FilteredIn(ReadAll(dir, names), UNTIL_NOTHING, e);
      PrunedEmpty(dir, names);
      assert Pruned(dir, names, UNTIL_NOTHING) != Unpruned(dir, names, UNTIL_NOTHING);
    }
  }

  /** The query a caller sees: the first `limit` matches of the whole retained log, newest file and last line first. */
  lemma QueryIsFirstMatches(dir: Directory, retainDays: nat, f: Filter, limit: int)
    requires WellFiled(dir) && forall e | e in ReadAll(dir, Retained(dir, retainDays)) :: e.ts != ""
    ensures First(Pruned(dir, Retained(dir, retainDays), f), AtLeastOne(limit)) ==
            First(Unpruned(dir, Retained(dir, retainDays), f), AtLeastOne(limit))
  {
    PrunedExact(dir, Retained(dir, retainDays), f);
  }

  ghost predicate Descending(q: seq<string>) {
    forall i, j | 0 <= i < j < |q| :: Less(q[j], q[i])
  }

  lemma AllDescending(dir: Directory)
    ensures var all := Reversed(Sorted(dir.Keys)); Descending(all) && |all| == |dir|
  {
    var q := Sorted(dir.Keys);
    SortedAscending(dir.Keys);
    ReversedAt(q);
  }

  lemma PrefixDescending(all: seq<string>, n: nat)
    requires Descending(all) && n <= |all|
    ensures Descending(all[..n])
    ensures forall x, k | x in all && x !in all[..n] && k in all[..n] :: Less(x, k)
  {
    forall x, k | x in all && x !in all[..n] && k in all[..n]
      ensures Less(x, k)
    {
      var i :| 0 <= i < |all| && all[i] == x;
      var j :| 0 <= j < n && all[..n][j] == k;
    }
  }

  /** Newest first: retained names decrease, and every name left out is older than every name kept. */
  lemma RetainedNewestFirst(dir: Directory, retainDays: nat)
    ensures var kept := Retained(dir, retainDays);
            && |kept| == (if |dir| < retainDays then |dir| else retainDays)
            && Descending(kept)
            && (forall n, k | n in dir && n !in kept && k in kept :: Less(n, k))
  {
    hide Text.Sorted, Text.Less;
    var all := Reversed(Sorted(dir.Keys));
    AllDescending(dir);
    PrefixDescending(all, if |all| <= retainDays then |all| else retainDays);
    assert all[..|all|] == all;
    assert forall n | n in dir :: n in all;
  }

  lemma {:induction false} ReversedAt(q: seq<string>)
    ensures |Reversed(q)| == |q| && forall i | 0 <= i < |q| :: Reversed(q)[i] == q[|q| - 1 - i]
  {
    if q != [] {
      ReversedAt(q[1..]);
    }
  }

  // ---- from the recorded events to the answer ----------------------------------------------------------------------

  /** A `record` call: the event, and the clock. */
  type Call = (Event, string)

  /** The directory after a run of `record` calls, from empty. */
  function RunLog(calls: seq<Call>): Directory {
    if calls == [] then map[] else Recorded(RunLog(calls[..|calls| - 1]), calls[|calls| - 1].0, calls[|calls| - 1].1)
  }

  /** The events recorded into one file, newest first. */
  function FiledUnder(calls: seq<Call>, name: string): seq<Event> {
    if calls == [] then []
    else
      var (e, now) := calls[|calls| - 1];
      (if NameFor(e, now) == name then [e] else []) + FiledUnder(calls[..|calls| - 1], name)
  }

  /** The events recorded into the given files. */
  function FiledAmong(calls: seq<Call>, names: seq<string>): seq<Event> {
    if names == [] then [] else FiledUnder(calls, names[0]) + FiledAmong(calls, names[1..])
  }

  /** The newest events, up to one that holds a break. */
  function UpToBreak(es: seq<Event>): seq<Event> {
    if es == [] || BreaksIn(es[0]) > 0 then [] else [es[0]] + UpToBreak(es[1..])
  }

  lemma ReadAppend(lines: seq<Line>, e: Event)
    ensures Read(lines + LinesOf(e)) == if BreaksIn(e) > 0 then [] else [e] + Read(lines)
  {
    var all := lines + LinesOf(e);
    if BreaksIn(e) == 0 {
      assert all[..|all| - 1] == lines;
    }
  }

  /** A file holds exactly the events recorded into it, but reads back only those newer than its last break. */
  ghost predicate ReadsBack(dir: Directory, name: string, es: seq<Event>) {
    (name in dir <==> es != []) && (name in dir ==> dir[name].Lines? && Read(dir[name].lines) == UpToBreak(es))
  }

  lemma ReadsOneMore(dir: Directory, name: string, es: seq<Event>, e: Event, now: string)
    requires ReadsBack(dir, name, es)
    ensures ReadsBack(Recorded(dir, e, now), name, (if NameFor(e, now) == name then [e] else []) + es)
  {
    hide NameFor, LinesOf, BreaksIn;
    if NameFor(e, now) == name {
      var before := if name in dir then dir[name].lines else [];
      assert [] + LinesOf(e) == LinesOf(e);
      assert Recorded(dir, e, now)[name] == Lines(before + LinesOf(e));
      assert ([e] + es)[1..] == es;
      ReadAppend(before, e);
    } else {
      assert [] + es == es;
    }
  }

  lemma {:induction false} ReadsUpToBreak(calls: seq<Call>, name: string)
    ensures ReadsBack(RunLog(calls), name, FiledUnder(calls, name))
  {
    if calls != [] {
      hide ReadsBack, NameFor, Recorded;
      var init, c := calls[..|calls| - 1], calls[|calls| - 1];
      ReadsUpToBreak(init, name);
      ReadsOneMore(RunLog(init), name, FiledUnder(init, name), c.0, c.1);
    }
  }

  lemma {:induction false} RunWellFiled(calls: seq<Call>)
    requires forall c | c in calls :: c.1 != ""
    ensures WellFiled(RunLog(calls))
  {
    if calls != [] {
      var init, c := calls[..|calls| - 1], calls[|calls| - 1];
      assert calls == init + [c];
      RunWellFiled(init);
      RecordedWellFiled(RunLog(init), c.0, c.1);
    }
  }

  lemma {:induction false} UpToBreakFacts(es: seq<Event>)
    ensures forall e | e in UpToBreak(es) :: e in es && BreaksIn(e) == 0
    ensures (forall e | e in es :: BreaksIn(e) == 0) ==> UpToBreak(es) == es
  {
    hide BreaksIn;
    if es != [] {
      assert es == [es[0]] + es[1..];
      UpToBreakFacts(es[1..]);
    }
  }

  /** Reading all the files gives recorded events without breaks, and all of them when none has one. */
  lemma {:induction false} ReadAllFacts(calls: seq<Call>, names: seq<string>)
    requires forall n | n in names :: n in RunLog(calls)
    ensures forall e | e in ReadAll(RunLog(calls), names) :: BreaksIn(e) == 0
    ensures (forall e | e in FiledAmong(calls, names) :: BreaksIn(e) == 0) ==>
              ReadAll(RunLog(calls), names) == FiledAmong(calls, names)
  {
    hide BreaksIn, RunLog, FiledUnder;
    if names != [] {
      ReadAllFacts(calls, names[1..]);
      ReadsUpToBreak(calls, names[0]);
      UpToBreakFacts(FiledUnder(calls, names[0]));
    }
  }

  const EVERYTHING := Filter(None, None, None, None, None)

  /** Without any restriction nothing is skipped and everything matches. */
  lemma {:induction false} EverythingIsAll(dir: Directory, names: seq<string>)
    requires forall n | n in names :: n in dir
    ensures Pruned(dir, names, EVERYTHING) == ReadAll(dir, names)
  {
    if names != [] {
      EverythingIsAll(dir, names[1..]);
      EverythingMatches(ReadFile(dir[names[0]]));
    }
  }

  lemma {:induction false} EverythingMatches(es: seq<Event>)
    ensures Filtered(es, EVERYTHING) == es
  {
    if es != [] {
      EverythingMatches(es[1..]);
    }
  }

  lemma FirstIn(es: seq<Event>, n: nat, e: Event)
    requires e in First(es, n)
    ensures e in es
  {
  }

  /** What a query answers over a run, and what the recorded events call for. */
  function Answer(calls: seq<Call>, retainDays: nat, f: Filter, limit: int): seq<Event> {
    First(Pruned(RunLog(calls), Retained(RunLog(calls), retainDays), f), AtLeastOne(limit))
  }

  function Expected(calls: seq<Call>, retainDays: nat, f: Filter, limit: int): seq<Event> {
    First(Filtered(FiledAmong(calls, Retained(RunLog(calls), retainDays)), f), AtLeastOne(limit))
  }

  /** An event that the log can give back: it has a timestamp to be pruned by, and nothing that cuts its line. */
  predicate Recoverable(e: Event) {
    e.ts != "" && BreaksIn(e) == 0
  }

  /** The text of an event's values, end to end. */
  function TextOf(e: Event): string {
    e.eventId + e.ts + e.eventType + e.userId + e.tenantId + e.rest
  }

  /** Only NEL and the line and paragraph separators cut. */
  lemma {:induction false} BreaksAppend(a: string, b: string)
    ensures Breaks(a + b) == Breaks(a) + Breaks(b)
  {
    if a == "" {
      assert a + b == b;
    } else {
      assert (a + b)[1..] == a[1..] + b;
      BreaksAppend(a[1..], b);
    }
  }

  lemma {:induction false} NoBreaks(s: string)
    ensures Breaks(s) == 0 <==> forall c | c in s :: c as int !in {0x85, 0x2028, 0x2029}
  {
    if s == "" {
    } else {
      assert forall c :: c in s <==> c == s[0] || c in s[1..] by {
        assert s == [s[0]] + s[1..];
      }
      NoBreaks(s[1..]);
      assert s[0] in s;
      assert IsBreak(s[0]) <==> s[0] as int in {0x85, 0x2028, 0x2029};
      if Breaks(s) != 0 && !IsBreak(s[0]) {
        var c :| c in s[1..] && c as int in {0x85, 0x2028, 0x2029};
        assert c in s;
      }
    }
  }

  lemma BreaksInText(e: Event)
    ensures BreaksIn(e) == Breaks(TextOf(e))
  {
    BreaksAppend(e.eventId + e.ts + e.eventType + e.userId + e.tenantId, e.rest);
    BreaksAppend(e.eventId + e.ts + e.eventType + e.userId, e.tenantId);
    BreaksAppend(e.eventId + e.ts + e.eventType, e.userId);
    BreaksAppend(e.eventId + e.ts, e.eventType);
    BreaksAppend(e.eventId, e.ts);
  }

  /** Which events come back, by their text: those with a timestamp and none of the three separators in any value. Any
      other event with a timestamp comes back as lines that do not parse, one more than it has separators. */
  lemma RecoverableIff(e: Event)
    ensures Recoverable(e) <==> e.ts != "" && forall c | c in TextOf(e) :: c as int !in {0x85, 0x2028, 0x2029}
    ensures if forall c | c in TextOf(e) :: c as int !in {0x85, 0x2028, 0x2029} then LinesOf(e) == [Parsed(e)]
            else |LinesOf(e)| == Breaks(TextOf(e)) + 1 && forall line | line in LinesOf(e) :: line == Corrupt
  {
    hide Breaks, TextOf;
    BreaksInText(e);
    NoBreaks(TextOf(e));
  }

  lemma UntimedMissed(calls: seq<Call>, retainDays: nat, e: Event)
    requires (forall c | c in calls :: c.1 != "") && e in FiledAmong(calls, Retained(RunLog(calls), retainDays))
             && e.ts == ""
    ensures Answer(calls, retainDays, UNTIL_NOTHING, 1) != Expected(calls, retainDays, UNTIL_NOTHING, 1)
  {
    hide WellFiled, RunLog, Retained, FiledAmong;
    RunWellFiled(calls);
    var names := Retained(RunLog(calls), retainDays);
    FilteredIn(FiledAmong(calls, names), UNTIL_NOTHING, e);
    PrunedEmpty(RunLog(calls), names);
  }

  lemma BrokenMissed(calls: seq<Call>, retainDays: nat, e: Event)
    requires e in FiledAmong(calls, Retained(RunLog(calls), retainDays)) && BreaksIn(e) > 0
    ensures var limit := |FiledAmong(calls, Retained(RunLog(calls), retainDays))| + 1;
            Answer(calls, retainDays, EVERYTHING, limit) != Expected(calls, retainDays, EVERYTHING, limit)
  {
    hide RunLog, Retained, FiledAmong, BreaksIn, Answer, Expected;
    var limit := |FiledAmong(calls, Retained(RunLog(calls), retainDays))| + 1;
    AnswersUnbroken(calls, retainDays, limit);
    ExpectsAll(calls, retainDays, limit);
  }

  lemma AnswersUnbroken(calls: seq<Call>, retainDays: nat, limit: nat)
    requires limit >= 1
    ensures forall e | e in Answer(calls, retainDays, EVERYTHING, limit) :: BreaksIn(e) == 0
  {
    hide RunLog, Retained, BreaksIn, Pruned, ReadAll;
    var names := Retained(RunLog(calls), retainDays);
    EverythingIsAll(RunLog(calls), names);
    ReadAllFacts(calls, names);
    forall e | e in Answer(calls, retainDays, EVERYTHING, limit)
      ensures BreaksIn(e) == 0
    {
      FirstIn(ReadAll(RunLog(calls), names), limit, e);
    }
  }

  lemma ExpectsAll(calls: seq<Call>, retainDays: nat, limit: nat)
    requires limit >= 1 && |FiledAmong(calls, Retained(RunLog(calls), retainDays))| <= limit
    ensures Expected(calls, retainDays, EVERYTHING, limit) == FiledAmong(calls, Retained(RunLog(calls), retainDays))
  {
    hide RunLog, Retained, FiledAmong, Filtered;
    EverythingMatches(FiledAmong(calls, Retained(RunLog(calls), retainDays)));
  }

  /** Over any run of recordings, every query with every limit gives the first matches of the retained recorded events,
      newest file and last recorded first, if and only if each of those events has a timestamp and none holds a break.
      */
  lemma LogExactIffRecoverable(calls: seq<Call>, retainDays: nat)
    requires forall c | c in calls :: c.1 != ""
    ensures (forall f, limit :: Answer(calls, retainDays, f, limit) == Expected(calls, retainDays, f, limit)) <==>
            (forall e | e in FiledAmong(calls, Retained(RunLog(calls), retainDays)) :: Recoverable(e))
  {
    hide RunLog, Retained, FiledAmong, BreaksIn, WellFiled, ReadAll, Pruned, Filtered;
    var dir := RunLog(calls);
    var names := Retained(dir, retainDays);
    RunWellFiled(calls);
    if forall e | e in FiledAmong(calls, names) :: Recoverable(e) {
      ReadAllFacts(calls, names);
      forall f, limit
        ensures Answer(calls, retainDays, f, limit) == Expected(calls, retainDays, f, limit)
      {
        PrunedExact(dir, names, f);
      }
    } else {
      var e :| e in FiledAmong(calls, names) && !Recoverable(e);
      if e.ts == "" {
        UntimedMissed(calls, retainDays, e);
      } else {
        BrokenMissed(calls, retainDays, e);
      }
    }
  }

  lemma FileThere(calls: seq<Call>, name: string, n: string)
    requires calls != [] && forall c | c in calls :: NameFor(c.0, c.1) == name
    ensures n in RunLog(calls) <==> n == name
  {
    hide RunLog, NameFor, UpToBreak;
    ReadsUpToBreak(calls, n);
    FiledHere(calls, name);
    if n != name {
      FiledElsewhere(calls, name, n);
    }
  }

  lemma OneRetained(dir: Directory, name: string, retainDays: nat)
    requires dir.Keys == {name} && retainDays >= 1
    ensures Retained(dir, retainDays) == [name]
  {
    hide Retained;
    RetainedNewestFirst(dir, retainDays);
    assert |dir.Keys| == 1;
    assert Retained(dir, retainDays)[0] in Retained(dir, retainDays);
  }

  lemma FiledAmongOne(calls: seq<Call>, name: string)
    ensures FiledAmong(calls, [name]) == FiledUnder(calls, name)
  {
    hide FiledUnder;
    assert [name][1..] == [] && FiledUnder(calls, name) + [] == FiledUnder(calls, name);
  }

  /** When everything was recorded into one file, that file is what is retained. */
  lemma OneFile(calls: seq<Call>, name: string, retainDays: nat)
    requires calls != [] && retainDays >= 1 && forall c | c in calls :: NameFor(c.0, c.1) == name
    ensures Retained(RunLog(calls), retainDays) == [name] && FiledAmong(calls, [name]) == FiledUnder(calls, name)
  {
    hide RunLog, Retained, NameFor, FiledUnder, FiledAmong;
    assert RunLog(calls).Keys == {name} by {
      forall n
        ensures n in RunLog(calls) <==> n == name
      {
        FileThere(calls, name, n);
      }
    }
    OneRetained(RunLog(calls), name, retainDays);
    FiledAmongOne(calls, name);
  }

  lemma FiledHere(calls: seq<Call>, name: string)
    requires calls != [] && forall c | c in calls :: NameFor(c.0, c.1) == name
    ensures FiledUnder(calls, name) != []
  {
  }

  lemma {:induction false} FiledElsewhere(calls: seq<Call>, name: string, n: string)
    requires n != name && forall c | c in calls :: NameFor(c.0, c.1) == name
    ensures FiledUnder(calls, n) == []
  {
    if calls != [] {
      hide NameFor;
      var init, c := calls[..|calls| - 1], calls[|calls| - 1];
      assert calls == init + [c] && c in calls;
      FiledElsewhere(init, name, n);
    }
  }

  /** One recorded line separator hides every older event of its day. */
  lemma BreakHidesOlder()
    ensures var older := Event("1", "2024-05-01T08:00", "query", "u", "t", "");
            var newer := Event("2", "2024-05-01T09:00", "query", "u", "t", [0x2028 as char]);
            var calls := [(older, "2024-05-01"), (newer, "2024-05-01")];
            Answer(calls, 90, EVERYTHING, 100) == [] && Expected(calls, 90, EVERYTHING, 100) == [newer, older]
  {
    var older := Event("1", "2024-05-01T08:00", "query", "u", "t", "");
    var newer := Event("2", "2024-05-01T09:00", "query", "u", "t", [0x2028 as char]);
    hide Answer, Expected, FileName, Breaks;
    assert Take(older.ts, 10) == "2024-05-01" && Take(newer.ts, 10) == "2024-05-01";
    OneBreak(0x2028 as char);
    LastBreaks([(older, "2024-05-01"), (newer, "2024-05-01")], FileName("2024-05-01"));
  }

  lemma OneBreak(c: char)
    requires IsBreak(c)
    ensures Breaks([c]) == 1
  {
    assert [c][1..] == "";
  }

  lemma LastBreaks(calls: seq<Call>, name: string)
    requires |calls| == 2 && NameFor(calls[0].0, calls[0].1) == name && NameFor(calls[1].0, calls[1].1) == name
    requires BreaksIn(calls[1].0) > 0
    ensures Answer(calls, 90, EVERYTHING, 100) == []
    ensures Expected(calls, 90, EVERYTHING, 100) == [calls[1].0, calls[0].0]
  {
    hide BreaksIn, NameFor, RunLog, Retained, Pruned, Filtered;
    var dir, es := RunLog(calls), [calls[1].0, calls[0].0];
    OneFile(calls, name, 90);
    FiledInOne(calls, name);
    ReadsUpToBreak(calls, name);
    EverythingIsAll(dir, [name]);
    EverythingMatches(es);
  }

  lemma FiledInOne(calls: seq<Call>, name: string)
    requires |calls| == 2 && NameFor(calls[0].0, calls[0].1) == name && NameFor(calls[1].0, calls[1].1) == name
    ensures FiledUnder(calls, name) == [calls[1].0, calls[0].0]
  {
    hide NameFor;
    assert calls[..1][..0] == [] && FiledUnder(calls[..1], name) == [calls[0].0];
  }

  /** An event recorded without a timestamp is lost to a query with an upper bound alone. */
  lemma UntimedIsSkipped()
    ensures var calls := [(Event("1", "", "query", "u", "t", ""), "2024-05-01T08:00")];
            Answer(calls, 90, UNTIL_NOTHING, 1) == [] && Expected(calls, 90, UNTIL_NOTHING, 1) == [calls[0].0]
  {
    var e, now := Event("1", "", "query", "u", "t", ""), "2024-05-01T08:00";
    UntimedAlone(e, now);
  }

  lemma UntimedAlone(e: Event, now: string)
    requires e.ts == "" && now != ""
    ensures Answer([(e, now)], 90, UNTIL_NOTHING, 1) == [] && Expected([(e, now)], 90, UNTIL_NOTHING, 1) == [e]
  {
    hide NameFor, RunLog, Retained, Pruned, Less, WellFiled;
    var calls, name := [(e, now)], NameFor(e, now);
    OneFile(calls, name, 90);
    RunWellFiled(calls);
    PrunedEmpty(RunLog(calls), [name]);
    assert calls[..0] == [] && FiledUnder(calls, name) == [e];
    NothingBelowEmpty(e);
    assert [e][1..] == [];
  }

  lemma NothingBelowEmpty(e: Event)
    requires e.ts == ""
    ensures Matches(e, UNTIL_NOTHING)
  {
  }

  // ---- what a query returns, on the recorded fields ----------------------------------------------------------------

  /** What is asked of an event, field by field. */
  ghost predicate Agrees(e: Event, f: Filter) {
    && (match f.userId case Some(u) => e.userId == u case None => true)
    && (match f.tenantId case Some(t) => e.tenantId == t case None => true)
    && (match f.eventType case Some(t) => e.eventType == t case None => true)
    && (match f.since case Some(s) => e.ts == s || Less(s, e.ts) case None => true)
    && (match f.until case Some(u) => e.ts == u || Less(e.ts, u) case None => true)
  }

  lemma NotBelow(a: string, b: string)
    ensures !Less(a, b) <==> a == b || Less(b, a)
  {
    LessTotal(a, b);
    if Less(b, a) {
      LessAsymmetric(b, a);
    }
    if Less(a, b) {
      LessAsymmetric(a, b);
    }
  }

  lemma MatchesIffAgrees(e: Event, f: Filter)
    ensures Matches(e, f) <==> Agrees(e, f)
  {
    hide Less;
    if f.since.Some? {
      NotBelow(e.ts, f.since.value);
    }
    if f.until.Some? {
      NotBelow(f.until.value, e.ts);
    }
  }

  lemma {:induction false} PrunedMatch(dir: Directory, names: seq<string>, f: Filter, e: Event)
    requires (forall n | n in names :: n in dir) && e in Pruned(dir, names, f)
    ensures Matches(e, f) && e in ReadAll(dir, names)
  {
    hide Matches, Skipped, ReadFile;
    if e in FileMatches(Stem(names[0]), dir[names[0]], f) {
      FilteredIn(ReadFile(dir[names[0]]), f, e);
    } else {
      PrunedMatch(dir, names[1..], f, e);
    }
  }

  lemma {:induction false} FiledIsRecorded(calls: seq<Call>, name: string, e: Event)
    ensures e in FiledUnder(calls, name) <==> exists c :: c in calls && c.0 == e && NameFor(c.0, c.1) == name
  {
    hide NameFor;
    if calls != [] {
      var init, c := calls[..|calls| - 1], calls[|calls| - 1];
      assert calls == init + [c];
      FiledIsRecorded(init, name, e);
    }
  }

  lemma {:induction false} FiledAmongIn(calls: seq<Call>, names: seq<string>, e: Event)
    ensures e in FiledAmong(calls, names) <==> exists n :: n in names && e in FiledUnder(calls, n)
  {
    hide FiledUnder;
    if names != [] {
      assert names == [names[0]] + names[1..];
      FiledAmongIn(calls, names[1..], e);
      var here := e in FiledUnder(calls, names[0]);
      assert here ==> names[0] in names;
      assert FiledAmong(calls, names) == FiledUnder(calls, names[0]) + FiledAmong(calls, names[1..]);
    }
  }

  lemma {:induction false} ReadIsFiled(calls: seq<Call>, names: seq<string>, e: Event)
    requires (forall n | n in names :: n in RunLog(calls)) && e in ReadAll(RunLog(calls), names)
    ensures e in FiledAmong(calls, names)
  {
    hide RunLog, FiledUnder, BreaksIn;
    ReadsUpToBreak(calls, names[0]);
    UpToBreakFacts(FiledUnder(calls, names[0]));
    if e !in ReadFile(RunLog(calls)[names[0]]) {
      ReadIsFiled(calls, names[1..], e);
    }
  }

  /** Recorded into a file that is retained. */
  ghost predicate Kept(calls: seq<Call>, retainDays: nat, e: Event) {
    exists c :: c in calls && c.0 == e && NameFor(c.0, c.1) in Retained(RunLog(calls), retainDays)
  }

  lemma KeptIsFiled(calls: seq<Call>, retainDays: nat, e: Event)
    ensures Kept(calls, retainDays, e) <==> e in FiledAmong(calls, Retained(RunLog(calls), retainDays))
  {
    hide RunLog, Retained, FiledUnder, FiledAmong, NameFor;
    var names := Retained(RunLog(calls), retainDays);
    FiledAmongIn(calls, names, e);
    forall n
      ensures e in FiledUnder(calls, n) <==> exists c :: c in calls && c.0 == e && NameFor(c.0, c.1) == n
    {
      FiledIsRecorded(calls, n, e);
    }
  }

  /** Whatever was recorded, a query returns only recorded events, from retained files, that agree with every field and
      lie within both bounds that were given; and never more than were asked for. */
  lemma OnlyAgreeing(calls: seq<Call>, retainDays: nat, f: Filter, limit: int, e: Event)
    ensures e in Answer(calls, retainDays, f, limit) ==> Agrees(e, f) && Kept(calls, retainDays, e)
    ensures |Answer(calls, retainDays, f, limit)| <= if limit < 1 then 1 else limit
  {
    hide RunLog, Retained, Pruned, ReadAll, FiledAmong, Matches, Agrees, Kept;
    var names := Retained(RunLog(calls), retainDays);
    if e in Answer(calls, retainDays, f, limit) {
      FirstIn(Pruned(RunLog(calls), names, f), AtLeastOne(limit), e);
      PrunedMatch(RunLog(calls), names, f, e);
      MatchesIffAgrees(e, f);
      ReadIsFiled(calls, names, e);
      KeptIsFiled(calls, retainDays, e);
    }
  }

  lemma {:induction false} FilteredLength(es: seq<Event>, f: Filter)
    ensures |Filtered(es, f)| <= |es|
  {
    if es != [] {
      FilteredLength(es[1..], f);
    }
  }

  /** And if what is kept is recoverable and the limit large enough, every kept event that agrees is returned. */
  lemma AllAgreeing(calls: seq<Call>, retainDays: nat, f: Filter, limit: int, e: Event)
    requires forall c | c in calls :: c.1 != "" && (Kept(calls, retainDays, c.0) ==> Recoverable(c.0))
    requires limit >= |calls| && Kept(calls, retainDays, e) && Agrees(e, f)
    ensures e in Answer(calls, retainDays, f, limit)
  {
    hide RunLog, Retained, FiledAmong, Matches, Agrees, Kept, Recoverable, Pruned, Filtered;
    var names := Retained(RunLog(calls), retainDays);
    var es := FiledAmong(calls, names);
    forall x | x in es
      ensures Recoverable(x)
    {
      KeptIsFiled(calls, retainDays, x);
      KeptIsCalled(calls, retainDays, x);
    }
    KeptIsFiled(calls, retainDays, e);
    MatchesIffAgrees(e, f);
    FilteredIn(es, f, e);
    FilteredLength(es, f);
    NoMoreThanCalls(calls, retainDays);
    LogExactIffRecoverable(calls, retainDays);
    assert Answer(calls, retainDays, f, limit) == Expected(calls, retainDays, f, limit);
  }

  lemma KeptIsCalled(calls: seq<Call>, retainDays: nat, e: Event)
    requires Kept(calls, retainDays, e)
    ensures exists c :: c in calls && c.0 == e
  {
  }

  // ---- and in which order ------------------------------------------------------------------------------------------

  /** The calls recorded into one file, by position, newest first. */
  function CallsUnder(calls: seq<Call>, name: string): seq<nat> {
    if calls == [] then []
    else
      (if NameFor(calls[|calls| - 1].0, calls[|calls| - 1].1) == name then [|calls| - 1] else []) +
      CallsUnder(calls[..|calls| - 1], name)
  }

  function CallsAmong(calls: seq<Call>, names: seq<string>): seq<nat> {
    if names == [] then [] else CallsUnder(calls, names[0]) + CallsAmong(calls, names[1..])
  }

  ghost predicate Lists(calls: seq<Call>, ix: seq<nat>, es: seq<Event>) {
    |ix| == |es| && forall i | 0 <= i < |ix| :: ix[i] < |calls| && calls[ix[i]].0 == es[i]
  }

  lemma {:induction false} CallsUnderListed(calls: seq<Call>, name: string)
    ensures Lists(calls, CallsUnder(calls, name), FiledUnder(calls, name))
  {
    hide NameFor;
    if calls != [] {
      var init := calls[..|calls| - 1];
      CallsUnderListed(init, name);
      ListsMore(calls, CallsUnder(init, name), FiledUnder(init, name));
      hide Lists;
    }
  }

  lemma ListsMore(calls: seq<Call>, ix: seq<nat>, es: seq<Event>)
    requires calls != [] && Lists(calls[..|calls| - 1], ix, es)
    ensures Lists(calls, [] + ix, [] + es) && Lists(calls, [|calls| - 1] + ix, [calls[|calls| - 1].0] + es)
  {
    assert forall i | 0 <= i < |ix| :: calls[ix[i]] == calls[..|calls| - 1][ix[i]];
  }

  lemma {:induction false} CallsUnderAre(calls: seq<Call>, name: string)
    ensures forall i | 0 <= i < |calls| :: i in CallsUnder(calls, name) <==> NameFor(calls[i].0, calls[i].1) == name
    ensures forall i | i in CallsUnder(calls, name) :: i < |calls|
  {
    hide NameFor;
    if calls != [] {
      CallsUnderAre(calls[..|calls| - 1], name);
    }
  }

  lemma {:induction false} CallsUnderDescend(calls: seq<Call>, name: string)
    ensures forall i, j | 0 <= i < j < |CallsUnder(calls, name)| ::
            CallsUnder(calls, name)[i] > CallsUnder(calls, name)[j]
  {
    hide NameFor;
    if calls != [] {
      var init := calls[..|calls| - 1];
      CallsUnderDescend(init, name);
      CallsUnderAre(init, name);
      var rest := CallsUnder(init, name);
      assert forall i | 0 <= i < |rest| :: rest[i] in rest;
    }
  }

  /** Newer: in a file of a later name, or later in the same file. */
  ghost predicate Newer(calls: seq<Call>, i: nat, j: nat)
    requires i < |calls| && j < |calls|
  {
    var m, n := NameFor(calls[i].0, calls[i].1), NameFor(calls[j].0, calls[j].1);
    Less(n, m) || (m == n && i > j)
  }

  /** Positions of calls, newest first. */
  ghost predicate NewestFirst(calls: seq<Call>, ix: seq<nat>) {
    && (forall i | 0 <= i < |ix| :: ix[i] < |calls|)
    && (forall i, j | 0 <= i < j < |ix| :: Newer(calls, ix[i], ix[j]))
  }

  lemma {:induction false} CallsAmongAre(calls: seq<Call>, names: seq<string>)
    requires Descending(names)
    ensures Lists(calls, CallsAmong(calls, names), FiledAmong(calls, names))
    ensures NewestFirst(calls, CallsAmong(calls, names))
    ensures forall i | 0 <= i < |calls| :: i in CallsAmong(calls, names) <==> NameFor(calls[i].0, calls[i].1) in names
  {
    hide NameFor, Less, FiledUnder, CallsUnder;
    if names != [] {
      assert names == [names[0]] + names[1..];
      CallsUnderAre(calls, names[0]);
      CallsUnderListed(calls, names[0]);
      CallsUnderDescend(calls, names[0]);
      assert Descending(names[1..]) by {
        assert forall i | 0 <= i < |names[1..]| :: names[1..][i] == names[i + 1];
      }
      CallsAmongAre(calls, names[1..]);
      var a, b := CallsUnder(calls, names[0]), CallsAmong(calls, names[1..]);
      FilesInOrder(calls, names, a, b);
    }
  }

  lemma FilesInOrder(calls: seq<Call>, names: seq<string>, a: seq<nat>, b: seq<nat>)
    requires names != [] && Descending(names) && NewestFirst(calls, b)
    requires forall i | i in a :: i < |calls| && NameFor(calls[i].0, calls[i].1) == names[0]
    requires forall i, j | 0 <= i < j < |a| :: a[i] > a[j]
    requires forall i | i in b :: i < |calls| && NameFor(calls[i].0, calls[i].1) in names[1..]
    ensures NewestFirst(calls, a + b)
  {
    hide NameFor, Less;
    forall i, j | 0 <= i < j < |a + b|
      ensures (a + b)[i] < |calls| && (a + b)[j] < |calls| && Newer(calls, (a + b)[i], (a + b)[j])
    {
      assert i < |a| ==> a[i] in a;
      assert j < |a| ==> a[j] in a;
      assert i >= |a| ==> b[i - |a|] in b;
      if j >= |a| {
        assert b[j - |a|] in b;
        var n := NameFor(calls[b[j - |a|]].0, calls[b[j - |a|]].1);
        var k :| 0 <= k < |names[1..]| && names[1..][k] == n;
        assert names[k + 1] == n;
      }
    }
    forall i | 0 <= i < |a + b|
      ensures (a + b)[i] < |calls|
    {
      assert i < |a| ==> a[i] in a;
      assert i >= |a| ==> b[i - |a|] in b;
    }
  }

  /** The retained recorded calls, newest first, by position: each exactly once. */
  lemma KeptInOrder(calls: seq<Call>, retainDays: nat)
    ensures var names := Retained(RunLog(calls), retainDays);
            var ix := CallsAmong(calls, names);
            && Lists(calls, ix, FiledAmong(calls, names)) && NewestFirst(calls, ix)
            && forall i | 0 <= i < |calls| :: i in ix <==> NameFor(calls[i].0, calls[i].1) in names
  {
    hide RunLog, Retained, NameFor, Less, FiledAmong, CallsAmong;
    RetainedNewestFirst(RunLog(calls), retainDays);
    CallsAmongAre(calls, Retained(RunLog(calls), retainDays));
  }

  lemma NoMoreThanCalls(calls: seq<Call>, retainDays: nat)
    ensures |FiledAmong(calls, Retained(RunLog(calls), retainDays))| <= |calls|
  {
    hide RunLog, Retained, NameFor, Less, FiledAmong, CallsAmong;
    KeptInOrder(calls, retainDays);
    var ix := CallsAmong(calls, Retained(RunLog(calls), retainDays));
    forall i, j | 0 <= i < j < |ix|
      ensures ix[i] != ix[j]
    {
      NeverNewerThanItself(calls, ix[i]);
    }
    DistinctBelow(ix, |calls|);
  }

  lemma NeverNewerThanItself(calls: seq<Call>, i: nat)
    requires i < |calls|
    ensures !Newer(calls, i, i)
  {
    var n := NameFor(calls[i].0, calls[i].1);
    if Less(n, n) {
      LessAsymmetric(n, n);
    }
  }

  lemma DistinctBelow(ix: seq<nat>, n: nat)
    requires (forall i, j | 0 <= i < j < |ix| :: ix[i] != ix[j]) && forall i | 0 <= i < |ix| :: ix[i] < n
    ensures |ix| <= n
  {
    var found := set i | i in ix;
    Cardinality(ix, found);
    BelowSize(n);
    assert Below(n) == found + (Below(n) - found);
  }

  lemma {:induction false} Cardinality(ix: seq<nat>, found: set<nat>)
    requires (forall i, j | 0 <= i < j < |ix| :: ix[i] != ix[j]) && found == set i | i in ix
    ensures |found| == |ix|
  {
    if ix != [] {
      var init, x := ix[..|ix| - 1], ix[|ix| - 1];
      assert ix == init + [x];
      var before := set i | i in init;
      Cardinality(init, before);
      assert found == before + {x};
    }
  }

  function Below(n: nat): set<nat> {
    if n == 0 then {} else Below(n - 1) + {n - 1}
  }

  lemma {:induction false} BelowSize(n: nat)
    ensures |Below(n)| == n && forall i: nat :: i in Below(n) <==> i < n
  {
    if n > 0 {
      BelowSize(n - 1);
    }
  }

  /** The positions whose events agree with a filter. */
  ghost function Picks(calls: seq<Call>, ix: seq<nat>, f: Filter): seq<nat>
    requires forall i | 0 <= i < |ix| :: ix[i] < |calls|
  {
    if ix == [] then []
    else
      (if Agrees(calls[ix[0]].0, f) then [ix[0]] else []) + Picks(calls, ix[1..], f)
  }

  lemma {:induction false} PicksListed(calls: seq<Call>, ix: seq<nat>, es: seq<Event>, f: Filter)
    requires Lists(calls, ix, es)
    ensures Lists(calls, Picks(calls, ix, f), Filtered(es, f))
  {
    if ix != [] {
      ListsTail(calls, ix, es);
      hide Matches, Agrees, Lists;
      PicksListed(calls, ix[1..], es[1..], f);
      MatchesIffAgrees(es[0], f);
      ListsCons(calls, ix[0], es[0], Picks(calls, ix[1..], f), Filtered(es[1..], f));
    }
  }

  lemma ListsTail(calls: seq<Call>, ix: seq<nat>, es: seq<Event>)
    requires Lists(calls, ix, es) && ix != []
    ensures es != [] && ix[0] < |calls| && calls[ix[0]].0 == es[0] && Lists(calls, ix[1..], es[1..])
  {
    assert forall i | 0 <= i < |ix[1..]| :: ix[1..][i] == ix[i + 1] && es[1..][i] == es[i + 1];
  }

  lemma ListsCons(calls: seq<Call>, i: nat, e: Event, ix: seq<nat>, es: seq<Event>)
    requires i < |calls| && calls[i].0 == e && Lists(calls, ix, es)
    ensures Lists(calls, [i] + ix, [e] + es) && Lists(calls, [] + ix, [] + es)
  {
  }

  lemma {:induction false} PicksAre(calls: seq<Call>, ix: seq<nat>, f: Filter)
    requires forall i | 0 <= i < |ix| :: ix[i] < |calls|
    ensures forall i | i in ix :: i < |calls|
    ensures forall i :: i in Picks(calls, ix, f) <==> i in ix && Agrees(calls[i].0, f)
  {
    hide Agrees;
    if ix != [] {
      assert ix == [ix[0]] + ix[1..];
      PicksAre(calls, ix[1..], f);
    }
  }

  lemma {:induction false} PicksNewestFirst(calls: seq<Call>, ix: seq<nat>, f: Filter)
    requires NewestFirst(calls, ix)
    ensures NewestFirst(calls, Picks(calls, ix, f))
  {
    hide Agrees, Newer;
    if ix != [] {
      var rest := Picks(calls, ix[1..], f);
      assert ix == [ix[0]] + ix[1..];
      assert NewestFirst(calls, ix[1..]) by {
        assert forall i | 0 <= i < |ix[1..]| :: ix[1..][i] == ix[i + 1];
      }
      PicksNewestFirst(calls, ix[1..], f);
      PicksAre(calls, ix[1..], f);
      forall j | 0 <= j < |rest|
        ensures Newer(calls, ix[0], rest[j])
      {
        assert rest[j] in ix[1..];
        var k :| 0 <= k < |ix[1..]| && ix[1..][k] == rest[j];
        assert ix[k + 1] == rest[j];
      }
    }
  }

  /** The answer, when what is kept is recoverable: some positions of calls, newest first, each of a kept event that
      agrees; as many as asked for, or all there are; and none left out that is newer than one returned. */
  lemma AnswerInOrder(calls: seq<Call>, retainDays: nat, f: Filter, limit: int) returns (picked: seq<nat>)
    requires forall c | c in calls :: c.1 != "" && (Kept(calls, retainDays, c.0) ==> Recoverable(c.0))
    ensures Lists(calls, picked, Answer(calls, retainDays, f, limit)) && NewestFirst(calls, picked)
    ensures forall i | i in picked ::
              && i < |calls| && Agrees(calls[i].0, f)
              && NameFor(calls[i].0, calls[i].1) in Retained(RunLog(calls), retainDays)
    ensures forall i | 0 <= i < |calls| && Agrees(calls[i].0, f) &&
                       NameFor(calls[i].0, calls[i].1) in Retained(RunLog(calls), retainDays) ::
              || i in picked
              || (|picked| == AtLeastOne(limit) && forall j | j in picked :: j < |calls| && Newer(calls, j, i))
  {
    hide RunLog, Retained, FiledAmong, CallsAmong, Agrees, Kept, Recoverable, Pruned, Filtered, NameFor, Newer, Picks;
    var names := Retained(RunLog(calls), retainDays);
    var ix, es := CallsAmong(calls, names), FiledAmong(calls, names);
    KeptInOrder(calls, retainDays);
    assert forall i | i in ix :: i < |calls|;
    PicksListed(calls, ix, es, f);
    PicksAre(calls, ix, f);
    PicksNewestFirst(calls, ix, f);
    var all := Picks(calls, ix, f);
    forall x | x in es
      ensures Recoverable(x)
    {
      KeptIsFiled(calls, retainDays, x);
      KeptIsCalled(calls, retainDays, x);
    }
    LogExactIffRecoverable(calls, retainDays);
    var n := AtLeastOne(limit);
    assert Answer(calls, retainDays, f, limit) == Expected(calls, retainDays, f, limit) == First(Filtered(es, f), n);
    picked := if |all| <= n then all else all[..n];
    FirstPicked(calls, all, n);
  }

  lemma FirstPicked(calls: seq<Call>, all: seq<nat>, n: nat)
    requires NewestFirst(calls, all)
    ensures |all| > n ==> NewestFirst(calls, all[..n])
    ensures |all| > n ==> forall i | i in all && i !in all[..n] ::
              i < |calls| && forall j | j in all[..n] :: j < |calls| && Newer(calls, j, i)
  {
    hide Newer;
    if |all| > n {
      forall i, j | i in all && i !in all[..n] && j in all[..n]
        ensures i < |calls| && j < |calls| && Newer(calls, j, i)
      {
        assert all == all[..n] + all[n..];
        var k :| 0 <= k < |all[n..]| && all[n..][k] == i;
        var l :| 0 <= l < n && all[..n][l] == j;
        assert all[n + k] == i && all[l] == j;
      }
      forall i | i in all
        ensures i < |calls|
      {
        var k :| 0 <= k < |all| && all[k] == i;
      }
    }
  }
}
