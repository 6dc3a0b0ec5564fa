/** The Redis feedback counters against the log of calls that made them (src/shared/feedback/store.py). */
module FeedbackStore {
  import opened Text

  datatype Dimension = RetrievalMode | RouteTool

  /** The fields of a feedback row that the counters depend on. */
  datatype Event = Event(
    requestId: string,
    patternHash: string,
    retrievalMode: string,
    routeTool: string,
    outcome: Option<bool>)
  {
    /** `aggregate_key`. */
    function Bucket(d: Dimension): string {
      var value := if d == RouteTool then routeTool else retrievalMode;
      if value != "" then value else "unknown"
    }
  }

  /** The calls that change the store. */
  datatype Call = Record(event: Event) | Attach(requestId: string, passed: bool)

  type Hash = map<string, nat>

  /** The request rows and the aggregate hashes. */
  datatype Store = Store(requests: map<string, Event>, aggregates: map<string, Hash>)

  datatype Row = Row(pass: nat, fail: nat, queries: nat)

  const AGG_PREFIX := "rag:feedback:agg:"

  function AggKey(patternHash: string, d: Dimension): string {
    if d == RouteTool then AGG_PREFIX + "route:" + patternHash else AGG_PREFIX + patternHash
  }

  function Field(bucket: string, metric: string): string {
    bucket + ":" + metric
  }

  function Label(passed: bool): string {
    if passed then "pass" else "fail"
  }

  /** `hincrby(key, field, 1)`. */
  function Incr(aggregates: map<string, Hash>, key: string, field: string): map<string, Hash> {
    var h := if key in aggregates then aggregates[key] else map[];
    aggregates[key := h[field := 1 + if field in h then h[field] else 0]]
  }

  function Counter(aggregates: map<string, Hash>, key: string, field: string): nat {
    if key in aggregates && field in aggregates[key] then aggregates[key][field] else 0
  }

  /** The increments of one event in one dimension, for `record`. */
  function RecordIncrements(e: Event, d: Dimension): seq<(string, string)> {
    [(AggKey(e.patternHash, d), Field(e.Bucket(d), "queries"))] +
    match e.outcome
    case None => []
    case Some(passed) => [(AggKey(e.patternHash, d), Field(e.Bucket(d), Label(passed)))]
  }

  /** All increments of one call, given the request rows it finds. */
  function Increments(requests: map<string, Event>, c: Call): seq<(string, string)> {
    match c
    case Record(e) => RecordIncrements(e, RetrievalMode) + RecordIncrements(e, RouteTool)
    case Attach(id, passed) =>
      if id !in requests then []
      else
        [AttachIncrement(requests[id], RetrievalMode, passed), AttachIncrement(requests[id], RouteTool, passed)]
  }

  /** The increment of one label in one dimension, for `attach_outcome`. */
  function AttachIncrement(e: Event, d: Dimension, passed: bool): (string, string) {
    (AggKey(e.patternHash, d), Field(e.Bucket(d), Label(passed)))
  }

  /** What one recorded event adds to the hash of its mode, as spelled in Redis. */
  lemma SpelledOut(e: Event, passed: bool)
    requires e.retrievalMode != "" && e.outcome == Some(passed)
    ensures RecordIncrements(e, RetrievalMode) ==
            [("rag:feedback:agg:" + e.patternHash, e.retrievalMode + ":" + "queries"),
             ("rag:feedback:agg:" + e.patternHash, e.retrievalMode + ":" + if passed then "pass" else "fail")]
  {
  }

  function IncrAll(aggregates: map<string, Hash>, incs: seq<(string, string)>): map<string, Hash> {
    if incs == [] then aggregates
    else
      var (key, field) := incs[|incs| - 1];
      Incr(IncrAll(aggregates, incs[..|incs| - 1]), key, field)
  }

  function Requests(requests: map<string, Event>, c: Call): map<string, Event> {
    match c
    case Record(e) => requests[e.requestId := e]
    case Attach(id, passed) => if id in requests then requests[id := requests[id].(outcome := Some(passed))]
      else requests
  }

  function Apply(s: Store, c: Call): Store {
    Store(Requests(s.requests, c), IncrAll(s.aggregates, Increments(s.requests, c)))
  }

  /** The store after a log of calls, from empty. */
  function Run(log: seq<Call>): Store {
    if log == [] then Store(map[], map[]) else Apply(Run(log[..|log| - 1]), log[|log| - 1])
  }

  class RedisFeedbackStore {
    var store: Store
    ghost var log: seq<Call>

    ghost predicate Valid()
      reads this
    {
      store == Run(log)
    }

    constructor ()
      ensures Valid() && log == []
    {
      store, log := Store(map[], map[]), [];
    }

    method IncrBucket(aggregates: map<string, Hash>, key: string, bucket: string, outcome: Option<bool>)
      returns (r: map<string, Hash>)
      ensures r == IncrAll(aggregates, [(key, Field(bucket, "queries"))] +
                                       match outcome case None => [] case Some(p) => [(key, Field(bucket, Label(p)))])
    {
      r := Incr(aggregates, key, Field(bucket, "queries"));
      ghost var one := [(key, Field(bucket, "queries"))];
      assert one[..0] == [];
      assert r == IncrAll(aggregates, one);
      if outcome.Some? {
        r := Incr(r, key, Field(bucket, Label(outcome.value)));
        ghost var two := one + [(key, Field(bucket, Label(outcome.value)))];
        assert two[..1] == one;
      } else {
        assert one + [] == one;
      }
    }

    method RecordEvent(e: Event)
      requires Valid()
      modifies this
      ensures Valid() && log == old(log) + [Record(e)]
    {
      var aggregates := IncrBucket(store.aggregates, AggKey(e.patternHash, RetrievalMode), e.Bucket(RetrievalMode),
                                   e.outcome);
      ghost var first := aggregates;
      aggregates := IncrBucket(aggregates, AggKey(e.patternHash, RouteTool), e.Bucket(RouteTool), e.outcome);
      IncrAllAppend(store.aggregates, RecordIncrements(e, RetrievalMode), RecordIncrements(e, RouteTool));
      store := Store(store.requests[e.requestId := e], aggregates);
      RunExtends(log, Record(e));
      log := log + [Record(e)];
    }

    method AttachOutcome(requestId: string, passed: bool) returns (found: bool)
      requires Valid()
      modifies this
      ensures Valid() && log == old(log) + [Attach(requestId, passed)]
      ensures found <==> requestId in old(store).requests
    {
      RunExtends(log, Attach(requestId, passed));
      log := log + [Attach(requestId, passed)];
      if requestId !in store.requests {
        return false;
      }
      var e := store.requests[requestId];
      IncrTwice(store.aggregates, AttachIncrement(e, RetrievalMode, passed), AttachIncrement(e, RouteTool, passed));
      var aggregates := store.aggregates;
      aggregates := Incr(aggregates, AggKey(e.patternHash, RetrievalMode),
                         Field(e.Bucket(RetrievalMode), Label(passed)));
      aggregates := Incr(aggregates, AggKey(e.patternHash, RouteTool), Field(e.Bucket(RouteTool), Label(passed)));
      store := Store(store.requests[requestId := e.(outcome := Some(passed))], aggregates);
      found := true;
    }

    method AggregateStats(patternHash: string, d: Dimension) returns (stats: map<string, Row>)
      requires Valid()
      ensures stats == Stats(store, patternHash, d)
    {
      var key := AggKey(patternHash, d);
      if key !in store.aggregates {
        return map[];
      }
      RunWellKeyed(log);
      stats := DecodeHash(store.aggregates[key]);
    }
  }

  lemma IncrTwice(aggregates: map<string, Hash>, a: (string, string), b: (string, string))
    ensures IncrAll(aggregates, [a, b]) == Incr(Incr(aggregates, a.0, a.1), b.0, b.1)
  {
    assert [a, b][..1] == [a] && [a][..0] == [];
    assert IncrAll(aggregates, [a]) == Incr(aggregates, a.0, a.1);
  }

  lemma {:induction false} IncrAllAppend(aggregates: map<string, Hash>, a: seq<(string, string)>,
                                         b: seq<(string, string)>)
    ensures IncrAll(aggregates, a + b) == IncrAll(IncrAll(aggregates, a), b)
  {
    if b == [] {
      assert a + b == a;
    } else {
      assert (a + b)[..|a + b| - 1] == a + b[..|b| - 1];
      IncrAllAppend(aggregates, a, b[..|b| - 1]);
    }
  }

  // ---- reading a hash back ----------------------------------------------------------------------------------------

  /** `compound.rsplit(":", 1)`. */
  function RSplit(s: string): Option<(string, string)> {
    if s == "" then None
    else if s[|s| - 1] == ':' then Some((s[..|s| - 1], ""))
    else match RSplit(s[..|s| - 1])
      case None => None
      case Some((bucket, metric)) => Some((bucket, metric + [s[|s| - 1]]))
  }

  predicate IsMetric(m: string) {
    m == "queries" || m == "pass" || m == "fail"
  }

  /** Splitting at the last colon undoes `Field`, even when the bucket has colons of its own. */
  lemma {:induction false} RSplitField(bucket: string, metric: string)
    requires ':' !in metric
    ensures RSplit(Field(bucket, metric)) == Some((bucket, metric))
  {
    var f := Field(bucket, metric);
    if metric == "" {
      assert f[..|f| - 1] == bucket;
    } else {
      var init := metric[..|metric| - 1];
      assert f[..|f| - 1] == Field(bucket, init);
      RSplitField(bucket, init);
      assert metric == init + [metric[|metric| - 1]];
    }
  }

  function Get(h: Hash, field: string): nat {
    if field in h then h[field] else 0
  }

  ghost predicate WellKeyed(h: Hash) {
    forall f | f in h ::
      RSplit(f).Some? && IsMetric(RSplit(f).value.1) && f == Field(RSplit(f).value.0, RSplit(f).value.1)
  }

  function RowOf(h: Hash, bucket: string): Row {
    Row(Get(h, Field(bucket, "pass")), Get(h, Field(bucket, "fail")), Get(h, Field(bucket, "queries")))
  }

  function BucketNames(h: Hash): set<string> {
    set f | f in h && RSplit(f).Some? :: RSplit(f).value.0
  }

  /** `aggregate_stats` as a function of the store. */
  function Stats(s: Store, patternHash: string, d: Dimension): map<string, Row> {
    var key := AggKey(patternHash, d);
    if key !in s.aggregates then map[]
    else map b | b in BucketNames(s.aggregates[key]) :: RowOf(s.aggregates[key], b)
  }

  /** Writing one cell of one bucket leaves every other cell alone. */
  lemma RowUpdate(h: Hash, bucket: string, metric: string, n: nat)
    requires IsMetric(metric)
    ensures var h' := h[Field(bucket, metric) := n];
            && BucketNames(h') == BucketNames(h) + {bucket}
            && (forall b | b != bucket :: RowOf(h', b) == RowOf(h, b))
            && RowOf(h', bucket) == SetCell(RowOf(h, bucket), metric, n)
  {
    hide BucketNames, RSplit;
    NamesUpdate(h, bucket, metric, n);
    FieldDiffers(bucket, metric, "queries");
    FieldDiffers(bucket, metric, "pass");
    FieldDiffers(bucket, metric, "fail");
  }

  lemma FieldDiffers(bucket: string, metric: string, m: string)
    requires IsMetric(metric) && IsMetric(m)
    ensures forall b | b != bucket || m != metric :: Field(b, m) != Field(bucket, metric)
  {
    hide Field, RSplit;
    RSplitField(bucket, metric);
    forall b | b != bucket || m != metric
      ensures Field(b, m) != Field(bucket, metric)
    {
      RSplitField(b, m);
    }
  }

  lemma NamesUpdate(h: Hash, bucket: string, metric: string, n: nat)
    requires IsMetric(metric)
    ensures BucketNames(h[Field(bucket, metric) := n]) == BucketNames(h) + {bucket}
  {
    hide Field, RSplit;
    RSplitField(bucket, metric);
    var f := Field(bucket, metric);
    var h' := h[f := n];
    forall b
      ensures b in BucketNames(h') <==> b in BucketNames(h) || b == bucket
    {
      assert f in h';
      if b in BucketNames(h) {
        var g :| g in h && RSplit(g).Some? && RSplit(g).value.0 == b;
        assert g in h';
      }
    }
  }

  lemma NoBucketNoRow(h: Hash, bucket: string)
    requires bucket !in BucketNames(h)
    ensures RowOf(h, bucket) == Row(0, 0, 0)
  {
    RSplitField(bucket, "queries");
    RSplitField(bucket, "pass");
    RSplitField(bucket, "fail");
  }

  /** The decoded form of the fields read so far. */
  ghost predicate Decoded(stats: map<string, Row>, h: Hash) {
    stats.Keys == BucketNames(h) && forall b | b in stats :: stats[b] == RowOf(h, b)
  }

  function SetCell(row: Row, metric: string, n: nat): Row {
    match metric
    case "queries" => row.(queries := n)
    case "pass" => row.(pass := n)
    case _ => row.(fail := n)
  }

  lemma DecodeOne(stats: map<string, Row>, h: Hash, bucket: string, metric: string, n: nat)
    requires Decoded(stats, h) && IsMetric(metric)
    ensures var row := if bucket in stats then stats[bucket] else Row(0, 0, 0);
            Decoded(stats[bucket := SetCell(row, metric, n)], h[Field(bucket, metric) := n])
  {
    if bucket !in stats {
      NoBucketNoRow(h, bucket);
    }
    RowUpdate(h, bucket, metric, n);
  }

  /** The decoding loop: fields arrive in any order, and each fills one cell of its bucket's row. */
  method DecodeHash(h: Hash) returns (stats: map<string, Row>)
    requires WellKeyed(h)
    ensures Decoded(stats, h)
  {
    stats := map[];
    var todo := h.Keys;
    ghost var done: Hash := map[];
    while todo != {}
      invariant todo <= h.Keys
      invariant done.Keys == h.Keys - todo && forall f | f in done :: done[f] == h[f]
      invariant Decoded(stats, done)
      decreases |todo|
    {
      var compound :| compound in todo;
      var (bucket, metric) := RSplit(compound).value;
      DecodeOne(stats, done, bucket, metric, h[compound]);
      var row := if bucket in stats then stats[bucket] else Row(0, 0, 0);
      stats := stats[bucket := SetCell(row, metric, h[compound])];
      done := done[compound := h[compound]];
      todo := todo - {compound};
    }
    assert done == h;
  }

  // ---- the counters are counts of the log --------------------------------------------------------------------------

  lemma RunExtends(log: seq<Call>, c: Call)
    ensures Run(log + [c]) == Apply(Run(log), c)
  {
    assert (log + [c])[..|log|] == log;
  }

  ghost predicate ProperField(field: string) {
    exists b, m :: IsMetric(m) && field == Field(b, m)
  }

  ghost predicate ProperIncrements(incs: seq<(string, string)>) {
    forall i | 0 <= i < |incs| :: ProperField(incs[i].1)
  }

  lemma IncrementsProper(requests: map<string, Event>, c: Call)
    ensures ProperIncrements(Increments(requests, c))
  {
    assert IsMetric("queries") && IsMetric("pass") && IsMetric("fail");
    var incs := Increments(requests, c);
    forall i | 0 <= i < |incs|
      ensures ProperField(incs[i].1)
    {
    }
  }

  lemma {:induction false} IncrAllWellKeyed(aggregates: map<string, Hash>, incs: seq<(string, string)>)
    requires ProperIncrements(incs) && forall k | k in aggregates :: WellKeyed(aggregates[k])
    ensures forall k | k in IncrAll(aggregates, incs) :: WellKeyed(IncrAll(aggregates, incs)[k])
  {
    if incs != [] {
      var init := incs[..|incs| - 1];
      assert forall i | 0 <= i < |init| :: init[i] == incs[i];
      IncrAllWellKeyed(aggregates, init);
      var b, m :| IsMetric(m) && incs[|incs| - 1].1 == Field(b, m);
      RSplitField(b, m);
    }
  }

  lemma {:induction false} RunWellKeyed(log: seq<Call>)
    ensures forall k | k in Run(log).aggregates :: WellKeyed(Run(log).aggregates[k])
  {
    if log != [] {
      var before, c := Run(log[..|log| - 1]), log[|log| - 1];
      RunWellKeyed(log[..|log| - 1]);
      IncrementsProper(before.requests, c);
      IncrAllWellKeyed(before.aggregates, Increments(before.requests, c));
    }
  }

  // ---- the reference: what the log itself says ---------------------------------------------------------------------

  /** The event an attach refers to: the latest one recorded under its request id. */
  function Latest(log: seq<Call>, id: string): Option<Event> {
    if log == [] then None
    else
      var c := log[|log| - 1];
      if c.Record? && c.event.requestId == id then Some(c.event) else Latest(log[..|log| - 1], id)
  }

  predicate Sees(e: Event, patternHash: string, d: Dimension, bucket: string) {
    e.patternHash == patternHash && e.Bucket(d) == bucket
  }

  function One(b: bool): nat {
    if b then 1 else 0
  }

  /** How many records fall into a bucket. */
  function Queries(log: seq<Call>, patternHash: string, d: Dimension, bucket: string): nat {
    if log == [] then 0
    else
      var c := log[|log| - 1];
      Queries(log[..|log| - 1], patternHash, d, bucket) + One(c.Record? && Sees(c.event, patternHash, d, bucket))
  }

  /** The event a call labels with `passed`, if any. */
  function Labelled(log: seq<Call>, c: Call, passed: bool): Option<Event> {
    match c
    case Record(e) => if e.outcome == Some(passed) then Some(e) else None
    case Attach(id, p) => if p == passed then Latest(log, id) else None
  }

  /** How many labels, recorded or attached, fall into a bucket. */
  function Labels(log: seq<Call>, patternHash: string, d: Dimension, bucket: string, passed: bool): nat {
    if log == [] then 0
    else
      var init := log[..|log| - 1];
      var e := Labelled(init, log[|log| - 1], passed);
      Labels(init, patternHash, d, bucket, passed) + One(e.Some? && Sees(e.value, patternHash, d, bucket))
  }

  function Recorded(log: seq<Call>, patternHash: string): set<Event> {
    set c | c in log && c.Record? && c.event.patternHash == patternHash :: c.event
  }

  /** The statistics the log calls for. */
  function Reference(log: seq<Call>, patternHash: string, d: Dimension): map<string, Row> {
    map b | b in (set e | e in Recorded(log, patternHash) :: e.Bucket(d)) ::
      Row(Labels(log, patternHash, d, b, true), Labels(log, patternHash, d, b, false), Queries(log, patternHash, d, b))
  }

  /** An event counted under the hash of another query: its key in some dimension is the same string. */
  predicate Collides(e: Event, patternHash: string, d: Dimension) {
    var other := if d == RouteTool then RetrievalMode else RouteTool;
    e.patternHash != patternHash && AggKey(e.patternHash, other) == AggKey(patternHash, d)
  }

  // ---- counters as weighted counts ---------------------------------------------------------------------------------

  /** How often one event increments a bucket of a hash. */
  function Weight(e: Event, key: string, bucket: string): nat {
    One(AggKey(e.patternHash, RetrievalMode) == key && e.Bucket(RetrievalMode) == bucket) +
    One(AggKey(e.patternHash, RouteTool) == key && e.Bucket(RouteTool) == bucket)
  }

  function WeighedQueries(log: seq<Call>, key: string, bucket: string): nat {
    if log == [] then 0
    else
      var c := log[|log| - 1];
      WeighedQueries(log[..|log| - 1], key, bucket) + if c.Record? then Weight(c.event, key, bucket) else 0
  }

  function WeighedLabels(log: seq<Call>, key: string, bucket: string, passed: bool): nat {
    if log == [] then 0
    else
      var init := log[..|log| - 1];
      var e := Labelled(init, log[|log| - 1], passed);
      WeighedLabels(init, key, bucket, passed) + if e.Some? then Weight(e.value, key, bucket) else 0
  }

  function Hits(incs: seq<(string, string)>, key: string, field: string): nat {
    if incs == [] then 0
    else Hits(incs[..|incs| - 1], key, field) + One(incs[|incs| - 1] == (key, field))
  }

  lemma {:induction false} CounterHits(aggregates: map<string, Hash>, incs: seq<(string, string)>, key: string,
                                       field: string)
    ensures Counter(IncrAll(aggregates, incs), key, field) == Counter(aggregates, key, field) + Hits(incs, key, field)
  {
    if incs != [] {
      CounterHits(aggregates, incs[..|incs| - 1], key, field);
    }
  }

  lemma {:induction false} HitsAppend(a: seq<(string, string)>, b: seq<(string, string)>, key: string, field: string)
    ensures Hits(a + b, key, field) == Hits(a, key, field) + Hits(b, key, field)
  {
    if b == [] {
      assert a + b == a;
    } else {
      assert (a + b)[..|a + b| - 1] == a + b[..|b| - 1];
      HitsAppend(a, b[..|b| - 1], key, field);
    }
  }

  lemma HitsOne(inc: (string, string), key: string, field: string)
    ensures Hits([inc], key, field) == One(inc == (key, field))
  {
    assert [inc][..0] == [];
  }

  lemma FieldInjective(b: string, m: string, b': string, m': string)
    requires IsMetric(m) && IsMetric(m')
    ensures Field(b, m) == Field(b', m') <==> b == b' && m == m'
  {
    RSplitField(b, m);
    RSplitField(b', m');
  }

  lemma RecordHits(e: Event, d: Dimension, key: string, b: string, m: string)
    requires IsMetric(m)
    ensures Hits(RecordIncrements(e, d), key, Field(b, m)) ==
            One(AggKey(e.patternHash, d) == key && e.Bucket(d) == b &&
                (m == "queries" || (e.outcome.Some? && m == Label(e.outcome.value))))
  {
    var q := (AggKey(e.patternHash, d), Field(e.Bucket(d), "queries"));
    FieldInjective(e.Bucket(d), "queries", b, m);
    HitsOne(q, key, Field(b, m));
    if e.outcome.Some? {
      var l := (AggKey(e.patternHash, d), Field(e.Bucket(d), Label(e.outcome.value)));
      FieldInjective(e.Bucket(d), Label(e.outcome.value), b, m);
      HitsOne(l, key, Field(b, m));
      HitsAppend([q], [l], key, Field(b, m));
    } else {
      assert RecordIncrements(e, d) == [q];
    }
  }

  lemma {:induction false} RequestsAreLatest(log: seq<Call>, id: string)
    ensures id in Run(log).requests <==> Latest(log, id).Some?
    ensures id in Run(log).requests ==>
              Latest(log, id) == Some(Run(log).requests[id].(outcome := Latest(log, id).value.outcome))
  {
    if log != [] {
      RequestsAreLatest(log[..|log| - 1], id);
    }
  }

  /** The weight one call adds to a field. */
  function CallWeight(log: seq<Call>, c: Call, key: string, b: string, m: string): nat {
    if m == "queries" then if c.Record? then Weight(c.event, key, b) else 0
    else
      var e := Labelled(log, c, m == "pass");
      if e.Some? then Weight(e.value, key, b) else 0
  }

  lemma CallHits(log: seq<Call>, c: Call, key: string, b: string, m: string)
    requires IsMetric(m)
    ensures Hits(Increments(Run(log).requests, c), key, Field(b, m)) == CallWeight(log, c, key, b, m)
  {
    var requests := Run(log).requests;
    match c
    case Record(e) =>
      RecordHits(e, RetrievalMode, key, b, m);
      RecordHits(e, RouteTool, key, b, m);
      HitsAppend(RecordIncrements(e, RetrievalMode), RecordIncrements(e, RouteTool), key, Field(b, m));
    case Attach(id, passed) =>
      RequestsAreLatest(log, id);
      if id in requests {
        var one, two := AttachIncrement(requests[id], RetrievalMode, passed),
          AttachIncrement(requests[id], RouteTool, passed);
        FieldInjective(requests[id].Bucket(RetrievalMode), Label(passed), b, m);
        FieldInjective(requests[id].Bucket(RouteTool), Label(passed), b, m);
        HitsOne(one, key, Field(b, m));
        HitsOne(two, key, Field(b, m));
        HitsAppend([one], [two], key, Field(b, m));
        assert [one] + [two] == [one, two];
        SameWeight(requests[id], Latest(log, id).value, key, b);
      }
  }

  lemma SameWeight(e: Event, f: Event, key: string, b: string)
    requires f == e.(outcome := f.outcome)
    ensures Weight(e, key, b) == Weight(f, key, b)
    ensures e.Bucket(RetrievalMode) == f.Bucket(RetrievalMode) && e.Bucket(RouteTool) == f.Bucket(RouteTool)
  {
  }

  /** Every counter is the weighted count of the log, whatever the hashes are. */
  lemma {:induction false} CountersAreWeights(log: seq<Call>, key: string, b: string)
    ensures Counter(Run(log).aggregates, key, Field(b, "queries")) == WeighedQueries(log, key, b)
    ensures Counter(Run(log).aggregates, key, Field(b, "pass")) == WeighedLabels(log, key, b, true)
    ensures Counter(Run(log).aggregates, key, Field(b, "fail")) == WeighedLabels(log, key, b, false)
  {
    if log != [] {
      var init, c := log[..|log| - 1], log[|log| - 1];
      var incs := Increments(Run(init).requests, c);
      CountersAreWeights(init, key, b);
      CounterHits(Run(init).aggregates, incs, key, Field(b, "queries"));
      CounterHits(Run(init).aggregates, incs, key, Field(b, "pass"));
      CounterHits(Run(init).aggregates, incs, key, Field(b, "fail"));
      CallHits(init, c, key, b, "queries");
      CallHits(init, c, key, b, "pass");
      CallHits(init, c, key, b, "fail");
    }
  }

  // ---- agreement, and exactly when it holds ------------------------------------------------------------------------

  /** A hash key is met by the query it belongs to, and by colliding events through the other dimension. */
  lemma WeightSplits(e: Event, h: string, d: Dimension, b: string)
    ensures var other := if d == RouteTool then RetrievalMode else RouteTool;
            Weight(e, AggKey(h, d), b) == One(Sees(e, h, d, b)) + One(Collides(e, h, d) && e.Bucket(other) == b)
  {
    KeyCancel(AGG_PREFIX, e.patternHash, h);
    KeyCancel(AGG_PREFIX + "route:", e.patternHash, h);
    assert |AggKey(h, RouteTool)| == |AggKey(h, RetrievalMode)| + |"route:"|;
  }

  lemma KeyCancel(p: string, a: string, b: string)
    ensures p + a == p + b <==> a == b
  {
    assert (p + a)[|p|..] == a && (p + b)[|p|..] == b;
  }

  predicate NoCollision(log: seq<Call>, h: string, d: Dimension) {
    forall c | c in log && c.Record? :: !Collides(c.event, h, d)
  }

  lemma {:induction false} LatestIsRecorded(log: seq<Call>, id: string)
    ensures Latest(log, id).Some? ==> Record(Latest(log, id).value) in log
  {
    if log != [] {
      var init := log[..|log| - 1];
      assert log == init + [log[|log| - 1]];
      LatestIsRecorded(init, id);
    }
  }

  /** Without collisions every counter is the plain count. */
  lemma {:induction false} WeightsAreCounts(log: seq<Call>, h: string, d: Dimension, b: string)
    requires NoCollision(log, h, d)
    ensures WeighedQueries(log, AggKey(h, d), b) == Queries(log, h, d, b)
    ensures WeighedLabels(log, AggKey(h, d), b, true) == Labels(log, h, d, b, true)
    ensures WeighedLabels(log, AggKey(h, d), b, false) == Labels(log, h, d, b, false)
  {
    if log != [] {
      var init, c := log[..|log| - 1], log[|log| - 1];
      assert log == init + [c];
      WeightsAreCounts(init, h, d, b);
      match c
      case Record(e) => WeightSplits(e, h, d, b);
      case Attach(id, passed) =>
        LatestIsRecorded(init, id);
        if Latest(init, id).Some? {
          WeightSplits(Latest(init, id).value, h, d, b);
        }
    }
  }

  /** A collision strictly inflates the query counter of some bucket. */
  lemma {:induction false} CollisionInflates(log: seq<Call>, e: Event, h: string, d: Dimension)
    ensures var b := e.Bucket(if d == RouteTool then RetrievalMode else RouteTool);
            && WeighedQueries(log, AggKey(h, d), b) >= Queries(log, h, d, b)
            && (Record(e) in log && Collides(e, h, d) ==> WeighedQueries(log, AggKey(h, d), b) > Queries(log, h, d, b))
  {
    if log != [] {
      var init, c := log[..|log| - 1], log[|log| - 1];
      assert log == init + [c];
      CollisionInflates(init, e, h, d);
      if c.Record? {
        WeightSplits(c.event, h, d, e.Bucket(if d == RouteTool then RetrievalMode else RouteTool));
      }
    }
  }

  ghost predicate Positive(aggregates: map<string, Hash>) {
    forall k, f | k in aggregates && f in aggregates[k] :: aggregates[k][f] > 0
  }

  lemma {:induction false} IncrAllPositive(aggregates: map<string, Hash>, incs: seq<(string, string)>)
    requires Positive(aggregates)
    ensures Positive(IncrAll(aggregates, incs))
  {
    if incs != [] {
      IncrAllPositive(aggregates, incs[..|incs| - 1]);
    }
  }

  lemma {:induction false} RunPositive(log: seq<Call>)
    ensures Positive(Run(log).aggregates)
  {
    if log != [] {
      RunPositive(log[..|log| - 1]);
      IncrAllPositive(Run(log[..|log| - 1]).aggregates, Increments(Run(log[..|log| - 1]).requests, log[|log| - 1]));
    }
  }

  /** What the decoded statistics hold for one bucket. */
  lemma StatsAt(log: seq<Call>, h: string, d: Dimension, b: string)
    ensures var key, s := AggKey(h, d), Stats(Run(log), h, d);
            var row := Row(WeighedLabels(log, key, b, true), WeighedLabels(log, key, b, false),
                           WeighedQueries(log, key, b));
            && (b in s <==> row != Row(0, 0, 0))
            && (b in s ==> s[b] == row)
  {
    var key, a := AggKey(h, d), Run(log).aggregates;
    CountersAreWeights(log, key, b);
    if key in a {
      RunPositive(log);
      RunWellKeyed(log);
      NamedIffField(a[key], b);
    }
  }

  lemma NamedIffField(g: Hash, b: string)
    requires WellKeyed(g)
    ensures b in BucketNames(g) <==> Field(b, "queries") in g || Field(b, "pass") in g || Field(b, "fail") in g
  {
    RSplitField(b, "queries");
    RSplitField(b, "pass");
    RSplitField(b, "fail");
  }

  /** A bucket has a query exactly when a record falls into it, and no label without one. */
  lemma {:induction false} CountsNeedRecords(log: seq<Call>, h: string, d: Dimension, b: string)
    ensures Queries(log, h, d, b) > 0 <==> exists e :: Record(e) in log && Sees(e, h, d, b)
    ensures forall p :: Labels(log, h, d, b, p) > 0 ==> Queries(log, h, d, b) > 0
  {
    if log != [] {
      var init, c := log[..|log| - 1], log[|log| - 1];
      assert log == init + [c];
      CountsNeedRecords(init, h, d, b);
      if c.Record? && Sees(c.event, h, d, b) {
        assert Record(c.event) in log;
      }
      if c.Attach? {
        LatestIsRecorded(init, c.requestId);
      }
    }
  }

  lemma ReferenceAt(log: seq<Call>, h: string, d: Dimension, b: string)
    ensures b in Reference(log, h, d) <==> Queries(log, h, d, b) > 0
  {
    CountsNeedRecords(log, h, d, b);
    if Queries(log, h, d, b) > 0 {
      var e :| Record(e) in log && Sees(e, h, d, b);
      assert e in Recorded(log, h);
    }
  }

  lemma NoCollisionAgrees(log: seq<Call>, h: string, d: Dimension)
    requires NoCollision(log, h, d)
    ensures Stats(Run(log), h, d) == Reference(log, h, d)
  {
    var s, r := Stats(Run(log), h, d), Reference(log, h, d);
    forall b
      ensures (b in s <==> b in r) && (b in s ==> s[b] == r[b])
    {
      WeightsAreCounts(log, h, d, b);
      StatsAt(log, h, d, b);
      ReferenceAt(log, h, d, b);
      CountsNeedRecords(log, h, d, b);
    }
  }

  /** After any log of records and attaches, the statistics are exactly what the log calls for, if and only if no
      recorded event counts under the queried key through the other dimension. */
  lemma StatsAgreeIffNoCollision(log: seq<Call>, h: string, d: Dimension)
    ensures Stats(Run(log), h, d) == Reference(log, h, d) <==> NoCollision(log, h, d)
  {
    if NoCollision(log, h, d) {
      NoCollisionAgrees(log, h, d);
    } else {
      var c :| c in log && c.Record? && Collides(c.event, h, d);
      var b := c.event.Bucket(if d == RouteTool then RetrievalMode else RouteTool);
      CollisionInflates(log, c.event, h, d);
      StatsAt(log, h, d, b);
    }
  }

  /** Hashes that do not start with `route:`, such as the hexadecimal ones the program computes, never collide. */
  lemma PlainHashesNeverCollide(log: seq<Call>, h: string, d: Dimension)
    requires !("route:" <= h) && forall c | c in log && c.Record? :: !("route:" <= c.event.patternHash)
    ensures NoCollision(log, h, d)
  {
    forall e: Event | !("route:" <= e.patternHash)
      ensures !Collides(e, h, d)
    {
      if d == RouteTool {
        assert AggKey(h, d) == AGG_PREFIX + ("route:" + h);
        KeyCancel(AGG_PREFIX, e.patternHash, "route:" + h);
      } else {
        assert AggKey(e.patternHash, RouteTool) == AGG_PREFIX + ("route:" + e.patternHash);
        KeyCancel(AGG_PREFIX, "route:" + e.patternHash, h);
      }
    }
  }

  /** A log on which the counters of one query absorb another's. */
  lemma CollisionExample()
    ensures var log := [Record(Event("r", "route:x", "hybrid", "query_data", None))];
            Stats(Run(log), "x", RouteTool) != Reference(log, "x", RouteTool)
  {
    var e := Event("r", "route:x", "hybrid", "query_data", None);
    var log := [Record(e)];
    assert AGG_PREFIX + "route:" + "x" == AGG_PREFIX + "route:x";
    assert Collides(e, "x", RouteTool);
    assert Record(e) in log;
    StatsAgreeIffNoCollision(log, "x", RouteTool);
  }

  // ---- the statistics on the recorded fields -----------------------------------------------------------------------

  function OrUnknown(s: string): string {
    if s != "" then s else "unknown"
  }

  /** An event of this hash, filed under `b`: by its retrieval mode, or by its route tool. */
  predicate FiledUnder(e: Event, h: string, d: Dimension, b: string) {
    e.patternHash == h &&
    match d case RetrievalMode => b == OrUnknown(e.retrievalMode) case RouteTool => b == OrUnknown(e.routeTool)
  }

  /** No recorded hash is the other one behind `route:`. */
  ghost predicate Unprefixed(log: seq<Call>, h: string, d: Dimension) {
    forall e | Record(e) in log :: match d case RetrievalMode => h != "route:" + e.patternHash
                                           case RouteTool => e.patternHash != "route:" + h
  }

  lemma CollidesWhen(e: Event, h: string, d: Dimension)
    ensures Collides(e, h, d) <==>
            match d case RetrievalMode => h == "route:" + e.patternHash case RouteTool => e.patternHash == "route:" + h
  {
    if d == RouteTool {
      assert AggKey(h, d) == AGG_PREFIX + ("route:" + h);
      KeyCancel(AGG_PREFIX, e.patternHash, "route:" + h);
    } else {
      assert AggKey(e.patternHash, RouteTool) == AGG_PREFIX + ("route:" + e.patternHash);
      KeyCancel(AGG_PREFIX, "route:" + e.patternHash, h);
    }
  }

  lemma UnprefixedNeverCollides(log: seq<Call>, h: string, d: Dimension)
    ensures Unprefixed(log, h, d) <==> NoCollision(log, h, d)
  {
    hide Collides;
    forall e: Event
      ensures Collides(e, h, d) <==>
              match d
              case RetrievalMode => h == "route:" + e.patternHash
              case RouteTool => e.patternHash == "route:" + h
    {
      CollidesWhen(e, h, d);
    }
    assert forall e :: Record(e) in log <==> exists c :: c in log && c.Record? && c.event == e;
  }

  /** The record a label given at position `i` is about: the latest one before it with the request id. */
  ghost predicate RefersTo(log: seq<Call>, i: nat, id: string, e: Event) {
    i <= |log| && e.requestId == id &&
    exists j :: 0 <= j < i && log[j] == Record(e) &&
      forall k | j < k < i && log[k].Record? :: log[k].event.requestId != id
  }

  /** A call that counts as a query under `b`, and one that counts as a label. */
  ghost predicate IsQuery(log: seq<Call>, i: nat, h: string, d: Dimension, b: string)
    requires i < |log|
  {
    log[i].Record? && FiledUnder(log[i].event, h, d, b)
  }

  ghost predicate IsLabel(log: seq<Call>, i: nat, passed: bool, h: string, d: Dimension, b: string)
    requires i < |log|
  {
    match log[i]
    case Record(e) => e.outcome == Some(passed) && FiledUnder(e, h, d, b)
    case Attach(id, p) => p == passed && exists e :: RefersTo(log, i, id, e) && FiledUnder(e, h, d, b)
  }

  ghost function QueryCalls(log: seq<Call>, h: string, d: Dimension, b: string): set<nat> {
    set i: nat | i < |log| && IsQuery(log, i, h, d, b)
  }

  ghost function LabelCalls(log: seq<Call>, passed: bool, h: string, d: Dimension, b: string): set<nat> {
    set i: nat | i < |log| && IsLabel(log, i, passed, h, d, b)
  }

  lemma {:induction false} LatestIs(log: seq<Call>, id: string, e: Event)
    ensures Latest(log, id) == Some(e) <==> RefersTo(log, |log|, id, e)
  {
    if log != [] {
      var init, c := log[..|log| - 1], log[|log| - 1];
      LatestIs(init, id, e);
      assert forall j | 0 <= j < |init| :: init[j] == log[j];
      if c.Record? && c.event.requestId == id {
        assert log[|log| - 1] == Record(c.event);
      } else {
        SkipsLast(log, id, e);
      }
    }
  }

  lemma SkipsLast(log: seq<Call>, id: string, e: Event)
    requires log != [] && (log[|log| - 1].Record? ==> log[|log| - 1].event.requestId != id)
    ensures RefersTo(log, |log|, id, e) <==> RefersTo(log[..|log| - 1], |log| - 1, id, e)
  {
    var init := log[..|log| - 1];
    assert forall j | 0 <= j < |init| :: init[j] == log[j];
    if RefersTo(init, |init|, id, e) {
      var j :| 0 <= j < |init| && init[j] == Record(e) &&
               forall k | j < k < |init| && init[k].Record? :: init[k].event.requestId != id;
      assert log[j] == Record(e);
    }
    if RefersTo(log, |log|, id, e) {
      var j :| 0 <= j < |log| && log[j] == Record(e) &&
               forall k | j < k < |log| && log[k].Record? :: log[k].event.requestId != id;
      assert init[j] == Record(e);
    }
  }

  /** What a call means does not depend on the calls after it. */
  lemma PrefixMeans(log: seq<Call>, i: nat, passed: bool, h: string, d: Dimension, b: string)
    requires log != [] && i < |log| - 1
    ensures var init := log[..|log| - 1];
            && (IsQuery(log, i, h, d, b) <==> IsQuery(init, i, h, d, b))
            && (IsLabel(log, i, passed, h, d, b) <==> IsLabel(init, i, passed, h, d, b))
  {
    var init := log[..|log| - 1];
    assert forall j | 0 <= j < |init| :: init[j] == log[j];
    if log[i].Attach? {
      forall e
        ensures RefersTo(log, i, log[i].requestId, e) <==> RefersTo(init, i, log[i].requestId, e)
      {
        SameReference(log, i, log[i].requestId, e);
      }
    }
  }

  lemma SameReference(log: seq<Call>, i: nat, id: string, e: Event)
    requires log != [] && i < |log|
    ensures RefersTo(log, i, id, e) <==> RefersTo(log[..|log| - 1], i, id, e)
  {
    var init := log[..|log| - 1];
    assert forall j | 0 <= j < |init| :: init[j] == log[j];
    if RefersTo(log, i, id, e) {
      var j :| 0 <= j < i && log[j] == Record(e) && forall k | j < k < i && log[k].Record? ::
        log[k].event.requestId != id;
      assert init[j] == Record(e);
    }
    if RefersTo(init, i, id, e) {
      var j :| 0 <= j < i && init[j] == Record(e) && forall k | j < k < i && init[k].Record? ::
        init[k].event.requestId != id;
      assert log[j] == Record(e);
    }
  }

  lemma LastLabel(log: seq<Call>, passed: bool, h: string, d: Dimension, b: string)
    requires log != []
    ensures var init, c := log[..|log| - 1], log[|log| - 1];
            IsLabel(log, |log| - 1, passed, h, d, b) <==>
            Labelled(init, c, passed).Some? && Sees(Labelled(init, c, passed).value, h, d, b)
  {
    var init, c := log[..|log| - 1], log[|log| - 1];
    assert forall e: Event :: Sees(e, h, d, b) <==> FiledUnder(e, h, d, b);
    if c.Attach? {
      hide RefersTo, Latest, Sees, FiledUnder;
      forall e
        ensures Latest(init, c.requestId) == Some(e) <==> RefersTo(log, |log| - 1, c.requestId, e)
      {
        LatestIs(init, c.requestId, e);
        SameReference(log, |log| - 1, c.requestId, e);
      }
      var l, means := Latest(init, c.requestId), IsLabel(log, |log| - 1, passed, h, d, b);
      assert Labelled(init, c, passed) == if c.passed == passed then l else None;
      if l.Some? {
        assert RefersTo(log, |log| - 1, c.requestId, l.value);
        assert Sees(l.value, h, d, b) <==> FiledUnder(l.value, h, d, b);
      }
      if means {
        var e :| RefersTo(log, |log| - 1, c.requestId, e) && FiledUnder(e, h, d, b);
        assert l == Some(e);
      }
    }
  }

  lemma {:induction false} CountsAreCalls(log: seq<Call>, passed: bool, h: string, d: Dimension, b: string)
    ensures Queries(log, h, d, b) == |QueryCalls(log, h, d, b)|
    ensures Labels(log, h, d, b, passed) == |LabelCalls(log, passed, h, d, b)|
  {
    if log == [] {
      assert QueryCalls(log, h, d, b) == {} && LabelCalls(log, passed, h, d, b) == {};
    } else {
      var init, last := log[..|log| - 1], |log| - 1;
      CountsAreCalls(init, passed, h, d, b);
      LastLabel(log, passed, h, d, b);
      QueriesGrow(log, h, d, b);
      LabelsGrow(log, passed, h, d, b);
      hide IsLabel, QueryCalls, LabelCalls, RefersTo;
    }
  }

  lemma QueriesGrow(log: seq<Call>, h: string, d: Dimension, b: string)
    requires log != []
    ensures |QueryCalls(log, h, d, b)| ==
            |QueryCalls(log[..|log| - 1], h, d, b)| + One(IsQuery(log, |log| - 1, h, d, b))
  {
    var init, last := log[..|log| - 1], |log| - 1;
    hide IsQuery;
    forall i: nat | i < |init|
      ensures IsQuery(log, i, h, d, b) <==> IsQuery(init, i, h, d, b)
    {
      PrefixMeans(log, i, true, h, d, b);
    }
    assert QueryCalls(log, h, d, b) == QueryCalls(init, h, d, b) + if IsQuery(log, last, h, d, b) then {last} else {};
  }

  lemma LabelsGrow(log: seq<Call>, passed: bool, h: string, d: Dimension, b: string)
    requires log != []
    ensures |LabelCalls(log, passed, h, d, b)| ==
            |LabelCalls(log[..|log| - 1], passed, h, d, b)| + One(IsLabel(log, |log| - 1, passed, h, d, b))
  {
    var init, last := log[..|log| - 1], |log| - 1;
    hide IsLabel;
    forall i: nat | i < |init|
      ensures IsLabel(log, i, passed, h, d, b) <==> IsLabel(init, i, passed, h, d, b)
    {
      PrefixMeans(log, i, passed, h, d, b);
    }
    GrowsBy(LabelCalls(log, passed, h, d, b), LabelCalls(init, passed, h, d, b), last,
            IsLabel(log, last, passed, h, d, b));
  }

  lemma GrowsBy(after: set<nat>, before: set<nat>, last: nat, grows: bool)
    requires last !in before && forall i: nat :: i in after <==> i in before || (grows && i == last)
    ensures |after| == |before| + One(grows)
  {
    assert after == before + if grows then {last} else {};
  }

  /** What `aggregate_stats` returns for a hash, on the fields of the calls: a row for each retrieval mode, or route
      tool, that a record of the hash has, `unknown` for an empty one; in it, how many records have that value, and how
      many labels of either kind were recorded with them or attached to them. */
  lemma StatsCountFields(log: seq<Call>, h: string, d: Dimension, b: string)
    requires Unprefixed(log, h, d)
    ensures var s := Stats(Run(log), h, d);
            && (b in s <==> exists e :: Record(e) in log && FiledUnder(e, h, d, b))
            && (b in s ==> s[b] == Row(|LabelCalls(log, true, h, d, b)|, |LabelCalls(log, false, h, d, b)|,
                                       |QueryCalls(log, h, d, b)|))
  {
    hide Stats, Run, Collides, QueryCalls, LabelCalls;
    UnprefixedNeverCollides(log, h, d);
    NoCollisionAgrees(log, h, d);
    ReferenceAt(log, h, d, b);
    CountsNeedRecords(log, h, d, b);
    CountsAreCalls(log, true, h, d, b);
    CountsAreCalls(log, false, h, d, b);
    assert forall e: Event :: Sees(e, h, d, b) <==> FiledUnder(e, h, d, b);
  }

  // ---- totals ------------------------------------------------------------------------------------------------------

  function Cell(row: Row, metric: string): nat {
    match metric
    case "queries" => row.queries
    case "pass" => row.pass
    case _ => row.fail
  }

  /** One metric of the statistics, added up over all buckets. */
  function SumCells(stats: map<string, Row>, metric: string): nat
    decreases |stats|
  {
    if stats == map[] then 0
    else var b := Least(stats.Keys); Cell(stats[b], metric) + SumCells(stats - {b}, metric)
  }

  /** The event that one call counts under a metric, if any. */
  function Counted(log: seq<Call>, c: Call, metric: string): Option<Event> {
    if metric == "queries" then if c.Record? then Some(c.event) else None else Labelled(log, c, metric == "pass")
  }

  /** What the log says about a hash, whatever the dimension: its records, or its recorded and attached labels. */
  function Own(log: seq<Call>, h: string, metric: string): nat {
    if log == [] then 0
    else
      var e := Counted(log[..|log| - 1], log[|log| - 1], metric);
      Own(log[..|log| - 1], h, metric) + One(e.Some? && e.value.patternHash == h)
  }

  /** The same of the events that collide with the queried key. */
  function Foreign(log: seq<Call>, h: string, d: Dimension, metric: string): nat {
    if log == [] then 0
    else
      var e := Counted(log[..|log| - 1], log[|log| - 1], metric);
      Foreign(log[..|log| - 1], h, d, metric) + One(e.Some? && Collides(e.value, h, d))
  }

  function Weighed(log: seq<Call>, key: string, b: string, metric: string): nat {
    if metric == "queries" then WeighedQueries(log, key, b) else WeighedLabels(log, key, b, metric == "pass")
  }

  function TotalWeighed(log: seq<Call>, key: string, metric: string, buckets: set<string>): nat
    decreases |buckets|
  {
    if buckets == {} then 0
    else var b := Least(buckets); Weighed(log, key, b, metric) + TotalWeighed(log, key, metric, buckets - {b})
  }

  function TheOther(d: Dimension): Dimension {
    if d == RouteTool then RetrievalMode else RouteTool
  }

  /** What one counted event adds to the buckets of a set. */
  function Added(e: Option<Event>, h: string, d: Dimension, buckets: set<string>): nat {
    match e
    case None => 0
    case Some(v) =>
      One(v.patternHash == h && v.Bucket(d) in buckets) + One(Collides(v, h, d) && v.Bucket(TheOther(d)) in buckets)
  }

  lemma {:induction false} TotalExtends(log: seq<Call>, h: string, d: Dimension, metric: string, buckets: set<string>)
    requires log != []
    ensures var init := log[..|log| - 1];
            TotalWeighed(log, AggKey(h, d), metric, buckets) ==
            TotalWeighed(init, AggKey(h, d), metric, buckets) +
              Added(Counted(init, log[|log| - 1], metric), h, d, buckets)
    decreases |buckets|
  {
    hide AggKey, Collides, Labelled;
    if buckets != {} {
      var b, e := Least(buckets), Counted(log[..|log| - 1], log[|log| - 1], metric);
      TotalExtends(log, h, d, metric, buckets - {b});
      if e.Some? {
        WeightSplits(e.value, h, d, b);
      }
    }
  }

  lemma {:induction false} TotalOfNone(key: string, metric: string, buckets: set<string>)
    ensures TotalWeighed([], key, metric, buckets) == 0
    decreases |buckets|
  {
    if buckets != {} {
      TotalOfNone(key, metric, buckets - {Least(buckets)});
    }
  }

  /** Every bucket that a recorded event counts under, in this dimension or by collision, is in the set. */
  ghost predicate Covers(log: seq<Call>, h: string, d: Dimension, buckets: set<string>) {
    forall e | Record(e) in log ::
      (e.patternHash == h ==> e.Bucket(d) in buckets) && (Collides(e, h, d) ==> e.Bucket(TheOther(d)) in buckets)
  }

  lemma {:induction false} TotalsAreCounts(log: seq<Call>, h: string, d: Dimension, metric: string,
                                           buckets: set<string>)
    requires Covers(log, h, d, buckets)
    ensures TotalWeighed(log, AggKey(h, d), metric, buckets) == Own(log, h, metric) + Foreign(log, h, d, metric)
  {
    hide AggKey, Collides, TotalWeighed;
    if log == [] {
      TotalOfNone(AggKey(h, d), metric, buckets);
    } else {
      var init, c := log[..|log| - 1], log[|log| - 1];
      assert log == init + [c];
      TotalsAreCounts(init, h, d, metric, buckets);
      TotalExtends(log, h, d, metric, buckets);
      CountedIsRecorded(init, c, metric);
    }
  }

  lemma CountedIsRecorded(log: seq<Call>, c: Call, metric: string)
    ensures Counted(log, c, metric).Some? ==> Record(Counted(log, c, metric).value) in log + [c]
  {
    if c.Attach? {
      LatestIsRecorded(log, c.requestId);
    }
  }

  lemma {:induction false} SumIsTotal(stats: map<string, Row>, log: seq<Call>, key: string, metric: string)
    requires forall b | b in stats :: Cell(stats[b], metric) == Weighed(log, key, b, metric)
    ensures SumCells(stats, metric) == TotalWeighed(log, key, metric, stats.Keys)
    decreases |stats|
  {
    hide Cell, Weighed;
    if stats != map[] {
      var b := Least(stats.Keys);
      assert (stats - {b}).Keys == stats.Keys - {b};
      SumIsTotal(stats - {b}, log, key, metric);
    }
  }

  lemma {:induction false} RecordWeighs(log: seq<Call>, e: Event, key: string, b: string)
    requires Record(e) in log
    ensures WeighedQueries(log, key, b) >= Weight(e, key, b)
  {
    var init, c := log[..|log| - 1], log[|log| - 1];
    assert log == init + [c];
    if c != Record(e) {
      RecordWeighs(init, e, key, b);
    }
  }

  lemma StatsCover(log: seq<Call>, h: string, d: Dimension)
    ensures Covers(log, h, d, Stats(Run(log), h, d).Keys)
  {
    hide Stats, Run, AggKey, Collides;
    forall e | Record(e) in log
      ensures e.patternHash == h ==> e.Bucket(d) in Stats(Run(log), h, d)
      ensures Collides(e, h, d) ==> e.Bucket(TheOther(d)) in Stats(Run(log), h, d)
    {
      WeightCovers(log, e, h, d, e.Bucket(d));
      WeightCovers(log, e, h, d, e.Bucket(TheOther(d)));
    }
  }

  lemma WeightCovers(log: seq<Call>, e: Event, h: string, d: Dimension, b: string)
    requires Record(e) in log
    ensures Sees(e, h, d, b) || (Collides(e, h, d) && e.Bucket(TheOther(d)) == b) ==> b in Stats(Run(log), h, d)
  {
    hide Stats, Run, AggKey, Collides;
    RecordWeighs(log, e, AggKey(h, d), b);
    WeightSplits(e, h, d, b);
    StatsAt(log, h, d, b);
  }

  /** Added up over its buckets, each metric of the statistics is what the log says of the hash plus what collides. */
  lemma StatsTotals(log: seq<Call>, h: string, d: Dimension, metric: string)
    requires IsMetric(metric)
    ensures SumCells(Stats(Run(log), h, d), metric) == Own(log, h, metric) + Foreign(log, h, d, metric)
  {
    hide Stats, Run, AggKey, Covers, SumCells, TotalWeighed;
    var s := Stats(Run(log), h, d);
    forall b | b in s
      ensures Cell(s[b], metric) == Weighed(log, AggKey(h, d), b, metric)
    {
      StatsAt(log, h, d, b);
    }
    SumIsTotal(s, log, AggKey(h, d), metric);
    StatsCover(log, h, d);
    TotalsAreCounts(log, h, d, metric, s.Keys);
  }

  lemma {:induction false} NoneForeign(log: seq<Call>, h: string, d: Dimension, metric: string)
    ensures NoCollision(log, h, d) ==> Foreign(log, h, d, metric) == 0
    ensures Foreign(log, h, d, "queries") == 0 ==> NoCollision(log, h, d)
  {
    hide Collides;
    if log != [] {
      var init, c := log[..|log| - 1], log[|log| - 1];
      assert log == init + [c];
      NoneForeign(init, h, d, metric);
      CountedIsRecorded(init, c, metric);
    }
  }

  /** The query totals count the records of the hash exactly when nothing collides, and then every metric has the same
      total in both dimensions. */
  lemma TotalsAgreeAcrossDimensions(log: seq<Call>, h: string, metric: string)
    requires IsMetric(metric)
    ensures forall d: Dimension :: SumCells(Stats(Run(log), h, d), "queries") == Own(log, h, "queries") <==>
            NoCollision(log, h, d)
    ensures forall d: Dimension :: NoCollision(log, h, d) ==>
              SumCells(Stats(Run(log), h, d), metric) == Own(log, h, metric)
    ensures NoCollision(log, h, RetrievalMode) && NoCollision(log, h, RouteTool) ==>
              SumCells(Stats(Run(log), h, RetrievalMode), metric) == SumCells(Stats(Run(log), h, RouteTool), metric)
  {
    hide Stats, Run, SumCells, NoCollision, Own, Foreign;
    forall d: Dimension
      ensures SumCells(Stats(Run(log), h, d), "queries") == Own(log, h, "queries") <==> NoCollision(log, h, d)
      ensures NoCollision(log, h, d) ==> SumCells(Stats(Run(log), h, d), metric) == Own(log, h, metric)
    {
      StatsTotals(log, h, d, "queries");
      StatsTotals(log, h, d, metric);
      NoneForeign(log, h, d, metric);
      NoneForeign(log, h, d, "queries");
    }
  }
}
