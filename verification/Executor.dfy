/** Bounded execution of generated Cypher (src/structured/retrieval/executor.py). */
module Executor {
  import opened Text

  type Row = map<string, string>

  /** What one `execute_once` call does: it returns rows, or raises. */
  datatype Outcome = Rows(rows: seq<Row>) | Raised(message: string)

  /** The injected callables. The stateful ones see how many calls were made before them; `sqlIssue` is pure. */
  datatype World = World(
    maxAttempts: int,
    executeOnce: (nat, string) -> Outcome,
    regenerate: (nat, string, string) -> Option<string>,
    sqlIssue: string -> Option<string>,
    repair: Option<(nat, string) -> string>)
  {
    /** `max(1, int(max_attempts))`. */
    function Max(): (m: nat)
      ensures m >= 1
    {
      if maxAttempts < 1 then 1 else maxAttempts
    }

    /** An empty message is falsy, so it flags nothing. */
    predicate Flagged(cypher: string) {
      sqlIssue(cypher).Some? && sqlIssue(cypher).value != ""
    }
  }

  datatype ExecuteResult = ExecuteResult(rows: seq<Row>, cypher: string, error: Option<string>, attempts: nat)

  /** One call of an injected callable, in the order they are made. */
  datatype Action =
    | Executed(cypher: string, outcome: Outcome)
    | Repaired(input: string, output: string)
    | Regenerated(input: string, error: string, candidate: Option<string>)

  /** The loop's variables, with the calls made so far. */
  datatype State = State(
    cypher: string,
    lastErr: Option<string>,
    executions: nat,
    regenerations: nat,
    graceUsed: bool,
    trace: seq<Action>)

  datatype Config = Running(state: State) | Finished(result: ExecuteResult, final: State)

  /** `a or b` on optional text. */
  function Or(a: Option<string>, b: string): string {
    if a.Some? && a.value != "" then a.value else b
  }

  function Initial(initialCypher: Option<string>): State {
    State(Strip(Or(initialCypher, "")), None, 0, 0, false, [])
  }

  /** `fixed and fixed.strip() != cypher.strip()`. */
  predicate Different(fixed: Option<string>, cypher: string) {
    fixed.Some? && fixed.value != "" && Strip(fixed.value) != Strip(cypher)
  }

  function Fail(s: State, error: Option<string>): Config {
    Finished(ExecuteResult([], s.cypher, error, s.executions), s)
  }

  /** The tail shared by both failure paths: regenerate within budget, and go on only with a different query. */
  function Regenerate(w: World, s: State, problem: string, error: Option<string>): Config {
    if s.regenerations >= w.Max() then Fail(s, error)
    else
      var fixed := w.regenerate(s.regenerations, s.cypher, problem);
      var s' := s.(regenerations := s.regenerations + 1, trace := s.trace + [Regenerated(s.cypher, problem, fixed)]);
      if Different(fixed, s.cypher)
      then Running(s'.(cypher := Strip(fixed.value)))
      else Fail(s', error)
  }

  /** After a failed execution: a repair that changes the query is free, otherwise regenerate. */
  function Recover(w: World, s: State, message: string): Config {
    if w.repair.Some? then
      var repaired := w.repair.value(|s.trace|, s.cypher);
      var s' := s.(trace := s.trace + [Repaired(s.cypher, repaired)]);
      if Strip(repaired) != Strip(s.cypher) then Running(s'.(cypher := Strip(repaired)))
      else Regenerate(w, s', message, s.lastErr)
    else Regenerate(w, s, message, s.lastErr)
  }

  /** One pass of the loop body. */
  function Step(w: World, s: State): Config {
    if s.cypher == "" then Finished(ExecuteResult([], "", Some("Empty Cypher."), s.executions), s)
    else if w.Flagged(s.cypher) then
      var issue := w.sqlIssue(s.cypher).value;
      var error := Some(Or(s.lastErr, issue));
      if w.repair.Some? then
        var repaired := w.repair.value(|s.trace|, s.cypher);
        var s' := s.(trace := s.trace + [Repaired(s.cypher, repaired)]);
        if Strip(repaired) != Strip(s.cypher) && !w.Flagged(repaired)
        then Running(s'.(cypher := Strip(repaired)))
        else Regenerate(w, s', issue, error)
      else Regenerate(w, s, issue, error)
    else
      var spent := s.executions >= w.Max();
      if spent && s.graceUsed then Fail(s, s.lastErr)
      else
        var outcome := w.executeOnce(s.executions, s.cypher);
        var s' := s.(executions := s.executions + 1, graceUsed := s.graceUsed || spent,
                     trace := s.trace + [Executed(s.cypher, outcome)]);
        match outcome
        case Rows(rows) => Finished(ExecuteResult(rows, s.cypher, None, s'.executions), s')
        case Raised(message) =>
          var s'' := s'.(lastErr := Some(message));
          if s''.graceUsed && spent then Fail(s'', s''.lastErr) else Recover(w, s'', message)
  }

  /** At most `n` passes. */
  function Iterate(w: World, s: State, n: nat): Config
    decreases n
  {
    if n == 0 then Running(s)
    else match Step(w, s)
      case Running(s') => Iterate(w, s', n - 1)
      case Finished(r, f) => Finished(r, f)
  }

  // ---- what every pass keeps ------------------------------------------------------------------------------------

  function Last(trace: seq<Action>): Action
    requires trace != []
  {
    trace[|trace| - 1]
  }

  function Executions(trace: seq<Action>): nat {
    if trace == [] then 0 else Executions(trace[..|trace| - 1]) + if Last(trace).Executed? then 1 else 0
  }

  function Regenerations(trace: seq<Action>): nat {
    if trace == [] then 0 else Regenerations(trace[..|trace| - 1]) + if Last(trace).Regenerated? then 1 else 0
  }

  /** Only non-empty, unflagged queries were executed, and all but the last execution raised. */
  ghost predicate CleanTrace(w: World, trace: seq<Action>) {
    && (forall i | 0 <= i < |trace| && trace[i].Executed? :: trace[i].cypher != "" && !w.Flagged(trace[i].cypher))
    && (forall i | 0 <= i < |trace| - 1 && trace[i].Executed? :: trace[i].outcome.Raised?)
  }

  ghost predicate Counted(w: World, s: State) {
    && s.cypher == Strip(s.cypher)
    && CleanTrace(w, s.trace)
    && Executions(s.trace) == s.executions
    && Regenerations(s.trace) == s.regenerations <= w.Max()
  }

  /** Between passes the grace execution is still unused, which leaves the guard on it unreachable. */
  ghost predicate Inv(w: World, s: State) {
    && Counted(w, s)
    && !s.graceUsed
    && (s.trace != [] && Last(s.trace).Regenerated? && Last(s.trace).candidate.Some? ==>
          s.cypher == Strip(Last(s.trace).candidate.value))
    && s.executions <= w.Max()
    && (forall i | 0 <= i < |s.trace| && s.trace[i].Executed? :: s.trace[i].outcome.Raised?)
  }

  /** What the finished run promises about its result and the calls it made. The last two clauses say that nothing is
      repaired or regenerated after the grace execution, and that a different, executable candidate is never dropped
      untried. */
  ghost predicate Promise(w: World, r: ExecuteResult, f: State) {
    && CleanTrace(w, f.trace)
    && r.attempts == Executions(f.trace) <= w.Max() + 1
    && Regenerations(f.trace) <= w.Max()
    && (r.error.None? <==> f.trace != [] && Last(f.trace) == Executed(r.cypher, Rows(r.rows)))
    && (r.error.Some? ==> r.rows == [])
    && (r.attempts == w.Max() + 1 ==> Last(f.trace).Executed?)
    && (f.trace != [] && Last(f.trace).Regenerated? && Different(Last(f.trace).candidate, Last(f.trace).input) ==>
          Strip(Last(f.trace).candidate.value) == "" || w.Flagged(Strip(Last(f.trace).candidate.value)))
  }

  lemma Extend(trace: seq<Action>, a: Action)
    ensures (trace + [a])[..|trace|] == trace
    ensures Executions(trace + [a]) == Executions(trace) + if a.Executed? then 1 else 0
    ensures Regenerations(trace + [a]) == Regenerations(trace) + if a.Regenerated? then 1 else 0
  {
    assert (trace + [a])[..|trace|] == trace;
  }

  lemma RegenerateKeeps(w: World, s: State, problem: string, error: Option<string>)
    requires Inv(w, s) && error.Some?
    requires w.Flagged(s.cypher) || (s.trace != [] && !Last(s.trace).Regenerated?)
    ensures match Regenerate(w, s, problem, error)
            case Running(s') => Inv(w, s') && s'.executions == s.executions && s'.regenerations == s.regenerations + 1
            case Finished(r, f) => Promise(w, r, f)
  {
    hide Strip;
    var fixed := w.regenerate(s.regenerations, s.cypher, problem);
    Extend(s.trace, Regenerated(s.cypher, problem, fixed));
    if s.regenerations < w.Max() {
      if fixed.Some? {
        StripIdempotent(fixed.value);
      }
    }
  }

  lemma RepairKeeps(w: World, s: State, repaired: string)
    requires Inv(w, s)
    ensures Inv(w, s.(trace := s.trace + [Repaired(s.cypher, repaired)]))
    ensures Inv(w, s.(trace := s.trace + [Repaired(s.cypher, repaired)], cypher := Strip(repaired)))
  {
    Extend(s.trace, Repaired(s.cypher, repaired));
    StripIdempotent(repaired);
  }

  lemma RecoverKeeps(w: World, s: State, message: string)
    requires Inv(w, s) && s.lastErr.Some? && s.trace != [] && Last(s.trace).Executed?
    ensures match Recover(w, s, message)
            case Running(s') => Inv(w, s') && s'.executions == s.executions && s.regenerations <= s'.regenerations
            case Finished(r, f) => Promise(w, r, f)
  {
    if w.repair.Some? {
      var repaired := w.repair.value(|s.trace|, s.cypher);
      RepairKeeps(w, s, repaired);
      RegenerateKeeps(w, s.(trace := s.trace + [Repaired(s.cypher, repaired)]), message, s.lastErr);
    } else {
      RegenerateKeeps(w, s, message, s.lastErr);
    }
  }

  lemma ExecuteKeeps(w: World, s: State)
    requires Inv(w, s) && s.cypher != "" && !w.Flagged(s.cypher)
    ensures match Step(w, s)
            case Running(s') => Inv(w, s') && s.executions < w.Max() && s'.executions == s.executions + 1
                                && s.regenerations <= s'.regenerations
            case Finished(r, f) => Promise(w, r, f)
  {
    hide Recover, Strip;
    var spent := s.executions >= w.Max();
    var outcome := w.executeOnce(s.executions, s.cypher);
    Extend(s.trace, Executed(s.cypher, outcome));
    if outcome.Raised? && !spent {
      var s' := s.(executions := s.executions + 1, lastErr := Some(outcome.message),
                   trace := s.trace + [Executed(s.cypher, outcome)]);
      assert Inv(w, s');
      RecoverKeeps(w, s', outcome.message);
    }
  }

  lemma StepKeeps(w: World, s: State)
    requires Inv(w, s)
    ensures match Step(w, s)
            case Running(s') => Inv(w, s') && s.executions <= s'.executions && s.regenerations <= s'.regenerations
            case Finished(r, f) => Promise(w, r, f)
  {
    if s.cypher != "" {
      if w.Flagged(s.cypher) {
        var issue := w.sqlIssue(s.cypher).value;
        var error := Some(Or(s.lastErr, issue));
        if w.repair.Some? {
          var repaired := w.repair.value(|s.trace|, s.cypher);
          RepairKeeps(w, s, repaired);
          RegenerateKeeps(w, s.(trace := s.trace + [Repaired(s.cypher, repaired)]), issue, error);
        } else {
          RegenerateKeeps(w, s, issue, error);
        }
      } else {
        ExecuteKeeps(w, s);
      }
    }
  }

  /** Whatever the callables do, a run that finishes keeps its promise, and a run in progress keeps the invariant. */
  lemma {:induction false} EveryRun(w: World, s: State, n: nat)
    requires Inv(w, s)
    ensures match Iterate(w, s, n)
            case Running(s') => Inv(w, s')
            case Finished(r, f) => Promise(w, r, f)
    decreases n
  {
    hide Promise, Inv, Step;
    if n > 0 {
      StepKeeps(w, s);
      if Step(w, s).Running? {
        EveryRun(w, Step(w, s).state, n - 1);
      }
    }
  }

  lemma InitialInv(w: World, initialCypher: Option<string>)
    ensures Inv(w, Initial(initialCypher))
  {
    StripIdempotent(Or(initialCypher, ""));
  }

  // ---- the order of the calls ------------------------------------------------------------------------------------

  /** The query the calls so far leave in hand; an execution leaves none, until it is repaired or regenerated. */
  ghost predicate InHand(start: string, trace: seq<Action>, q: string) {
    if trace == [] then q == start
    else match Last(trace)
      case Executed(_, _) => false
      case Repaired(_, output) => Strip(output) == q
      case Regenerated(_, _, candidate) => candidate.Some? && Strip(candidate.value) == q
  }

  /** The query in hand was just executed, and failed with this error. */
  ghost predicate JustFailed(trace: seq<Action>, q: string) {
    trace != [] && Last(trace).Executed? && Last(trace).cypher == q && Last(trace).outcome.Raised?
  }

  /** When a call may come: what is executed is the query in hand; a repair comes before any execution only for a
      flagged query, and otherwise right after its failure; a regeneration comes only after a repair was tried, where
      there is one, and is told the issue or the error at hand. */
  ghost predicate Follows(w: World, start: string, before: seq<Action>, a: Action) {
    match a
    case Executed(q, _) => InHand(start, before, q)
    case Repaired(q, _) => if w.Flagged(q) then InHand(start, before, q) else JustFailed(before, q)
    case Regenerated(q, e, _) =>
      && (w.Flagged(q) ==> w.sqlIssue(q) == Some(e))
      && (if w.repair.Some? then before != [] && Last(before).Repaired? && Last(before).input == q
          else if w.Flagged(q) then InHand(start, before, q)
          else before != [] && Last(before) == Executed(q, Raised(e)))
  }

  ghost predicate Ordered(w: World, start: string, trace: seq<Action>) {
    trace == [] || (Ordered(w, start, trace[..|trace| - 1]) && Follows(w, start, trace[..|trace| - 1], Last(trace)))
  }

  lemma OrderedSnoc(w: World, start: string, trace: seq<Action>, a: Action)
    requires Ordered(w, start, trace) && Follows(w, start, trace, a)
    ensures Ordered(w, start, trace + [a])
  {
    assert (trace + [a])[..|trace|] == trace;
  }

  /** What a pass, or its tail, may return. */
  ghost predicate OrderKept(w: World, start: string, c: Config) {
    match c
    case Running(s) => Ordered(w, start, s.trace) && InHand(start, s.trace, s.cypher)
    case Finished(_, f) => Ordered(w, start, f.trace)
  }

  lemma RegenerateOrder(w: World, start: string, s: State, problem: string, error: Option<string>)
    requires Ordered(w, start, s.trace)
    requires forall c :: Follows(w, start, s.trace, Regenerated(s.cypher, problem, c))
    ensures OrderKept(w, start, Regenerate(w, s, problem, error))
  {
    hide Strip;
    OrderedSnoc(w, start, s.trace, Regenerated(s.cypher, problem, w.regenerate(s.regenerations, s.cypher, problem)));
  }

  lemma RecoverOrder(w: World, start: string, s: State, message: string)
    requires Ordered(w, start, s.trace) && !w.Flagged(s.cypher)
    requires s.trace != [] && Last(s.trace) == Executed(s.cypher, Raised(message))
    ensures OrderKept(w, start, Recover(w, s, message))
  {
    hide Strip, Regenerate;
    if w.repair.Some? {
      var a := Repaired(s.cypher, w.repair.value(|s.trace|, s.cypher));
      OrderedSnoc(w, start, s.trace, a);
      RegenerateOrder(w, start, s.(trace := s.trace + [a]), message, s.lastErr);
    } else {
      RegenerateOrder(w, start, s, message, s.lastErr);
    }
  }

  lemma StepOrder(w: World, start: string, s: State)
    requires OrderKept(w, start, Running(s))
    ensures OrderKept(w, start, Step(w, s))
  {
    hide Strip, Regenerate, Recover;
    if s.cypher != "" && w.Flagged(s.cypher) {
      var issue := w.sqlIssue(s.cypher).value;
      var error := Some(Or(s.lastErr, issue));
      if w.repair.Some? {
        var a := Repaired(s.cypher, w.repair.value(|s.trace|, s.cypher));
        OrderedSnoc(w, start, s.trace, a);
        RegenerateOrder(w, start, s.(trace := s.trace + [a]), issue, error);
      } else {
        RegenerateOrder(w, start, s, issue, error);
      }
    } else if s.cypher != "" {
      var outcome := w.executeOnce(s.executions, s.cypher);
      OrderedSnoc(w, start, s.trace, Executed(s.cypher, outcome));
      if outcome.Raised? {
        var spent := s.executions >= w.Max();
        var s' := s.(executions := s.executions + 1, graceUsed := s.graceUsed || spent,
                     lastErr := Some(outcome.message), trace := s.trace + [Executed(s.cypher, outcome)]);
        RecoverOrder(w, start, s', outcome.message);
      }
    }
  }

  /** In every run the calls come in the documented order, from the stripped initial query on. */
  lemma {:induction false} CallOrder(w: World, start: string, s: State, n: nat)
    requires OrderKept(w, start, Running(s))
    ensures OrderKept(w, start, Iterate(w, s, n))
    decreases n
  {
    hide OrderKept, Step;
    if n > 0 {
      StepOrder(w, start, s);
      if Step(w, s).Running? {
        CallOrder(w, start, Step(w, s).state, n - 1);
      }
    }
  }

  lemma RunOrder(w: World, initialCypher: Option<string>, n: nat)
    requires Iterate(w, Initial(initialCypher), n).Finished?
    ensures Ordered(w, Strip(Or(initialCypher, "")), Iterate(w, Initial(initialCypher), n).final.trace)
  {
    CallOrder(w, Strip(Or(initialCypher, "")), Initial(initialCypher), n);
  }

  // ---- the protocol: what is due after the calls so far ----------------------------------------------------------

  /** The next call, or none. */
  datatype Due = Execute(query: string) | Repair(query: string) | Regeneration(query: string, error: string) | Stop

  predicate TakesRepair(w: World, input: string, output: string) {
    Strip(output) != Strip(input) && (w.Flagged(input) ==> !w.Flagged(output))
  }

  predicate TakesCandidate(input: string, candidate: Option<string>) {
    candidate.Some? && candidate.value != "" && Strip(candidate.value) != Strip(input)
  }

  /** The query in hand. A repair or a candidate that is taken replaces the one it was made from. */
  function Hand(w: World, start: string, trace: seq<Action>): string {
    if trace == [] then start
    else match Last(trace)
      case Executed(q, _) => q
      case Repaired(q, output) => if TakesRepair(w, q, output) then Strip(output) else q
      case Regenerated(q, _, candidate) => if TakesCandidate(q, candidate) then Strip(candidate.value) else q
  }

  /** Is the query in hand new, so that nothing was done with it yet? */
  predicate Fresh(w: World, trace: seq<Action>) {
    trace == [] ||
    match Last(trace)
    case Executed(_, _) => false
    case Repaired(q, output) => TakesRepair(w, q, output)
    case Regenerated(q, _, candidate) => TakesCandidate(q, candidate)
  }

  /** The last error an execution raised. */
  function LastRaised(trace: seq<Action>): Option<string> {
    if trace == [] then None
    else if Last(trace).Executed? && Last(trace).outcome.Raised? then Some(Last(trace).outcome.message)
    else LastRaised(trace[..|trace| - 1])
  }

  /** What there is to say against a query: the issue of a flagged one, otherwise the last error. */
  function Complaint(w: World, trace: seq<Action>, q: string): string {
    if w.Flagged(q) then w.sqlIssue(q).value else if LastRaised(trace).Some? then LastRaised(trace).value else ""
  }

  function DueRegeneration(w: World, trace: seq<Action>, q: string): Due {
    if Regenerations(trace) < w.maxAttempts || Regenerations(trace) == 0
    then Regeneration(q, Complaint(w, trace, q)) else Stop
  }

  function DueRemedy(w: World, trace: seq<Action>, q: string): Due {
    if w.repair.Some? then Repair(q) else DueRegeneration(w, trace, q)
  }

  /** The whole protocol, stated on the calls alone: a new query is executed unless it is empty or flagged; what is
      flagged or failed is repaired once, if there is a repair, and otherwise or then regenerated, within the budget;
      after the grace execution, rows, or a candidate that is no different, nothing is due. */
  function DueAfter(w: World, start: string, trace: seq<Action>): Due {
    var q := Hand(w, start, trace);
    if Fresh(w, trace) then
      if q == "" then Stop else if w.Flagged(q) then DueRemedy(w, trace, q) else Execute(q)
    else match Last(trace)
      case Executed(_, Rows(_)) => Stop
      case Executed(_, Raised(_)) =>
        if Executions(trace) > w.maxAttempts && Executions(trace) > 1 then Stop else DueRemedy(w, trace, q)
      case Repaired(_, _) => DueRegeneration(w, trace, q)
      case Regenerated(_, _, _) => Stop
  }

  /** Is this the call that is due, answered by its callable? */
  predicate Answers(w: World, start: string, before: seq<Action>, a: Action) {
    match DueAfter(w, start, before)
    case Execute(q) => a == Executed(q, w.executeOnce(Executions(before), q))
    case Repair(q) => w.repair.Some? && a == Repaired(q, w.repair.value(|before|, q))
    case Regeneration(q, e) => a == Regenerated(q, e, w.regenerate(Regenerations(before), q, e))
    case Stop => false
  }

  ghost predicate Lawful(w: World, start: string, trace: seq<Action>) {
    trace == [] ||
    (Lawful(w, start, trace[..|trace| - 1]) && Answers(w, start, trace[..|trace| - 1], Last(trace)))
  }

  /** The result of a run that made these calls. */
  function Verdict(w: World, start: string, trace: seq<Action>): ExecuteResult {
    var q := Hand(w, start, trace);
    if trace != [] && Last(trace).Executed? && Last(trace).outcome.Rows? then
      ExecuteResult(Last(trace).outcome.rows, q, None, Executions(trace))
    else if q == "" then ExecuteResult([], "", Some("Empty Cypher."), Executions(trace))
    else
      var raised := LastRaised(trace);
      ExecuteResult([], q, if raised.Some? && (raised.value != "" || !w.Flagged(q)) then raised else w.sqlIssue(q),
                    Executions(trace))
  }

  /** The loop's variables are what the calls so far say. */
  ghost predicate Reflects(w: World, start: string, s: State) {
    && Lawful(w, start, s.trace) && Hand(w, start, s.trace) == s.cypher == Strip(s.cypher)
    && Executions(s.trace) == s.executions && Regenerations(s.trace) == s.regenerations
    && LastRaised(s.trace) == s.lastErr
  }

  ghost predicate Obeys(w: World, start: string, c: Config) {
    match c
    case Running(s) => Reflects(w, start, s) && Fresh(w, s.trace) && s.executions <= w.Max() && !s.graceUsed
    case Finished(r, f) =>
      Lawful(w, start, f.trace) && DueAfter(w, start, f.trace) == Stop && r == Verdict(w, start, f.trace)
  }

  lemma LawfulSnoc(w: World, start: string, trace: seq<Action>, a: Action)
    requires Lawful(w, start, trace) && Answers(w, start, trace, a)
    ensures Lawful(w, start, trace + [a])
    ensures LastRaised(trace + [a]) ==
            if a.Executed? && a.outcome.Raised? then Some(a.outcome.message) else LastRaised(trace)
  {
    assert (trace + [a])[..|trace|] == trace;
  }

  /** The shared tail: regeneration is due, or nothing. */
  lemma RegenerateObeys(w: World, start: string, s: State, problem: string, error: Option<string>)
    requires Reflects(w, start, s) && s.cypher != "" && s.executions <= w.Max() && !s.graceUsed
    requires DueAfter(w, start, s.trace) == DueRegeneration(w, s.trace, s.cypher)
    requires problem == Complaint(w, s.trace, s.cypher) && (w.Flagged(s.cypher) || s.lastErr.Some?)
    requires error == Verdict(w, start, s.trace).error && (s.trace != [] ==> !IsRows(Last(s.trace)))
    ensures Obeys(w, start, Regenerate(w, s, problem, error))
  {
    hide Strip;
    var fixed := w.regenerate(s.regenerations, s.cypher, problem);
    var a := Regenerated(s.cypher, problem, fixed);
    if s.regenerations < w.Max() {
      LawfulSnoc(w, start, s.trace, a);
      Extend(s.trace, a);
      if fixed.Some? {
        StripIdempotent(fixed.value);
      }
    }
  }

  predicate IsRows(a: Action) {
    a.Executed? && a.outcome.Rows?
  }

  /** A repair that is due. */
  lemma RepairObeys(w: World, start: string, s: State)
    requires Reflects(w, start, s) && DueAfter(w, start, s.trace) == Repair(s.cypher) && w.repair.Some?
    ensures var output := w.repair.value(|s.trace|, s.cypher);
            var s' := s.(trace := s.trace + [Repaired(s.cypher, output)]);
            if TakesRepair(w, s.cypher, output)
            then Reflects(w, start, s'.(cypher := Strip(output))) && Fresh(w, s'.trace)
            else Reflects(w, start, s') && DueAfter(w, start, s'.trace) == DueRegeneration(w, s'.trace, s.cypher)
  {
    hide Strip;
    var output := w.repair.value(|s.trace|, s.cypher);
    var a := Repaired(s.cypher, output);
    LawfulSnoc(w, start, s.trace, a);
    Extend(s.trace, a);
    StripIdempotent(output);
  }

  /** A flagged query. */
  lemma FlaggedObeys(w: World, start: string, s: State)
    requires Obeys(w, start, Running(s)) && s.cypher != "" && w.Flagged(s.cypher)
    ensures Obeys(w, start, Step(w, s))
  {
    hide Strip, Lawful, Regenerate;
    var issue := w.sqlIssue(s.cypher).value;
    var error := Some(Or(s.lastErr, issue));
    if w.repair.Some? {
      var repaired := w.repair.value(|s.trace|, s.cypher);
      var s' := s.(trace := s.trace + [Repaired(s.cypher, repaired)]);
      RepairObeys(w, start, s);
      if !TakesRepair(w, s.cypher, repaired) {
        RegenerateObeys(w, start, s', issue, error);
      }
    } else {
      assert s.trace != [] ==> !IsRows(Last(s.trace));
      RegenerateObeys(w, start, s, issue, error);
    }
  }

  /** A failed execution within the budget. */
  lemma RecoverObeys(w: World, start: string, s: State, message: string)
    requires Reflects(w, start, s) && s.cypher != "" && s.executions <= w.Max() && !s.graceUsed && !w.Flagged(s.cypher)
    requires s.trace != [] && Last(s.trace) == Executed(s.cypher, Raised(message)) && s.lastErr == Some(message)
    requires DueAfter(w, start, s.trace) == DueRemedy(w, s.trace, s.cypher)
    ensures Obeys(w, start, Recover(w, s, message))
  {
    hide Strip, Lawful, Regenerate;
    if w.repair.Some? {
      var repaired := w.repair.value(|s.trace|, s.cypher);
      var s' := s.(trace := s.trace + [Repaired(s.cypher, repaired)]);
      RepairObeys(w, start, s);
      if !TakesRepair(w, s.cypher, repaired) {
        assert s'.lastErr == LastRaised(s'.trace) == Some(message);
        RegenerateObeys(w, start, s', message, s'.lastErr);
      }
    } else {
      RegenerateObeys(w, start, s, message, s.lastErr);
    }
  }

  lemma ExecuteObeys(w: World, start: string, s: State)
    requires Obeys(w, start, Running(s)) && s.cypher != "" && !w.Flagged(s.cypher)
    ensures Obeys(w, start, Step(w, s))
  {
    hide Strip, Recover;
    var spent := s.executions >= w.Max();
    var outcome := w.executeOnce(s.executions, s.cypher);
    var a := Executed(s.cypher, outcome);
    LawfulSnoc(w, start, s.trace, a);
    Extend(s.trace, a);
    if outcome.Raised? && !spent {
      var s' := s.(executions := s.executions + 1, lastErr := Some(outcome.message), trace := s.trace + [a]);
      RecoverObeys(w, start, s', outcome.message);
    }
  }

  /** Every run follows the protocol, call by call, for all callables; and when it ends nothing is due, and its result
      is what its calls say. */
  lemma {:induction false} RunObeys(w: World, start: string, s: State, n: nat)
    requires Obeys(w, start, Running(s))
    ensures Obeys(w, start, Iterate(w, s, n))
    decreases n
  {
    hide Obeys, Step;
    if n > 0 {
      StepObeys(w, start, s);
      if Step(w, s).Running? {
        RunObeys(w, start, Step(w, s).state, n - 1);
      }
    }
  }

  lemma StepObeys(w: World, start: string, s: State)
    requires Obeys(w, start, Running(s))
    ensures Obeys(w, start, Step(w, s))
  {
    if s.cypher != "" {
      if w.Flagged(s.cypher) {
        FlaggedObeys(w, start, s);
      } else {
        ExecuteObeys(w, start, s);
      }
    }
  }

  /** Every finished run is a run of the protocol, from the stripped initial query. */
  lemma RunFollowsProtocol(w: World, initialCypher: Option<string>, n: nat)
    requires Iterate(w, Initial(initialCypher), n).Finished?
    ensures var start := if initialCypher.Some? then Strip(initialCypher.value) else "";
            var c := Iterate(w, Initial(initialCypher), n);
            Lawful(w, start, c.final.trace) && DueAfter(w, start, c.final.trace) == Stop &&
            c.result == Verdict(w, start, c.final.trace)
  {
    hide Lawful, DueAfter, Verdict;
    InitialObeys(w, initialCypher);
    RunObeys(w, if initialCypher.Some? then Strip(initialCypher.value) else "", Initial(initialCypher), n);
  }

  lemma InitialObeys(w: World, initialCypher: Option<string>)
    ensures Obeys(w, if initialCypher.Some? then Strip(initialCypher.value) else "", Running(Initial(initialCypher)))
  {
    assert Strip("") == "";
    StripIdempotent(if initialCypher.Some? then initialCypher.value else "");
  }

  /** The protocol leaves no choice: of two lists of calls it allows, one begins with the other, and the ended one is
      unique. */
  lemma {:induction false} ProtocolDetermines(w: World, start: string, a: seq<Action>, b: seq<Action>)
    requires Lawful(w, start, a) && Lawful(w, start, b) && |a| <= |b|
    ensures a <= b
    ensures DueAfter(w, start, a) == Stop ==> a == b
    decreases |b|
  {
    hide Answers, DueAfter;
    if |a| < |b| {
      ProtocolDetermines(w, start, a, b[..|b| - 1]);
      NothingAfterStop(w, start, b, |a|);
    } else if b != [] {
      ProtocolDetermines(w, start, a[..|a| - 1], b[..|b| - 1]);
      assert a[..|a| - 1] == b[..|b| - 1];
      OneAnswer(w, start, a[..|a| - 1], Last(a), Last(b));
      assert a == a[..|a| - 1] + [Last(a)] && b == b[..|b| - 1] + [Last(b)];
    }
  }

  lemma OneAnswer(w: World, start: string, before: seq<Action>, x: Action, y: Action)
    requires Answers(w, start, before, x) && Answers(w, start, before, y)
    ensures x == y
  {
  }

  lemma {:induction false} NothingAfterStop(w: World, start: string, trace: seq<Action>, i: nat)
    requires Lawful(w, start, trace) && i < |trace|
    ensures DueAfter(w, start, trace[..i]) != Stop
  {
    hide DueAfter;
    if i < |trace| - 1 {
      NothingAfterStop(w, start, trace[..|trace| - 1], i);
      assert trace[..|trace| - 1][..i] == trace[..i];
    }
  }

  /** What was tried and is not flagged has raised an error. */
  lemma {:induction false} UnflaggedRaised(w: World, start: string, trace: seq<Action>)
    requires Lawful(w, start, trace) && !Fresh(w, trace) && !IsRows(Last(trace)) && !w.Flagged(Hand(w, start, trace))
    ensures LastRaised(trace).Some?
  {
    hide Strip, Lawful;
    var init := trace[..|trace| - 1];
    assert Lawful(w, start, init) && Answers(w, start, init, Last(trace)) by {
      LawfulInit(w, start, trace);
    }
    if !Last(trace).Executed? && !Fresh(w, init) {
      UnflaggedRaised(w, start, init);
    }
  }

  lemma LawfulInit(w: World, start: string, trace: seq<Action>)
    requires Lawful(w, start, trace) && trace != []
    ensures Lawful(w, start, trace[..|trace| - 1]) && Answers(w, start, trace[..|trace| - 1], Last(trace))
  {
  }

  /** Where nothing is due. */
  lemma StopCases(w: World, start: string, trace: seq<Action>)
    requires DueAfter(w, start, trace) == Stop && (trace != [] ==> !IsRows(Last(trace)))
    ensures || Hand(w, start, trace) == ""
            || Executions(trace) >= w.Max() + 1
            || Regenerations(trace) >= w.Max()
            || (trace != [] && Last(trace).Regenerated? && !TakesCandidate(Last(trace).input, Last(trace).candidate))
    ensures Hand(w, start, trace) != "" ==> !Fresh(w, trace) || w.Flagged(Hand(w, start, trace))
  {
    hide Strip;
  }

  /** The budget is used: a run gives up only on an empty query, after `max_attempts + 1` executions, after
      `max_attempts` regenerations, or on a candidate that is missing or no different; and its error is the last one
      raised, or else the issue of the query it gave up on. */
  lemma GivesUpOnlyWhen(w: World, initialCypher: Option<string>, n: nat)
    requires Iterate(w, Initial(initialCypher), n).Finished? && Iterate(w, Initial(initialCypher), n).result.error.Some?
    ensures var r, t := Iterate(w, Initial(initialCypher), n).result, Iterate(w, Initial(initialCypher), n).final.trace;
            var budget := if w.maxAttempts < 1 then 1 else w.maxAttempts;
            && (|| r.cypher == ""
                || Executions(t) == budget + 1
                || Regenerations(t) == budget
                || (t != [] && t[|t| - 1].Regenerated? &&
                    var (q, c) := (t[|t| - 1].input, t[|t| - 1].candidate);
                    c.None? || c.value == "" || Strip(c.value) == Strip(q)))
            && (if r.cypher == "" then r.error == Some("Empty Cypher.")
                else if LastRaised(t).Some? && LastRaised(t).value != "" then r.error == LastRaised(t)
                else if w.Flagged(r.cypher) then r.error == w.sqlIssue(r.cypher)
                else r.error == LastRaised(t))
  {
    var start := if initialCypher.Some? then Strip(initialCypher.value) else "";
    var r, t := Iterate(w, Initial(initialCypher), n).result, Iterate(w, Initial(initialCypher), n).final.trace;
    hide Iterate, Lawful, Strip, CleanTrace, DueAfter, Hand, Fresh, LastRaised, Initial, Executions, Regenerations;
    RunFollowsProtocol(w, initialCypher, n);
    InitialInv(w, initialCypher);
    EveryRun(w, Initial(initialCypher), n);
    StopCases(w, start, t);
    if r.cypher != "" && !w.Flagged(r.cypher) {
      UnflaggedRaised(w, start, t);
    }
  }

  /** What happens first, on the callables alone: a query without an issue, or with an empty one, is executed; one with
      an issue is handed to the repair, or without one to the regenerator. */
  lemma FirstCall(w: World, query: string, n: nat)
    requires Strip(query) != "" && Iterate(w, Initial(Some(query)), n).Finished?
    ensures var q, t := Strip(query), Iterate(w, Initial(Some(query)), n).final.trace;
            t != [] && t[0] == (if w.sqlIssue(q).None? || w.sqlIssue(q).value == ""
                                then Executed(q, w.executeOnce(0, q))
                                else if w.repair.Some? then Repaired(q, w.repair.value(0, q))
                                else var e := w.sqlIssue(q).value; Regenerated(q, e, w.regenerate(0, q, e)))
  {
    hide Strip, Iterate, Initial, Verdict;
    RunFollowsProtocol(w, Some(query), n);
    var t := Iterate(w, Initial(Some(query)), n).final.trace;
    assert DueAfter(w, Strip(query), []) != Stop;
    LawfulAt(w, Strip(query), t, 0);
    assert t[..0] == [];
  }

  lemma {:induction false} LawfulAt(w: World, start: string, trace: seq<Action>, i: nat)
    requires Lawful(w, start, trace)
    ensures i < |trace| ==> Answers(w, start, trace[..i], trace[i])
  {
    hide Answers;
    if i < |trace| - 1 {
      LawfulAt(w, start, trace[..|trace| - 1], i);
      assert trace[..|trace| - 1][..i] == trace[..i];
    }
  }

  // ---- termination ----------------------------------------------------------------------------------------------

  predicate Flags(sqlIssue: string -> Option<string>, cypher: string) {
    sqlIssue(cypher).Some? && sqlIssue(cypher).value != ""
  }

  /** A repair result that passes the test as returned, and fails it as stored (stripped). */
  predicate Trap(sqlIssue: string -> Option<string>, c: string) {
    Strip(c) != "" && !Flags(sqlIssue, c) && Flags(sqlIssue, Strip(c))
  }

  /** At most one stripped query can be reached through a trap. A test blind to surrounding whitespace has none. */
  ghost predicate OneTrap(sqlIssue: string -> Option<string>) {
    forall c, d | Trap(sqlIssue, c) && Trap(sqlIssue, d) :: Strip(c) == Strip(d)
  }

  ghost predicate Blind(sqlIssue: string -> Option<string>) {
    forall c :: Flags(sqlIssue, Strip(c)) == Flags(sqlIssue, c)
  }

  /** How many free repairs may still follow before something that costs budget happens. */
  ghost function Phase(w: World, cypher: string): nat {
    if cypher == "" || !w.Flagged(cypher) then 0
    else if exists c :: Trap(w.sqlIssue, c) && Strip(c) == cypher then 1
    else 2
  }

  ghost function Measure(w: World, s: State): nat
    requires Inv(w, s)
  {
    3 * ((w.Max() - s.executions) + (w.Max() - s.regenerations)) + Phase(w, s.cypher)
  }

  lemma StepDecreases(w: World, s: State)
    requires Inv(w, s) && OneTrap(w.sqlIssue)
    ensures match Step(w, s)
            case Running(s') => Inv(w, s') && Measure(w, s') < Measure(w, s)
            case Finished(_, _) => true
  {
    StepKeeps(w, s);
    if s.cypher != "" {
      if w.Flagged(s.cypher) {
        FreeRepair(w, s);
      } else {
        ExecuteKeeps(w, s);
      }
    }
  }

  /** A repair before execution either costs a regeneration or lowers the phase. */
  lemma FreeRepair(w: World, s: State)
    requires Inv(w, s) && OneTrap(w.sqlIssue) && s.cypher != "" && w.Flagged(s.cypher)
    ensures match Step(w, s)
            case Running(s') =>
              && s'.executions == s.executions
              && (s'.regenerations == s.regenerations + 1
                  || (s'.regenerations == s.regenerations && Phase(w, s'.cypher) < Phase(w, s.cypher)))
            case Finished(_, _) => true
  {
    if w.repair.Some? {
      var repaired := w.repair.value(|s.trace|, s.cypher);
      if Strip(repaired) != Strip(s.cypher) && !w.Flagged(repaired) {
        if Strip(repaired) != "" && w.Flagged(Strip(repaired)) {
          assert Trap(w.sqlIssue, repaired);
          assert Phase(w, Strip(repaired)) == 1;
          assert forall c | Trap(w.sqlIssue, c) :: Strip(c) == Strip(repaired);
        }
      }
    }
  }

  lemma {:induction false} Finishes(w: World, s: State, n: nat)
    requires Inv(w, s) && OneTrap(w.sqlIssue) && n > Measure(w, s)
    ensures Iterate(w, s, n).Finished?
    decreases n
  {
    hide Inv, Step, OneTrap, Measure;
    StepDecreases(w, s);
    if Step(w, s).Running? {
      Finishes(w, Step(w, s).state, n - 1);
    }
  }

  function Bound(w: World): nat {
    6 * w.Max() + 3
  }

  /** The run ends within a number of passes linear in `max_attempts`. */
  lemma TerminatesLinearly(w: World, initialCypher: Option<string>)
    requires OneTrap(w.sqlIssue)
    ensures Iterate(w, Initial(initialCypher), Bound(w)).Finished?
  {
    InitialInv(w, initialCypher);
    Finishes(w, Initial(initialCypher), Bound(w));
  }

  /** Two traps and a repair that alternates between them. */
  function PingPong(sqlIssue: string -> Option<string>, c: string, d: string): World {
    World(1, (n, q) => Rows([]), (n, q, e) => None, sqlIssue, Some((n, q) => if q == Strip(c) then d else c))
  }

  lemma {:induction false} NeverFinishes(sqlIssue: string -> Option<string>, c: string, d: string, s: State, n: nat)
    requires Trap(sqlIssue, c) && Trap(sqlIssue, d) && Strip(c) != Strip(d)
    requires s.cypher == Strip(c) || s.cypher == Strip(d)
    ensures Iterate(PingPong(sqlIssue, c, d), s, n).Running?
    decreases n
  {
    StripIdempotent(c);
    StripIdempotent(d);
    if n > 0 {
      var s' := Step(PingPong(sqlIssue, c, d), s);
      assert s'.Running?;
      NeverFinishes(sqlIssue, c, d, s'.state, n - 1);
    }
  }

  ghost predicate Ends(w: World, initialCypher: Option<string>) {
    exists n: nat :: Iterate(w, Initial(initialCypher), n).Finished?
  }

  predicate EndsInTime(w: World, initialCypher: Option<string>) {
    Iterate(w, Initial(initialCypher), Bound(w)).Finished?
  }

  /** The loop ends for every budget, query, executor, regenerator and repair exactly when `sql_issue` has at most one
      trap; and then it always ends within the linear bound. */
  lemma TerminatesIffOneTrap(sqlIssue: string -> Option<string>)
    ensures (forall w: World, q: Option<string> | w.sqlIssue == sqlIssue :: Ends(w, q)) <==> OneTrap(sqlIssue)
    ensures (forall w: World, q: Option<string> | w.sqlIssue == sqlIssue :: EndsInTime(w, q)) <==> OneTrap(sqlIssue)
  {
    if OneTrap(sqlIssue) {
      forall w: World, q: Option<string> | w.sqlIssue == sqlIssue
        ensures Ends(w, q) && EndsInTime(w, q)
      {
        TerminatesLinearly(w, q);
      }
    } else {
      var c, d :| Trap(sqlIssue, c) && Trap(sqlIssue, d) && Strip(c) != Strip(d);
      var w, q := PingPong(sqlIssue, c, d), Some(c);
      forall n: nat
        ensures !Iterate(w, Initial(q), n).Finished?
      {
        assert c != "";
        NeverFinishes(sqlIssue, c, d, Initial(q), n);
      }
      assert !Ends(w, q) && !EndsInTime(w, q);
    }
  }

  /** A test that is blind to surrounding white space always meets the condition. */
  lemma BlindHasNoTrap(sqlIssue: string -> Option<string>)
    requires Blind(sqlIssue)
    ensures OneTrap(sqlIssue)
  {
  }

  /** A test that objects to `A` and `B` only without surrounding whitespace: the loop can cycle on it. */
  function TouchySqlIssue(cypher: string): Option<string> {
    if cypher == "A" || cypher == "B" then Some("rejected") else None
  }

  lemma TouchySqlIssueCycles(n: nat)
    ensures !OneTrap(TouchySqlIssue)
    ensures Iterate(PingPong(TouchySqlIssue, "A ", "B "), Initial(Some("A")), n).Running?
  {
    assert StripRight("A ") == "A" by { assert "A "[..1] == "A"; }
    assert StripRight("B ") == "B" by { assert "B "[..1] == "B"; }
    assert Trap(TouchySqlIssue, "A ") && Trap(TouchySqlIssue, "B ");
    assert StripLeft("A") == "A" && StripRight("A") == "A";
    NeverFinishes(TouchySqlIssue, "A ", "B ", Initial(Some("A")), n);
  }

  // ---- the loop itself ------------------------------------------------------------------------------------------

  /** The loop body of `StructuredCypherExecutor.run`; `Running` is its `continue`, `Finished` its `return`. */
  method Pass(w: World, start: State) returns (next: Config)
    ensures next == Step(w, start)
  {
    hide Strip;
    var s := start;
    if s.cypher == "" {
      return Finished(ExecuteResult([], "", Some("Empty Cypher."), s.executions), s);
    }
    var problem, error := "", None;
    if w.Flagged(s.cypher) {
      problem := w.sqlIssue(s.cypher).value;
      error := Some(Or(s.lastErr, problem));
      if w.repair.Some? {
        var repaired := w.repair.value(|s.trace|, s.cypher);
        s := s.(trace := s.trace + [Repaired(s.cypher, repaired)]);
        if Strip(repaired) != Strip(s.cypher) && !w.Flagged(repaired) {
          return Running(s.(cypher := Strip(repaired)));
        }
      }
    } else {
      var spent := s.executions >= w.Max();
      if spent && s.graceUsed {
        return Fail(s, s.lastErr);
      }
      var outcome := w.executeOnce(s.executions, s.cypher);
      s := s.(executions := s.executions + 1, graceUsed := s.graceUsed || spent,
              trace := s.trace + [Executed(s.cypher, outcome)]);
      if outcome.Rows? {
        return Finished(ExecuteResult(outcome.rows, s.cypher, None, s.executions), s);
      }
      problem, error := outcome.message, Some(outcome.message);
      s := s.(lastErr := error);
      if s.graceUsed && spent {
        return Fail(s, error);
      }
      if w.repair.Some? {
        var repaired := w.repair.value(|s.trace|, s.cypher);
        s := s.(trace := s.trace + [Repaired(s.cypher, repaired)]);
        if Strip(repaired) != Strip(s.cypher) {
          return Running(s.(cypher := Strip(repaired)));
        }
      }
    }
    if s.regenerations >= w.Max() {
      return Fail(s, error);
    }
    var fixed := w.regenerate(s.regenerations, s.cypher, problem);
    s := s.(regenerations := s.regenerations + 1, trace := s.trace + [Regenerated(s.cypher, problem, fixed)]);
    if Different(fixed, s.cypher) {
      return Running(s.(cypher := Strip(fixed.value)));
    }
    return Fail(s, error);
  }

  /** One pass of a run that finishes within `n` passes. */
  lemma OnePass(w: World, s: State, n: nat)
    requires Iterate(w, s, n).Finished?
    ensures n > 0
    ensures Iterate(w, s, n) == if Step(w, s).Running? then Iterate(w, Step(w, s).state, n - 1) else Step(w, s)
  {
  }

  /** `StructuredCypherExecutor.run`, with its final state, which lists the calls it made. */
  method Run(w: World, initialCypher: Option<string>) returns (res: ExecuteResult, final: State)
    requires OneTrap(w.sqlIssue)
    ensures Iterate(w, Initial(initialCypher), Bound(w)) == Finished(res, final)
    ensures Promise(w, res, final)
    ensures Ordered(w, Strip(Or(initialCypher, "")), final.trace)
    ensures var start := if initialCypher.Some? then Strip(initialCypher.value) else "";
            Lawful(w, start, final.trace) && DueAfter(w, start, final.trace) == Stop
              && res == Verdict(w, start, final.trace)
  {
    hide Lawful, DueAfter, Verdict;
    hide Promise, Inv, Iterate, Step, Initial, OneTrap, Bound, Strip, Ordered, Or;
    var s := Initial(initialCypher);
    ghost var whole := Iterate(w, s, Bound(w));
    ghost var left := Bound(w);
    InitialInv(w, initialCypher);
    TerminatesLinearly(w, initialCypher);
    EveryRun(w, s, left);
    RunOrder(w, initialCypher, left);
    RunFollowsProtocol(w, initialCypher, left);
    while true
      invariant whole == Iterate(w, s, left) && whole.Finished?
      decreases left
    {
      OnePass(w, s, left);
      var next := Pass(w, s);
      left := left - 1;
      if next.Finished? {
        return next.result, next.final;
      }
      s := next.state;
    }
  }
}
