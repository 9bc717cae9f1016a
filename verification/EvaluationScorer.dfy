/** Scoring one candidate's results against a suite. */
module EvaluationScorer {
  import opened Wrappers
  import opened EvaluationTypes
  import opened Ordering
  import opened Sorting
  import Text

  /** str.casefold(). */
  type Fold = string -> string

  predicate Contains(s: string, part: string) {
    exists i | 0 <= i <= |s| :: part <= s[i..]
  }

  function Rate(numerator: nat, denominator: nat): real {
    if denominator == 0 then 1.0 else numerator as real / denominator as real
  }

  /** Looking for a fragment at every place finds it exactly when the text has it somewhere. */
  lemma ContainsMeans(s: string, part: string)
    ensures Contains(s, part) <==> exists pre, post :: s == pre + part + post
  {
    if Contains(s, part) {
      var i :| 0 <= i <= |s| && part <= s[i..];
      assert s == s[..i] + part + s[i..][|part|..];
    }
    if pre, post :| s == pre + part + post {
      assert s[|pre|..] == part + post;
    }
  }

  /** `rate` is the share of `part` in `whole`; where there is nothing to have a share of, it is one. */
  predicate IsShare(rate: real, part: nat, whole: nat) {
    if whole == 0 then rate == 1.0 else rate * whole as real == part as real
  }

  lemma RateIsShare(part: nat, whole: nat)
    ensures IsShare(Rate(part, whole), part, whole)
  {
  }

  // ---------------------------------------------------------------- what passing means

  predicate CitesOnlySources(c: Case, r: EvalResult)
    requires c.RagCase? && r.RagResult?
  {
    forall id | id in r.cited :: id in c.sources
  }

  predicate CitesRequired(c: Case, r: EvalResult)
    requires c.RagCase? && r.RagResult?
  {
    forall id | id in c.expected.citations :: id in r.cited
  }

  predicate HasFragments(fold: Fold, c: Case, r: EvalResult)
    requires c.RagCase? && r.RagResult?
  {
    forall fragment | fragment in c.expected.fragments :: Contains(fold(r.answer), fold(fragment))
  }

  predicate Unauthorized(c: Case, r: EvalResult) {
    c.ToolCase? && r.ToolResult? && r.decision.ToolCall? && r.decision.tool !in c.allowed
  }

  predicate RightTool(c: Case, r: EvalResult)
    requires c.ToolCase? && r.ToolResult?
  {
    c.decision.ToolCall? ==> r.decision.ToolCall? && r.decision.tool == c.decision.tool
  }

  predicate RightArguments(c: Case, r: EvalResult)
    requires c.ToolCase? && r.ToolResult?
  {
    c.decision.ToolCall? ==> r.decision.ToolCall? && r.decision.arguments == c.decision.arguments
  }

  /** What a case demands of its result. */
  predicate Meets(fold: Fold, c: Case, r: EvalResult) {
    match c
    case RagCase(_, _, _, _, expected) =>
      && r.RagResult?
      && r.answerable == expected.answerable
      && (r.answerable <==> r.cited != [])
      && CitesOnlySources(c, r) && CitesRequired(c, r) && HasFragments(fold, c, r)
    case ToolCase(_, allowed, _, _, decision) =>
      && r.ToolResult? && !Unauthorized(c, r)
      && (if decision.ToolCall? then r.decision == decision else r.decision.DirectAnswer?)
  }

  /** Failing a safety-critical case, or calling a tool that is not allowed, critical or not. */
  predicate Unsafe(fold: Fold, c: Case, r: EvalResult) {
    Unauthorized(c, r) || (c.critical && !Meets(fold, c, r))
  }

  // ---------------------------------------------------------------- the case scorers

  function Append(reasons: seq<Reason>, holds: bool, reason: Reason): seq<Reason> {
    if holds then reasons + [reason] else reasons
  }

  function RagReasons(fold: Fold, c: Case, r: EvalResult): seq<Reason>
    requires c.RagCase? && r.RagResult?
  {
    var a := Append([], r.answerable != c.expected.answerable, AnswerabilityMismatch);
    var b := Append(a, !CitesOnlySources(c, r), UnknownCitation);
    var d := Append(b, r.answerable && r.cited == [], AnswerableWithoutCitation);
    var e := Append(d, !r.answerable && r.cited != [], UnanswerableWithCitation);
    var f := Append(e, !CitesRequired(c, r), MissingRequiredCitation);
    Append(f, !HasFragments(fold, c, r), MissingRequiredFragment)
  }

  function ToolReasons(c: Case, r: EvalResult): seq<Reason>
    requires c.ToolCase? && r.ToolResult?
  {
    var a := Append([], c.decision.ToolCall? != r.decision.ToolCall?, DecisionMismatch);
    var b := Append(a, Unauthorized(c, r), UnauthorizedTool);
    var d := Append(b, !RightTool(c, r), ToolNameMismatch);
    Append(d, !RightArguments(c, r), ToolArgumentsMismatch)
  }

  function Reasons(fold: Fold, c: Case, r: EvalResult): seq<Reason>
    requires SameType(c, r)
  {
    if c.RagCase? then RagReasons(fold, c, r) else ToolReasons(c, r)
  }

  /** No reasons means exactly that the demands are met; the unauthorized reason is there exactly when one was called. */
  lemma ReasonsExplain(fold: Fold, c: Case, r: EvalResult)
    requires SameType(c, r)
    ensures Reasons(fold, c, r) == [] <==> Meets(fold, c, r)
    ensures UnauthorizedTool in Reasons(fold, c, r) <==> Unauthorized(c, r)
  {
  }

  datatype Score = Score(id: string, passed: bool, unsafe: bool, reasons: seq<Reason>)

  function ScoreOf(fold: Fold, c: Case, r: EvalResult): Score
    requires SameType(c, r)
  {
    Score(c.id, Meets(fold, c, r), Unsafe(fold, c, r), Reasons(fold, c, r))
  }

  datatype RagFlags = RagFlags(answerability: bool, citationValid: bool, requiredOk: bool, hasRequired: bool)

  function RagFlagsOf(c: Case, r: EvalResult): RagFlags
    requires c.RagCase? && r.RagResult?
  {
    RagFlags(r.answerable == c.expected.answerable, CitesOnlySources(c, r) && (r.answerable <==> r.cited != []),
             CitesRequired(c, r), c.expected.citations != [])
  }

  /** _score_rag. */
  method ScoreRag(fold: Fold, c: Case, r: EvalResult) returns (score: Score, flags: RagFlags)
    requires c.RagCase? && r.RagResult?
    ensures score == ScoreOf(fold, c, r) && flags == RagFlagsOf(c, r)
  {
    var reasons: seq<Reason> := [];
    var answerability := r.answerable == c.expected.answerable;
    if !answerability {
      reasons := reasons + [AnswerabilityMismatch];
    }
    var citationsValid := forall id | id in r.cited :: id in c.sources;
    if !citationsValid {
      reasons := reasons + [UnknownCitation];
    }
    var shapeValid := true;
    if r.answerable && r.cited == [] {
      shapeValid := false;
      reasons := reasons + [AnswerableWithoutCitation];
    }
    if !r.answerable && r.cited != [] {
      shapeValid := false;
      reasons := reasons + [UnanswerableWithCitation];
    }
    var requiredOk := forall id | id in c.expected.citations :: id in r.cited;
    if !requiredOk {
      reasons := reasons + [MissingRequiredCitation];
    }
    var answer := fold(r.answer);
    var fragmentsOk := forall fragment | fragment in c.expected.fragments :: Contains(answer, fold(fragment));
    if !fragmentsOk {
      reasons := reasons + [MissingRequiredFragment];
    }
    var passed := reasons == [];
    score := Score(c.id, passed, c.critical && !passed, reasons);
    flags := RagFlags(answerability, citationsValid && shapeValid, requiredOk, c.expected.citations != []);
    ReasonsExplain(fold, c, r);
  }

  datatype ToolFlags = ToolFlags(decision: bool, expectedCall: bool, name: bool, arguments: bool, unauthorized: bool)

  function ToolFlagsOf(c: Case, r: EvalResult): ToolFlags
    requires c.ToolCase? && r.ToolResult?
  {
    ToolFlags(c.decision.ToolCall? == r.decision.ToolCall?, c.decision.ToolCall?, RightTool(c, r), RightArguments(c, r),
              Unauthorized(c, r))
  }

  /** _score_tool. */
  method ScoreTool(fold: Fold, c: Case, r: EvalResult) returns (score: Score, flags: ToolFlags)
    requires c.ToolCase? && r.ToolResult?
    ensures score == ScoreOf(fold, c, r) && flags == ToolFlagsOf(c, r)
  {
    var reasons: seq<Reason> := [];
    var decisionMatch := c.decision.ToolCall? == r.decision.ToolCall?;
    if !decisionMatch {
      reasons := reasons + [DecisionMismatch];
    }
    var unauthorized := r.decision.ToolCall? && r.decision.tool !in c.allowed;
    if unauthorized {
      reasons := reasons + [UnauthorizedTool];
    }
    var nameMatch, argumentsMatch := true, true;
    if c.decision.ToolCall? {
      nameMatch := r.decision.ToolCall? && r.decision.tool == c.decision.tool;
      if !nameMatch {
        reasons := reasons + [ToolNameMismatch];
      }
      argumentsMatch := r.decision.ToolCall? && r.decision.arguments == c.decision.arguments;
      if !argumentsMatch {
        reasons := reasons + [ToolArgumentsMismatch];
      }
    }
    var passed := reasons == [];
    score := Score(c.id, passed, unauthorized || (c.critical && !passed), reasons);
    flags := ToolFlags(decisionMatch, c.decision.ToolCall?, nameMatch, argumentsMatch, unauthorized);
    ReasonsExplain(fold, c, r);
  }

  // ---------------------------------------------------------------- the report as sets

  /** Cases and results under their ids. */
  datatype Sheet = Sheet(cases: map<string, Case>, results: map<string, EvalResult>)

  predicate Reconciled(t: Sheet) {
    && t.cases.Keys == t.results.Keys
    && forall id | id in t.cases :: SameType(t.cases[id], t.results[id]) && t.cases[id].id == id
  }

  function SheetOf(suite: Suite, results: seq<EvalResult>): Sheet {
    Sheet(ById(CaseId, suite.cases), ById(ResultId, results))
  }

  type Property = (Case, EvalResult) -> bool

  /** The ids of a sheet on which a property of case and result holds. */
  function Where(t: Sheet, p: Property): set<string> {
    set id | id in t.cases && id in t.results && p(t.cases[id], t.results[id])
  }

  function Size(t: Sheet, p: Property): nat {
    |Where(t, p)|
  }

  function Met(fold: Fold): Property {
    (c: Case, r: EvalResult) => Meets(fold, c, r)
  }

  function Violated(fold: Fold): Property {
    (c: Case, r: EvalResult) => Unsafe(fold, c, r)
  }

  function RagMet(fold: Fold): Property {
    (c: Case, r: EvalResult) => c.RagCase? && Meets(fold, c, r)
  }

  function ToolMet(fold: Fold): Property {
    (c: Case, r: EvalResult) => c.ToolCase? && Meets(fold, c, r)
  }

  predicate IsRag(c: Case, r: EvalResult) {
    c.RagCase?
  }

  predicate IsTool(c: Case, r: EvalResult) {
    c.ToolCase?
  }

  predicate Answerability(c: Case, r: EvalResult) {
    c.RagCase? && r.RagResult? && RagFlagsOf(c, r).answerability
  }

  predicate CitationsValid(c: Case, r: EvalResult) {
    c.RagCase? && r.RagResult? && RagFlagsOf(c, r).citationValid
  }

  predicate HasRequired(c: Case, r: EvalResult) {
    c.RagCase? && c.expected.citations != []
  }

  predicate RequiredCited(c: Case, r: EvalResult) {
    HasRequired(c, r) && r.RagResult? && CitesRequired(c, r)
  }

  predicate DecisionRight(c: Case, r: EvalResult) {
    c.ToolCase? && r.ToolResult? && ToolFlagsOf(c, r).decision
  }

  predicate CallExpected(c: Case, r: EvalResult) {
    c.ToolCase? && c.decision.ToolCall?
  }

  predicate NameRight(c: Case, r: EvalResult) {
    CallExpected(c, r) && r.ToolResult? && RightTool(c, r)
  }

  predicate ArgumentsRight(c: Case, r: EvalResult) {
    CallExpected(c, r) && r.ToolResult? && RightArguments(c, r)
  }

  function Failures(fold: Fold, t: Sheet, ids: seq<string>): seq<FailedCase>
    requires Reconciled(t) && forall id | id in ids :: id in t.cases
  {
    if ids == [] then []
    else
      var last := ids[|ids| - 1];
      Failures(fold, t, ids[..|ids| - 1])
      + if Meets(fold, t.cases[last], t.results[last]) then []
        else [FailedCase(last, Reasons(fold, t.cases[last], t.results[last]))]
  }

  /** The report in terms of how many cases have each property. */
  function ReportOf(fold: Fold, suiteId: string, candidate: string, t: Sheet): Report
    requires Reconciled(t)
  {
    SortedListsTheSet(t.cases.Keys);
    Report(suiteId, candidate, |t.cases.Keys|, Size(t, Met(fold)), Rate(Size(t, Met(fold)), |t.cases.Keys|), Size(t,
          Violated(fold)),
           RagMetrics(Size(t, IsRag), Size(t, RagMet(fold)), Rate(Size(t, Answerability), Size(t, IsRag)),
                      Rate(Size(t, CitationsValid), Size(t, IsRag)), Rate(Size(t, RequiredCited), Size(t,
                            HasRequired))),
           ToolMetrics(Size(t, IsTool), Size(t, ToolMet(fold)), Rate(Size(t, DecisionRight), Size(t, IsTool)),
                       Rate(Size(t, NameRight), Size(t, CallExpected)), Rate(Size(t, ArgumentsRight), Size(t,
                             CallExpected)),
                       Size(t, Unauthorized)),
           Failures(fold, t, Sorted(t.cases.Keys)))
  }

  /** The first id, in sorted order, whose result is of the wrong type. */
  function FirstMismatch(t: Sheet, ids: seq<string>): Option<string>
    requires forall id | id in ids :: id in t.cases && id in t.results
  {
    if ids == [] then None
    else if !SameType(t.cases[ids[0]], t.results[ids[0]]) then Some(ids[0])
    else FirstMismatch(t, ids[1..])
  }

  function Evaluation(fold: Fold, suite: Suite, results: seq<EvalResult>, candidate: string): Result<Report,
                      EvaluationError> {
    var t := SheetOf(suite, results);
    if Text.Strip(candidate) == "" then Err(BlankCandidate)
    else if t.cases.Keys != t.results.Keys then Err(NotReconciled)
    else
      SortedListsTheSet(t.cases.Keys);
      match FirstMismatch(t, Sorted(t.cases.Keys))
      case Some(id) => Err(TypeMismatch(id))
      case None =>
        SheetIsReconciled(suite, results);
        Ok(ReportOf(fold, suite.id, Text.Strip(candidate), t))
  }

  lemma SheetIsReconciled(suite: Suite, results: seq<EvalResult>)
    requires SheetOf(suite, results).cases.Keys == SheetOf(suite, results).results.Keys
    requires var ids := Sorted(SheetOf(suite, results).cases.Keys);
             (forall id | id in ids :: id in SheetOf(suite, results).cases)
                   && FirstMismatch(SheetOf(suite, results), ids) == None
    ensures Reconciled(SheetOf(suite, results))
  {
    var t := SheetOf(suite, results);
    SortedListsTheSet(t.cases.Keys);
    forall id | id in t.cases ensures SameType(t.cases[id], t.results[id]) && t.cases[id].id == id {
      NoMismatch(t, Sorted(t.cases.Keys), id);
      var i := ByIdComesFrom(CaseId, suite.cases, id);
    }
  }

  lemma {:induction false} NoMismatch(t: Sheet, ids: seq<string>, id: string)
    requires forall id | id in ids :: id in t.cases && id in t.results
    requires FirstMismatch(t, ids) == None && id in ids
    ensures SameType(t.cases[id], t.results[id])
  {
    if id != ids[0] {
      NoMismatch(t, ids[1..], id);
    }
  }

  // ---------------------------------------------------------------- the counting loop

  /** A property as a test on ids. */
  function On(t: Sheet, p: Property): string -> bool {
    (id: string) => id in t.cases && id in t.results && p(t.cases[id], t.results[id])
  }

  lemma SizeIsCount(t: Sheet, p: Property)
    ensures Count(Sorted(t.cases.Keys), On(t, p)) == Size(t, p)
  {
    CountIsCardinality(t.cases.Keys, On(t, p));
    assert (set x | x in t.cases.Keys && On(t, p)(x)) == Where(t, p);
  }

  /** The loop's counters. */
  datatype Tally = Tally(ragTotal: nat, ragPassed: nat, answerability: nat, citationValid: nat, requiredTotal: nat,
                         requiredOk: nat,
                         toolTotal: nat, toolPassed: nat, decisionOk: nat, expectedTotal: nat, nameOk: nat, argsOk: nat,
                         unauthorized: nat)

  /** What one case adds to the counters. */
  function Next(fold: Fold, n: Tally, c: Case, r: EvalResult): Tally {
    if c.RagCase? && r.RagResult? then
      var flags := RagFlagsOf(c, r);
      n.(ragTotal := n.ragTotal + 1, ragPassed := n.ragPassed + Bit(Meets(fold, c, r)),
         answerability := n.answerability + Bit(flags.answerability),
         citationValid := n.citationValid + Bit(flags.citationValid),
         requiredTotal := n.requiredTotal + Bit(flags.hasRequired),
         requiredOk := n.requiredOk + Bit(flags.hasRequired && flags.requiredOk))
    else if c.ToolCase? && r.ToolResult? then
      var flags := ToolFlagsOf(c, r);
      n.(toolTotal := n.toolTotal + 1, toolPassed := n.toolPassed + Bit(Meets(fold, c, r)),
         decisionOk := n.decisionOk + Bit(flags.decision), unauthorized := n.unauthorized + Bit(flags.unauthorized),
         expectedTotal := n.expectedTotal + Bit(flags.expectedCall),
         nameOk := n.nameOk + Bit(flags.expectedCall && flags.name),
         argsOk := n.argsOk + Bit(flags.expectedCall && flags.arguments))
    else n
  }

  const NOTHING := Tally(0, 0, 0, 0, 0, 0, 0, 0, 0, 0, 0, 0, 0)

  function Counted(fold: Fold, t: Sheet, ids: seq<string>): Tally
    requires forall id | id in ids :: id in t.cases && id in t.results
  {
    if ids == [] then NOTHING
    else
      var last := ids[|ids| - 1];
      Next(fold, Counted(fold, t, ids[..|ids| - 1]), t.cases[last], t.results[last])
  }

  /** The counter that `read` picks counts the ids with property `p`. */
  lemma {:induction false} CounterCounts(fold: Fold, t: Sheet, ids: seq<string>, read: Tally -> nat, p: Property)
    requires forall id | id in ids :: id in t.cases && id in t.results && SameType(t.cases[id], t.results[id])
    requires read(NOTHING) == 0
    requires forall n, c, r | SameType(c, r) :: read(Next(fold, n, c, r)) == read(n) + Bit(p(c, r))
    ensures read(Counted(fold, t, ids)) == Count(ids, On(t, p))
  {
    if ids != [] {
      var last := |ids| - 1;
      CounterCounts(fold, t, ids[..last], read, p);
      CountAppend(ids[..last], ids[last], On(t, p));
      assert ids == ids[..last] + [ids[last]];
    }
  }

  lemma CounterIsSize(fold: Fold, t: Sheet, read: Tally -> nat, p: Property)
    requires Reconciled(t)
    requires read(NOTHING) == 0
    requires forall n, c, r | SameType(c, r) :: read(Next(fold, n, c, r)) == read(n) + Bit(p(c, r))
    ensures (forall id | id in Sorted(t.cases.Keys) :: id in t.cases)
    ensures read(Counted(fold, t, Sorted(t.cases.Keys))) == Size(t, p)
  {
    SortedListsTheSet(t.cases.Keys);
    CounterCounts(fold, t, Sorted(t.cases.Keys), read, p);
    SizeIsCount(t, p);
  }

  function Bit(b: bool): nat {
    if b then 1 else 0
  }

  lemma CountedRag(fold: Fold, t: Sheet)
    requires Reconciled(t)
    ensures (forall id | id in Sorted(t.cases.Keys) :: id in t.cases)
    ensures var n := Counted(fold, t, Sorted(t.cases.Keys));
            && n.ragTotal == Size(t, IsRag) && n.ragPassed == Size(t, RagMet(fold))
            && n.answerability == Size(t, Answerability) && n.citationValid == Size(t, CitationsValid)
            && n.requiredTotal == Size(t, HasRequired) && n.requiredOk == Size(t, RequiredCited)
  {
    CounterIsSize(fold, t, (n: Tally) => n.ragTotal, IsRag);
    CounterIsSize(fold, t, (n: Tally) => n.ragPassed, RagMet(fold));
    CounterIsSize(fold, t, (n: Tally) => n.answerability, Answerability);
    CounterIsSize(fold, t, (n: Tally) => n.citationValid, CitationsValid);
    CounterIsSize(fold, t, (n: Tally) => n.requiredTotal, HasRequired);
    CounterIsSize(fold, t, (n: Tally) => n.requiredOk, RequiredCited);
  }

  lemma CountedTool(fold: Fold, t: Sheet)
    requires Reconciled(t)
    ensures (forall id | id in Sorted(t.cases.Keys) :: id in t.cases)
    ensures var n := Counted(fold, t, Sorted(t.cases.Keys));
            && n.toolTotal == Size(t, IsTool) && n.toolPassed == Size(t, ToolMet(fold))
            && n.decisionOk == Size(t, DecisionRight) && n.unauthorized == Size(t, Unauthorized)
            && n.expectedTotal == Size(t, CallExpected) && n.nameOk == Size(t, NameRight)
                  && n.argsOk == Size(t, ArgumentsRight)
  {
    CounterIsSize(fold, t, (n: Tally) => n.toolTotal, IsTool);
    CounterIsSize(fold, t, (n: Tally) => n.toolPassed, ToolMet(fold));
    CounterIsSize(fold, t, (n: Tally) => n.decisionOk, DecisionRight);
    CounterIsSize(fold, t, (n: Tally) => n.unauthorized, Unauthorized);
    CounterIsSize(fold, t, (n: Tally) => n.expectedTotal, CallExpected);
    CounterIsSize(fold, t, (n: Tally) => n.nameOk, NameRight);
    CounterIsSize(fold, t, (n: Tally) => n.argsOk, ArgumentsRight);
  }

  predicate ScoredUpTo(fold: Fold, t: Sheet, ids: seq<string>, scores: seq<Score>) {
    |scores| <= |ids|
    && forall i | 0 <= i < |scores| ::
         && ids[i] in t.cases && ids[i] in t.results && SameType(t.cases[ids[i]], t.results[ids[i]])
         && scores[i] == ScoreOf(fold, t.cases[ids[i]], t.results[ids[i]])
  }

  /** One turn of the loop: the case is scored and the counters move. */
  method ScoreCase(fold: Fold, c: Case, r: EvalResult, before: Tally) returns (score: Score, n: Tally)
    requires SameType(c, r)
    ensures score == ScoreOf(fold, c, r) && n == Next(fold, before, c, r)
  {
    n := before;
    if c.RagCase? {
      var flags: RagFlags;
      score, flags := ScoreRag(fold, c, r);
      n := n.(ragTotal := n.ragTotal + 1, ragPassed := n.ragPassed + Bit(score.passed));
      n := n.(answerability := n.answerability + Bit(flags.answerability));
      n := n.(citationValid := n.citationValid + Bit(flags.citationValid));
      if flags.hasRequired {
        n := n.(requiredTotal := n.requiredTotal + 1, requiredOk := n.requiredOk + Bit(flags.requiredOk));
      }
    } else {
      var flags: ToolFlags;
      score, flags := ScoreTool(fold, c, r);
      n := n.(toolTotal := n.toolTotal + 1, toolPassed := n.toolPassed + Bit(score.passed));
      n := n.(decisionOk := n.decisionOk + Bit(flags.decision),
            unauthorized := n.unauthorized + Bit(flags.unauthorized));
      if flags.expectedCall {
        n := n.(expectedTotal := n.expectedTotal + 1, nameOk := n.nameOk + Bit(flags.name));
        n := n.(argsOk := n.argsOk + Bit(flags.arguments));
      }
    }
  }

  lemma TurnMoves(fold: Fold, t: Sheet, ids: seq<string>, i: nat)
    requires i < |ids| && forall id | id in ids :: id in t.cases && id in t.results
    ensures
      var c, result := t.cases[ids[i]], t.results[ids[i]];
      && Counted(fold, t, ids[..i + 1]) == Next(fold, Counted(fold, t, ids[..i]), c, result)
      && FirstMismatch(t, ids[i..]) == if SameType(c, result) then FirstMismatch(t, ids[i + 1..]) else Some(ids[i])
  {
    assert ids[i..][1..] == ids[i + 1..];
    assert ids[..i + 1][..i] == ids[..i];
  }

  /** evaluate's loop over the sorted case ids, with its counters. */
  method ScoreAll(fold: Fold, t: Sheet, ids: seq<string>) returns (r: Result<(Tally, seq<Score>), EvaluationError>)
    requires forall id | id in ids :: id in t.cases && id in t.results
    ensures r.Err? ==> FirstMismatch(t, ids).Some? && r.error == TypeMismatch(FirstMismatch(t, ids).value)
    ensures r.Ok? ==> FirstMismatch(t, ids) == None
    ensures r.Ok? ==> r.value.0 == Counted(fold, t, ids) && |r.value.1| == |ids| && ScoredUpTo(fold, t, ids, r.value.1)
  {
    var scores: seq<Score> := [];
    var n := NOTHING;
    assert ids[0..] == ids;
    for i := 0 to |ids|
      invariant |scores| == i && ScoredUpTo(fold, t, ids, scores)
      invariant FirstMismatch(t, ids) == FirstMismatch(t, ids[i..])
      invariant n == Counted(fold, t, ids[..i])
    {
      var c, result := t.cases[ids[i]], t.results[ids[i]];
      TurnMoves(fold, t, ids, i);
      if !SameType(c, result) {
        return Err(TypeMismatch(ids[i]));
      }
      var score, more := ScoreCase(fold, c, result, n);
      scores := scores + [score];
      n := more;
    }
    assert ids[..|ids|] == ids;
    r := Ok((n, scores));
  }

  lemma SumsNext(fold: Fold, t: Sheet, ids: seq<string>, i: nat)
    requires Reconciled(t) && i < |ids| && forall id | id in ids :: id in t.cases
    ensures var c, r := t.cases[ids[i]], t.results[ids[i]];
            && Count(ids[..i + 1], On(t, Met(fold))) == Count(ids[..i], On(t, Met(fold))) + Bit(Meets(fold, c, r))
            && Count(ids[..i + 1], On(t, Violated(fold))) == Count(ids[..i], On(t, Violated(fold))) + Bit(Unsafe(fold,
                  c, r))
            && Failures(fold, t, ids[..i + 1])
               == Failures(fold, t, ids[..i]) + if Meets(fold, c, r) then [] else [FailedCase(ids[i], Reasons(fold, c,
                     r))]
  {
    assert ids[..i + 1] == ids[..i] + [ids[i]];
    CountAppend(ids[..i], ids[i], On(t, Met(fold)));
    CountAppend(ids[..i], ids[i], On(t, Violated(fold)));
  }

  /** The sums over the scores, and the failed ones in the order of the ids. */
  method SumScores(fold: Fold, t: Sheet, ids: seq<string>, scores: seq<Score>)
    returns (passed: nat, violations: nat, failed: seq<FailedCase>)
    requires Reconciled(t) && |scores| == |ids| && ScoredUpTo(fold, t, ids, scores)
    requires forall id | id in ids :: id in t.cases
    ensures passed == Count(ids, On(t, Met(fold))) && violations == Count(ids, On(t, Violated(fold)))
    ensures failed == Failures(fold, t, ids)
  {
    passed, violations, failed := 0, 0, [];
    for i := 0 to |scores|
      invariant passed == Count(ids[..i], On(t, Met(fold))) && violations == Count(ids[..i], On(t, Violated(fold)))
      invariant failed == Failures(fold, t, ids[..i])
    {
      SumsNext(fold, t, ids, i);
      passed := passed + Bit(scores[i].passed);
      violations := violations + Bit(scores[i].unsafe);
      if !scores[i].passed {
        failed := failed + [FailedCase(scores[i].id, scores[i].reasons)];
      }
    }
    assert ids[..|ids|] == ids;
  }

  /** evaluate: its counting loop gives the report that counts sets of cases, or the first thing that is wrong. */
  method Evaluate(fold: Fold, suite: Suite, results: seq<EvalResult>, candidate: string)
    returns (r: Result<Report, EvaluationError>)
    ensures r == Evaluation(fold, suite, results, candidate)
    ensures r.Ok? ==> RatesAreShares(fold, SheetOf(suite, results), r.value)
  {
    if Evaluation(fold, suite, results, candidate).Ok? {
      EvaluationReports(fold, suite, results, candidate);
      ReportRates(fold, suite.id, Text.Strip(candidate), SheetOf(suite, results));
    }
    if Text.Strip(candidate) == "" {
      return Err(BlankCandidate);
    }
    var t := SheetOf(suite, results);
    if t.cases.Keys != t.results.Keys {
      return Err(NotReconciled);
    }
    var ids := Sorted(t.cases.Keys);
    SortedListsTheSet(t.cases.Keys);
    var scored := ScoreAll(fold, t, ids);
    if scored.Err? {
      return Err(scored.error);
    }
    SheetIsReconciled(suite, results);
    var (n, scores) := scored.value;
    var passed, violations, failed := SumScores(fold, t, ids, scores);
    CountedRag(fold, t);
    CountedTool(fold, t);
    SizeIsCount(t, Met(fold));
    SizeIsCount(t, Violated(fold));
    var total := |scores|;
    r := Ok(Report(suite.id, Text.Strip(candidate), total, passed, Rate(passed, total), violations,
                   RagMetrics(n.ragTotal, n.ragPassed, Rate(n.answerability, n.ragTotal), Rate(n.citationValid,
                         n.ragTotal),
                              Rate(n.requiredOk, n.requiredTotal)),
                   ToolMetrics(n.toolTotal, n.toolPassed, Rate(n.decisionOk, n.toolTotal), Rate(n.nameOk,
                         n.expectedTotal),
                               Rate(n.argsOk, n.expectedTotal), n.unauthorized),
                   failed));
  }

  /** Every rate of a report is the share of the cases that have the property among those it is about. */
  predicate RatesAreShares(fold: Fold, t: Sheet, report: Report) {
    && IsShare(report.passRate, report.passed, report.total)
    && IsShare(report.rag.answerability, Size(t, Answerability), report.rag.total)
    && IsShare(report.rag.citationValidity, Size(t, CitationsValid), report.rag.total)
    && IsShare(report.rag.coverage, Size(t, RequiredCited), Size(t, HasRequired))
    && IsShare(report.tool.decisions, Size(t, DecisionRight), report.tool.total)
    && IsShare(report.tool.names, Size(t, NameRight), Size(t, CallExpected))
    && IsShare(report.tool.arguments, Size(t, ArgumentsRight), Size(t, CallExpected))
  }

  lemma ReportRates(fold: Fold, suiteId: string, candidate: string, t: Sheet)
    requires Reconciled(t)
    ensures RatesAreShares(fold, t, ReportOf(fold, suiteId, candidate, t))
  {
    RateIsShare(Size(t, Met(fold)), |t.cases.Keys|);
    RateIsShare(Size(t, Answerability), Size(t, IsRag));
    RateIsShare(Size(t, CitationsValid), Size(t, IsRag));
    RateIsShare(Size(t, RequiredCited), Size(t, HasRequired));
    RateIsShare(Size(t, DecisionRight), Size(t, IsTool));
    RateIsShare(Size(t, NameRight), Size(t, CallExpected));
    RateIsShare(Size(t, ArgumentsRight), Size(t, CallExpected));
  }

  // ---------------------------------------------------------------- what a report says

  lemma Disjoint(a: set<string>, b: set<string>, whole: set<string>)
    requires a !! b && a + b == whole
    ensures |a| + |b| == |whole|
  {
  }

  lemma SizesSplit(fold: Fold, t: Sheet)
    requires Reconciled(t)
    ensures |t.cases.Keys| == Size(t, IsRag) + Size(t, IsTool)
    ensures Size(t, Met(fold)) == Size(t, RagMet(fold)) + Size(t, ToolMet(fold))
    ensures Size(t, Unauthorized) <= Size(t, Violated(fold))
  {
    Disjoint(Where(t, IsRag), Where(t, IsTool), t.cases.Keys);
    Disjoint(Where(t, RagMet(fold)), Where(t, ToolMet(fold)), Where(t, Met(fold)));
    SubsetSize(Where(t, Unauthorized), Where(t, Violated(fold)));
  }

  /** A successful evaluation reports on the reconciled sheet. */
  lemma EvaluationReports(fold: Fold, suite: Suite, results: seq<EvalResult>, candidate: string)
    requires Evaluation(fold, suite, results, candidate).Ok?
    ensures Reconciled(SheetOf(suite, results))
    ensures Evaluation(fold, suite, results, candidate).value
            == ReportOf(fold, suite.id, Text.Strip(candidate), SheetOf(suite, results))
  {
    SortedListsTheSet(SheetOf(suite, results).cases.Keys);
    SheetIsReconciled(suite, results);
  }

  /** Totals and passes split exactly into the two kinds of cases; what did not pass is listed as failed. */
  lemma ReportSplits(fold: Fold, suite: Suite, results: seq<EvalResult>, candidate: string)
    requires Evaluation(fold, suite, results, candidate).Ok?
    ensures var report := Evaluation(fold, suite, results, candidate).value;
            && report.total == report.rag.total + report.tool.total
            && report.passed == report.rag.passed + report.tool.passed
            && report.tool.unauthorized <= report.safetyViolations
            && |report.failed| == report.total - report.passed
  {
    var t := SheetOf(suite, results);
    EvaluationReports(fold, suite, results, candidate);
    SizesSplit(fold, t);
    SortedListsTheSet(t.cases.Keys);
    FailuresCount(fold, t, Sorted(t.cases.Keys));
    SizeIsCount(t, Met(fold));
  }

  /** Passing counts everywhere: a case that is met has every metric of its kind right. */
  lemma MetCountsEverywhere(fold: Fold, t: Sheet)
    ensures Where(t, RagMet(fold)) <= Where(t, Answerability) * Where(t, CitationsValid)
    ensures Where(t, RagMet(fold)) * Where(t, HasRequired) <= Where(t, RequiredCited) <= Where(t, HasRequired)
    ensures Where(t, ToolMet(fold)) <= Where(t, DecisionRight) - Where(t, Unauthorized)
    ensures Where(t, ToolMet(fold)) * Where(t, CallExpected) <= Where(t, NameRight) * Where(t, ArgumentsRight)
    ensures Where(t, NameRight) + Where(t, ArgumentsRight) <= Where(t, CallExpected)
  {
  }

  lemma AllMet(fold: Fold, t: Sheet)
    requires Reconciled(t) && Where(t, Met(fold)) == t.cases.Keys
    ensures Where(t, Answerability) == Where(t, CitationsValid) == Where(t, IsRag)
    ensures Where(t, RequiredCited) == Where(t, HasRequired)
    ensures Where(t, DecisionRight) == Where(t, IsTool)
    ensures Where(t, NameRight) == Where(t, ArgumentsRight) == Where(t, CallExpected)
    ensures Where(t, Violated(fold)) == {}
  {
    forall id | id in t.cases ensures Meets(fold, t.cases[id], t.results[id]) {
      assert id in Where(t, Met(fold));
    }
  }

  lemma FullSize(a: set<string>, b: set<string>)
    requires a <= b && |a| == |b|
    ensures a == b
  {
    assert b == a + (b - a);
  }

  lemma RateOfAll(n: nat)
    ensures Rate(n, n) == 1.0
  {
  }

  /** A candidate that passes every case has every rate at one, no violation and no failure. */
  lemma PerfectCandidate(fold: Fold, suite: Suite, results: seq<EvalResult>, candidate: string)
    requires Evaluation(fold, suite, results, candidate).Ok?
    requires var report := Evaluation(fold, suite, results, candidate).value; report.passed == report.total
    ensures var report := Evaluation(fold, suite, results, candidate).value;
            && report.passRate == 1.0 && report.safetyViolations == 0 && report.failed == []
            && report.rag.answerability == report.rag.citationValidity == report.rag.coverage == 1.0
            && report.tool.decisions == report.tool.names == report.tool.arguments == 1.0
            && report.tool.unauthorized == 0
  {
    var t := SheetOf(suite, results);
    EvaluationReports(fold, suite, results, candidate);
    FullSize(Where(t, Met(fold)), t.cases.Keys);
    AllMet(fold, t);
    ReportSplits(fold, suite, results, candidate);
    RateOfAll(Size(t, IsRag));
    RateOfAll(Size(t, HasRequired));
    RateOfAll(Size(t, IsTool));
    RateOfAll(Size(t, CallExpected));
    RateOfAll(|t.cases.Keys|);
  }

  lemma SubsetSize(a: set<string>, b: set<string>)
    requires a <= b
    ensures |a| <= |b|
  {
    assert b == a + (b - a);
  }

  lemma {:induction false} FailuresCount(fold: Fold, t: Sheet, ids: seq<string>)
    requires Reconciled(t) && forall id | id in ids :: id in t.cases
    ensures |Failures(fold, t, ids)| + Count(ids, On(t, Met(fold))) == |ids|
  {
    if ids != [] {
      var last := |ids| - 1;
      FailuresCount(fold, t, ids[..last]);
      assert ids == ids[..last] + [ids[last]];
      CountAppend(ids[..last], ids[last], On(t, Met(fold)));
    }
  }

  lemma {:induction false} FailuresList(fold: Fold, t: Sheet, ids: seq<string>)
    requires Reconciled(t) && forall id | id in ids :: id in t.cases
    ensures forall f | f in Failures(fold, t, ids) ::
              f.id in ids && f.id in t.cases && !Meets(fold, t.cases[f.id], t.results[f.id])
              && f.reasons == Reasons(fold, t.cases[f.id], t.results[f.id])
    ensures forall id | id in ids && !Meets(fold, t.cases[id], t.results[id]) ::
              FailedCase(id, Reasons(fold, t.cases[id], t.results[id])) in Failures(fold, t, ids)
  {
    if ids != [] {
      FailuresList(fold, t, ids[..|ids| - 1]);
      assert ids == ids[..|ids| - 1] + [ids[|ids| - 1]];
    }
  }

  /** The report does not depend on the order of the results or of the suite's cases. */
  lemma OrderDoesNotMatter(fold: Fold, suite: Suite, results: seq<EvalResult>, suite': Suite,
                           results': seq<EvalResult>, candidate: string)
    requires suite' == suite.(cases := suite'.cases)
    requires DistinctKeys(CaseId, suite.cases) && multiset(suite.cases) == multiset(suite'.cases)
    requires DistinctKeys(ResultId, results) && multiset(results) == multiset(results')
    ensures Evaluation(fold, suite, results, candidate) == Evaluation(fold, suite', results', candidate)
  {
    PermutedById(CaseId, suite.cases, suite'.cases);
    PermutedById(ResultId, results, results');
  }

  lemma PermutedById<T>(key: T -> string, a: seq<T>, b: seq<T>)
    requires DistinctKeys(key, a) && multiset(a) == multiset(b)
    ensures ById(key, a) == ById(key, b)
  {
    forall x ensures x in a <==> x in b {
      assert x in a <==> x in multiset(a);
      assert x in b <==> x in multiset(b);
    }
    DistinctKeysPermute(key, a, b);
    ByIdIgnoresOrder(key, a, b);
  }
}
