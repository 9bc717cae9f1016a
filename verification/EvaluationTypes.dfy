/** Offline evaluation suites, results and reports. */
module EvaluationTypes {
  import opened Wrappers
  import opened JsonValues
  import opened Sorting

  type Arguments = map<string, Json>

  datatype Decision = DirectAnswer | ToolCall(tool: string, arguments: Arguments)

  datatype RagExpected = RagExpected(answerable: bool, citations: seq<string>, fragments: seq<string>)

  datatype Case =
    | RagCase(id: string, sources: set<string>, tags: seq<string>, critical: bool, expected: RagExpected)
    | ToolCase(id: string, allowed: set<string>, tags: seq<string>, critical: bool, decision: Decision)

  datatype EvalResult =
    | RagResult(id: string, answerable: bool, answer: string, cited: seq<string>)
    | ToolResult(id: string, decision: Decision)

  datatype Thresholds = Thresholds(minPassRate: real, maxSafetyViolations: nat)

  datatype Suite = Suite(id: string, thresholds: Thresholds, cases: seq<Case>)

  datatype Reason =
    | AnswerabilityMismatch | UnknownCitation | AnswerableWithoutCitation | UnanswerableWithCitation
    | MissingRequiredCitation | MissingRequiredFragment
    | DecisionMismatch | UnauthorizedTool | ToolNameMismatch | ToolArgumentsMismatch

  datatype FailedCase = FailedCase(id: string, reasons: seq<Reason>)

  datatype RagMetrics = RagMetrics(total: nat, passed: nat, answerability: real, citationValidity: real, coverage: real)

  datatype ToolMetrics = ToolMetrics(total: nat, passed: nat, decisions: real, names: real, arguments: real,
                                     unauthorized: nat)

  datatype Report = Report(suiteId: string, candidate: string, total: nat, passed: nat, passRate: real,
                           safetyViolations: nat, rag: RagMetrics, tool: ToolMetrics, failed: seq<FailedCase>)

  datatype EvaluationError =
    | InvalidRecord | NoRecords | TooManyRecords | DuplicateId(id: string) | UnknownCase(id: string)
    | TypeMismatch(id: string) | MissingResults | TagBelowMinimum(tag: string) | BlankCandidate | NotReconciled

  predicate SameType(c: Case, r: EvalResult) {
    c.RagCase? <==> r.RagResult?
  }

  /** {key(item): item for item in items}: the last one wins. */
  function ById<T>(key: T -> string, items: seq<T>): map<string, T> {
    if items == [] then map[]
    else ById(key, items[..|items| - 1])[key(items[|items| - 1]) := items[|items| - 1]]
  }

  /** An item is found under its id unless a later one has the same. */
  lemma {:induction false} ByIdFinds<T>(key: T -> string, items: seq<T>, i: nat)
    requires i < |items|
    ensures key(items[i]) in ById(key, items)
    ensures DistinctKeys(key, items) ==> ById(key, items)[key(items[i])] == items[i]
  {
    var last := |items| - 1;
    if i < last {
      ByIdFinds(key, items[..last], i);
      assert items[..last][i] == items[i];
    }
  }

  /** Of several items with one id the last is found. */
  lemma {:induction false} ByIdTakesLast<T>(key: T -> string, items: seq<T>, i: nat)
    requires i < |items| && forall j | i < j < |items| :: key(items[j]) != key(items[i])
    ensures key(items[i]) in ById(key, items) && ById(key, items)[key(items[i])] == items[i]
  {
    var last := |items| - 1;
    if i < last {
      ByIdTakesLast(key, items[..last], i);
    }
  }

  lemma {:induction false} ByIdComesFrom<T>(key: T -> string, items: seq<T>, id: string) returns (i: nat)
    requires id in ById(key, items)
    ensures i < |items| && ById(key, items)[id] == items[i] && key(items[i]) == id
  {
    i := |items| - 1;
    if key(items[i]) != id {
      i := ByIdComesFrom(key, items[..i], id);
    }
  }

  function CaseId(c: Case): string {
    c.id
  }

  function ResultId(r: EvalResult): string {
    r.id
  }

  /** With distinct ids, the order of the list does not matter. */
  lemma ByIdIgnoresOrder<T>(key: T -> string, a: seq<T>, b: seq<T>)
    requires DistinctKeys(key, a) && DistinctKeys(key, b)
    requires forall x :: x in a <==> x in b
    ensures ById(key, a) == ById(key, b)
  {
    ByIdIncludes(key, a, b);
    ByIdIncludes(key, b, a);
  }

  lemma ByIdIncludes<T>(key: T -> string, a: seq<T>, b: seq<T>)
    requires DistinctKeys(key, b)
    requires forall x | x in a :: x in b
    ensures forall id | id in ById(key, a) :: id in ById(key, b) && ById(key, b)[id] == ById(key, a)[id]
  {
    forall id | id in ById(key, a) ensures id in ById(key, b) && ById(key, b)[id] == ById(key, a)[id] {
      var i := ByIdComesFrom(key, a, id);
      assert a[i] in b;
      var j :| 0 <= j < |b| && b[j] == a[i];
      ByIdFinds(key, b, j);
    }
  }
}
