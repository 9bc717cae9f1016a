/** Loading suites and results: unique ids, tag coverage, and exact reconciliation. */
module EvaluationLoader {
  import opened Wrappers
  import opened EvaluationTypes
  import opened EvaluationScorer
  import opened Ordering
  import opened Sorting
  import Text

  const MAX_RECORDS := 1000

  /** A record of a file: what its model validated to, or None where the line is not a valid record. */
  type Records<T> = seq<Option<T>>

  predicate WellFormed<T>(records: Records<T>) {
    0 < |records| <= MAX_RECORDS && forall i | 0 <= i < |records| :: records[i].Some?
  }

  function Parsed<T>(records: Records<T>): seq<T>
    requires forall i | 0 <= i < |records| :: records[i].Some?
  {
    seq(|records|, i requires 0 <= i < |records| => records[i].value)
  }

  /** How many cases carry a tag; a case's tags are distinct. */
  function TagCount(cases: seq<Case>, tag: string): nat {
    if cases == [] then 0 else TagCount(cases[..|cases| - 1], tag) + if tag in cases[|cases| - 1].tags then 1 else 0
  }

  method CountTag(cases: seq<Case>, tag: string) returns (n: nat)
    ensures n == TagCount(cases, tag)
  {
    n := 0;
    for i := 0 to |cases|
      invariant n == TagCount(cases[..i], tag)
    {
      assert cases[..i + 1][..i] == cases[..i];
      if tag in cases[i].tags {
        n := n + 1;
      }
    }
    assert cases[..|cases|] == cases;
  }

  predicate TagsCovered(cases: seq<Case>, minimums: seq<(string, nat)>) {
    forall i | 0 <= i < |minimums| :: TagCount(cases, minimums[i].0) >= minimums[i].1
  }

  /** load_suite, after the files are read: accepted exactly when ids are unique and every tag minimum is met. */
  method LoadCases(records: Records<Case>, minimums: seq<(string, nat)>) returns (r: Result<seq<Case>, EvaluationError>)
    ensures r.Ok?
            <==> WellFormed(records) && DistinctKeys(CaseId, Parsed(records)) && TagsCovered(Parsed(records), minimums)
    ensures r.Ok? ==> |r.value| == |records| <= 1000 && forall i | 0 <= i < |records| :: records[i] == Some(r.value[i])
    ensures |records| > 1000 ==> r == Err(TooManyRecords)
    ensures r.Ok? ==> r.value == Parsed(records)
  {
    if |records| > MAX_RECORDS {
      return Err(TooManyRecords);
    }
    if records == [] {
      return Err(NoRecords);
    }
    var cases: seq<Case> := [];
    var seen: set<string> := {};
    for i := 0 to |records|
      invariant |cases| == i && forall j | 0 <= j < i :: records[j] == Some(cases[j])
      invariant seen == IdSet(CaseId, cases)
      invariant DistinctKeys(CaseId, cases)
    {
      if records[i] == None {
        return Err(InvalidRecord);
      }
      var c := records[i].value;
      if c.id in seen {
        SharedId(CaseId, records, i, cases);
        return Err(DuplicateId(c.id));
      }
      IdSetMore(CaseId, cases, c);
      seen := seen + {c.id};
      cases := cases + [c];
    }
    assert cases == Parsed(records);
    for i := 0 to |minimums|
      invariant forall j | 0 <= j < i :: TagCount(cases, minimums[j].0) >= minimums[j].1
    {
      var observed := CountTag(cases, minimums[i].0);
      if observed < minimums[i].1 {
        return Err(TagBelowMinimum(minimums[i].0));
      }
    }
    r := Ok(cases);
  }

  function IdSet<T>(key: T -> string, items: seq<T>): set<string> {
    set i | 0 <= i < |items| :: key(items[i])
  }

  lemma IdSetMore<T>(key: T -> string, items: seq<T>, item: T)
    ensures IdSet(key, items + [item]) == IdSet(key, items) + {key(item)}
    ensures DistinctKeys(key, items) && key(item) !in IdSet(key, items) ==> DistinctKeys(key, items + [item])
  {
    forall id | id in IdSet(key, items) + {key(item)} ensures id in IdSet(key, items + [item]) {
      if id in IdSet(key, items) {
        var i :| 0 <= i < |items| && key(items[i]) == id;
        assert (items + [item])[i] == items[i];
      } else {
        assert (items + [item])[|items|] == item;
      }
    }
  }

  lemma SharedId<T>(key: T -> string, records: Records<T>, i: nat, before: seq<T>)
    requires i < |records| && |before| == i && forall j | 0 <= j < i :: records[j] == Some(before[j])
    requires records[i].Some? && key(records[i].value) in IdSet(key, before)
    ensures WellFormed(records) ==> !DistinctKeys(key, Parsed(records))
  {
    if WellFormed(records) {
      var j :| 0 <= j < i && key(before[j]) == key(records[i].value);
      assert key(Parsed(records)[j]) == key(Parsed(records)[i]);
    }
  }

  /** Results that answer each case of the suite exactly once, with its own kind of result. */
  predicate Answers(results: seq<EvalResult>, cases: seq<Case>) {
    && DistinctKeys(ResultId, results)
    && (forall i | 0 <= i < |results| ::
          results[i].id in ById(CaseId, cases) && SameType(ById(CaseId, cases)[results[i].id], results[i]))
    && (forall id | id in ById(CaseId, cases) :: id in ById(ResultId, results))
  }

  /** load_results: accepted exactly when the results answer the suite's cases one for one. */
  method LoadResults(records: Records<EvalResult>, cases: seq<Case>)
    returns (r: Result<seq<EvalResult>, EvaluationError>)
    ensures r.Ok? <==> WellFormed(records) && Answers(Parsed(records), cases)
    ensures r.Ok? ==> |r.value| == |records| <= 1000 && forall i | 0 <= i < |records| :: records[i] == Some(r.value[i])
    ensures |records| > 1000 ==> r == Err(TooManyRecords)
    ensures r.Ok? ==> r.value == Parsed(records)
  {
    if |records| > MAX_RECORDS {
      return Err(TooManyRecords);
    }
    if records == [] {
      return Err(NoRecords);
    }
    var caseMap := ById(CaseId, cases);
    var results: seq<EvalResult> := [];
    var seen: set<string> := {};
    for i := 0 to |records|
      invariant |results| == i && forall j | 0 <= j < i :: records[j] == Some(results[j])
      invariant seen == IdSet(ResultId, results)
      invariant DistinctKeys(ResultId, results)
      invariant forall j | 0 <= j < i :: results[j].id in caseMap && SameType(caseMap[results[j].id], results[j])
    {
      if records[i] == None {
        return Err(InvalidRecord);
      }
      var result := records[i].value;
      if result.id in seen {
        SharedId(ResultId, records, i, results);
        return Err(DuplicateId(result.id));
      }
      if result.id !in caseMap {
        NotAnswered(records, cases, i);
        return Err(UnknownCase(result.id));
      }
      if !SameType(caseMap[result.id], result) {
        NotAnswered(records, cases, i);
        return Err(TypeMismatch(result.id));
      }
      IdSetMore(ResultId, results, result);
      seen := seen + {result.id};
      results := results + [result];
    }
    assert results == Parsed(records);
    SeenIsKeys(results);
    if caseMap.Keys - seen != {} {
      return Err(MissingResults);
    }
    assert forall id | id in caseMap :: id in caseMap.Keys - seen || id in seen;
    r := Ok(results);
  }

  lemma NotAnswered(records: Records<EvalResult>, cases: seq<Case>, i: nat)
    requires i < |records| && records[i].Some?
    requires var result := records[i].value;
             result.id !in ById(CaseId, cases) || !SameType(ById(CaseId, cases)[result.id], result)
    ensures WellFormed(records) ==> !Answers(Parsed(records), cases)
  {
    if WellFormed(records) {
      assert Parsed(records)[i] == records[i].value;
    }
  }

  lemma SeenIsKeys(results: seq<EvalResult>)
    ensures IdSet(ResultId, results) == ById(ResultId, results).Keys
  {
    forall id | id in IdSet(ResultId, results) ensures id in ById(ResultId, results) {
      var j :| 0 <= j < |results| && ResultId(results[j]) == id;
      ByIdFinds(ResultId, results, j);
    }
    forall id | id in ById(ResultId, results) ensures id in IdSet(ResultId, results) {
      var j := ByIdComesFrom(ResultId, results, id);
    }
  }

  // ---------------------------------------------------------------- what loading buys

  /** Loaded results and cases always evaluate; there are as many results as cases. */
  lemma LoadedAlwaysEvaluates(fold: Fold, suite: Suite, results: seq<EvalResult>, candidate: string)
    requires DistinctKeys(CaseId, suite.cases) && Answers(results, suite.cases)
    ensures Evaluation(fold, suite, results, candidate).Ok? <==> Text.Strip(candidate) != ""
    ensures |ById(CaseId, suite.cases)| == |suite.cases| == |results|
  {
    var t := SheetOf(suite, results);
    forall id | id in t.results ensures id in t.cases && SameType(t.cases[id], t.results[id]) {
      var i := ByIdComesFrom(ResultId, results, id);
    }
    assert t.cases.Keys == t.results.Keys;
    SortedListsTheSet(t.cases.Keys);
    NothingMismatches(t, Sorted(t.cases.Keys));
    DistinctFillTheMap(CaseId, suite.cases);
    DistinctFillTheMap(ResultId, results);
    assert |t.cases| == |t.cases.Keys| == |t.results.Keys| == |t.results|;
  }

  lemma {:induction false} NothingMismatches(t: Sheet, ids: seq<string>)
    requires forall id | id in ids :: id in t.cases && id in t.results && SameType(t.cases[id], t.results[id])
    ensures FirstMismatch(t, ids) == None
  {
    if ids != [] {
      NothingMismatches(t, ids[1..]);
    }
  }

  lemma {:induction false} DistinctFillTheMap<T>(key: T -> string, items: seq<T>)
    requires DistinctKeys(key, items)
    ensures |ById(key, items)| == |items|
  {
    if items != [] {
      var last := |items| - 1;
      DistinctFillTheMap(key, items[..last]);
      if key(items[last]) in ById(key, items[..last]) {
        var i := ByIdComesFrom(key, items[..last], key(items[last]));
        assert false;
      }
    }
  }
}
