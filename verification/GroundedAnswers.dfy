/** Grounded answers: server-assigned source ids, checked provider replies, and citations that copy what was retrieved. */
module GroundedAnswers {
  import opened Wrappers
  import opened Text

  datatype Retrieved = Retrieved(chunkId: nat, documentId: nat, title: string, sourceType: string, sourceName: string,
                                 chunkIndex: nat, similarity: real, content: string)

  datatype Citation = Citation(sourceId: string, chunkId: nat, documentId: nat, title: string, sourceType: string,
                               sourceName: string, chunkIndex: nat, similarity: real, content: string)

  datatype Source = Source(id: string, content: string)

  datatype Reply = Reply(answerable: bool, answer: string, cited: seq<string>, model: string, inputTokens: int,
                         outputTokens: int)

  datatype RagError = ProviderFailed | InvalidReply

  datatype Status = Grounded | InsufficientEvidence

  datatype Answer = Answer(status: Status, text: string, citations: seq<Citation>, model: Option<string>,
                           inputTokens: int, outputTokens: int)

  datatype Event =
    | Completed(status: Status, retrieved: nat, citations: nat, model: Option<string>, inputTokens: int,
          outputTokens: int)
    | ProviderFailure(retrieved: nat)

  const INSUFFICIENT := "Insufficient evidence."

  /** A provider answers a list of sources as it likes; an ill-typed answer is an InvalidReply. */
  type Provider = seq<Source> -> Result<Reply, RagError>

  // ---------------------------------------------------------------- source ids

  /** f"S{index}", counted from one. */
  function SourceId(i: nat): string {
    "S" + Decimal(i + 1)
  }

  /** Sources are counted from one. */
  lemma SourceIdsCountFromOne(i: nat)
    ensures SourceId(i) != "" && SourceId(i)[0] == 'S' && ReadDecimal(SourceId(i)[1..]) == i + 1
    ensures forall c | c in SourceId(i)[1..] :: '0' <= c <= '9'
    ensures SourceId(i)[1..] != "" && SourceId(i)[1] != '0'
  {
    assert SourceId(i)[1..] == Decimal(i + 1);
    DecimalReadsBack(i + 1);
  }

  lemma SourceIdsAreInjective(i: nat, j: nat)
    requires SourceId(i) == SourceId(j)
    ensures i == j
  {
    assert SourceId(i)[1..] == Decimal(i + 1) && SourceId(j)[1..] == Decimal(j + 1);
    DecimalInjective(i + 1, j + 1);
  }

  /** _source_map. */
  function SourceMap(rows: seq<Retrieved>): map<string, Retrieved> {
    if rows == [] then map[] else SourceMap(rows[..|rows| - 1])[SourceId(|rows| - 1) := rows[|rows| - 1]]
  }

  lemma {:induction false} SourceMapFinds(rows: seq<Retrieved>, i: nat)
    requires i < |rows|
    ensures SourceId(i) in SourceMap(rows) && SourceMap(rows)[SourceId(i)] == rows[i]
  {
    var last := |rows| - 1;
    if i < last {
      SourceMapFinds(rows[..last], i);
      if SourceId(i) == SourceId(last) {
        SourceIdsAreInjective(i, last);
      }
    }
  }

  lemma {:induction false} SourceMapComesFrom(rows: seq<Retrieved>, id: string) returns (i: nat)
    requires id in SourceMap(rows)
    ensures i < |rows| && id == SourceId(i)
  {
    i := |rows| - 1;
    if id != SourceId(i) {
      i := SourceMapComesFrom(rows[..i], id);
    }
  }

  /** The map holds every retrieved row under the id of its place, and nothing else. */
  lemma SourceMapHolds(rows: seq<Retrieved>)
    ensures forall i | 0 <= i < |rows| :: SourceId(i) in SourceMap(rows) && SourceMap(rows)[SourceId(i)] == rows[i]
    ensures forall id | id in SourceMap(rows) :: exists i | 0 <= i < |rows| :: id == SourceId(i)
  {
    forall i | 0 <= i < |rows| ensures SourceId(i) in SourceMap(rows) && SourceMap(rows)[SourceId(i)] == rows[i] {
      SourceMapFinds(rows, i);
    }
    forall id | id in SourceMap(rows) ensures exists i | 0 <= i < |rows| :: id == SourceId(i) {
      var i := SourceMapComesFrom(rows, id);
    }
  }

  /** No row is lost to a shared id. */
  lemma {:induction false} SourceMapKeepsAll(rows: seq<Retrieved>)
    ensures |SourceMap(rows)| == |rows|
  {
    if rows != [] {
      var last := |rows| - 1;
      SourceMapKeepsAll(rows[..last]);
      if SourceId(last) in SourceMap(rows[..last]) {
        var i := SourceMapComesFrom(rows[..last], SourceId(last));
        SourceIdsAreInjective(i, last);
      }
    }
  }

  // ---------------------------------------------------------------- order-preserving de-duplication

  predicate NoDuplicates(ids: seq<string>) {
    forall i, j | 0 <= i < j < |ids| :: ids[i] != ids[j]
  }

  function FirstIndex(ids: seq<string>, id: string): nat
    requires id in ids
    ensures FirstIndex(ids, id) < |ids| && ids[FirstIndex(ids, id)] == id
    ensures id !in ids[..FirstIndex(ids, id)]
  {
    if ids[0] == id then 0 else 1 + FirstIndex(ids[1..], id)
  }

  lemma NotInPrefix(ids: seq<string>, n: nat, id: string)
    requires n <= |ids| && id !in ids[..n]
    ensures forall m | 0 <= m < n :: ids[m] != id
  {
    forall m | 0 <= m < n ensures ids[m] != id {
      assert ids[..n][m] == ids[m];
    }
  }

  lemma FirstIndexIs(ids: seq<string>, i: nat)
    requires i < |ids| && ids[i] !in ids[..i]
    ensures FirstIndex(ids, ids[i]) == i
  {
    NotInPrefix(ids, i, ids[i]);
    NotInPrefix(ids, FirstIndex(ids, ids[i]), ids[i]);
  }

  /** The elements of `once` occur in `ids` in this order. */
  predicate InOrder(ids: seq<string>, once: seq<string>) {
    (forall i | 0 <= i < |once| :: once[i] in ids)
    && forall i, j | 0 <= i < j < |once| :: FirstIndex(ids, once[i]) < FirstIndex(ids, once[j])
  }

  /** Each of the ids once, in the order in which they first occur. */
  ghost predicate FirstOccurrences(ids: seq<string>, once: seq<string>) {
    && NoDuplicates(once)
    && (forall id :: id in once <==> id in ids)
    && InOrder(ids, once)
  }

  lemma FirstIndexKept(ids: seq<string>, more: seq<string>, id: string)
    requires id in ids && ids <= more
    ensures id in more && FirstIndex(more, id) == FirstIndex(ids, id)
  {
    var k := FirstIndex(ids, id);
    assert more[k] == id && more[..k] == ids[..k];
    FirstIndexIs(more, k);
  }

  /** list(dict.fromkeys(ids)). */
  method Deduplicate(ids: seq<string>) returns (once: seq<string>)
    ensures FirstOccurrences(ids, once)
    ensures NoDuplicates(ids) ==> once == ids
  {
    once := [];
    for n := 0 to |ids|
      invariant FirstOccurrences(ids[..n], once)
      invariant NoDuplicates(ids) ==> once == ids[..n]
    {
      assert ids[..n + 1] == ids[..n] + [ids[n]];
      ExtendOccurrences(ids[..n], ids[n], once);
      if ids[n] !in once {
        once := once + [ids[n]];
      }
    }
    assert ids[..|ids|] == ids;
  }

  lemma EmptyTogether(ids: seq<string>, once: seq<string>)
    requires FirstOccurrences(ids, once)
    ensures ids == [] <==> once == []
  {
    assert ids != [] ==> ids[0] in once;
    assert once != [] ==> once[0] in ids;
  }

  /** What was found first stays first when one more id follows. */
  lemma IndexesKept(ids: seq<string>, id: string, once: seq<string>)
    requires forall i | 0 <= i < |once| :: once[i] in ids
    ensures forall i | 0 <= i < |once| ::
              once[i] in ids && once[i] in ids + [id] && FirstIndex(ids + [id], once[i]) == FirstIndex(ids, once[i])
  {
    forall i | 0 <= i < |once|
      ensures once[i] in ids && once[i] in ids + [id] && FirstIndex(ids + [id], once[i]) == FirstIndex(ids, once[i])
    {
      FirstIndexKept(ids, ids + [id], once[i]);
    }
  }

  lemma OrderKept(ids: seq<string>, id: string, once: seq<string>)
    requires InOrder(ids, once)
    ensures InOrder(ids + [id], once)
  {
    IndexesKept(ids, id, once);
  }

  lemma OrderExtended(ids: seq<string>, id: string, once: seq<string>)
    requires InOrder(ids, once) && id !in ids
    ensures InOrder(ids + [id], once + [id])
  {
    IndexesKept(ids, id, once);
    NewIsLast(ids, id);
  }

  lemma ExtendOccurrences(ids: seq<string>, id: string, once: seq<string>)
    requires FirstOccurrences(ids, once)
    ensures FirstOccurrences(ids + [id], if id in once then once else once + [id])
  {
    assert forall x :: x in ids + [id] <==> x in ids || x == id;
    if id in once {
      OrderKept(ids, id, once);
    } else {
      OrderExtended(ids, id, once);
    }
  }

  lemma NewIsLast(ids: seq<string>, id: string)
    requires id !in ids
    ensures FirstIndex(ids + [id], id) == |ids|
  {
    var longer := ids + [id];
    assert longer[|ids|] == id && longer[..|ids|] == ids;
    FirstIndexIs(longer, |ids|);
  }

  // ---------------------------------------------------------------- the provider's reply

  /** Well-formed, every cited id one of the ids handed out, and citations exactly when the question is answered. */
  predicate Valid(reply: Reply, rows: seq<Retrieved>) {
    && (reply.answerable ==> Strip(reply.answer) != "")
    && Strip(reply.model) != "" && reply.inputTokens >= 0 && reply.outputTokens >= 0
    && (forall id | id in reply.cited :: id in SourceMap(rows))
    && (reply.answerable <==> reply.cited != [])
  }

  /** _validate_provider_result. */
  method ValidateReply(reply: Reply, rows: seq<Retrieved>) returns (r: Result<(string, seq<string>), RagError>)
    ensures r.Ok? <==> Valid(reply, rows)
    ensures r.Err? ==> r.error == InvalidReply
    ensures r.Ok? ==> r.value.0 == Strip(reply.answer) && FirstOccurrences(reply.cited, r.value.1)
  {
    SourceMapHolds(rows);
    if reply.answerable && Strip(reply.answer) == "" {
      return Err(InvalidReply);
    }
    if exists id | id in reply.cited :: id == "" {
      EmptyIsNoSource(rows);
      return Err(InvalidReply);
    }
    if reply.inputTokens < 0 || reply.outputTokens < 0 || Strip(reply.model) == "" {
      return Err(InvalidReply);
    }
    var ids := Deduplicate(reply.cited);
    if exists id | id in ids :: id !in SourceMap(rows) {
      return Err(InvalidReply);
    }
    EmptyTogether(reply.cited, ids);
    if reply.answerable && ids == [] {
      return Err(InvalidReply);
    }
    if !reply.answerable && ids != [] {
      return Err(InvalidReply);
    }
    r := Ok((Strip(reply.answer), ids));
  }

  lemma EmptyIsNoSource(rows: seq<Retrieved>)
    ensures "" !in SourceMap(rows)
  {
    SourceMapHolds(rows);
    forall i | 0 <= i < |rows| ensures SourceId(i) != "" {
    }
  }

  // ---------------------------------------------------------------- answers

  function Cite(id: string, row: Retrieved): Citation {
    Citation(id, row.chunkId, row.documentId, row.title, row.sourceType, row.sourceName, row.chunkIndex,
          row.similarity, row.content)
  }

  function SourcesOf(rows: seq<Retrieved>): seq<Source> {
    seq(|rows|, i requires 0 <= i < |rows| => Source(SourceId(i), rows[i].content))
  }

  /** The provider is handed the content of every retrieved row, in order, under the id of its place. */
  predicate HandsOut(rows: seq<Retrieved>, sources: seq<Source>) {
    |sources| == |rows|
    && forall i | 0 <= i < |rows| :: sources[i].id == SourceId(i) && sources[i].content == rows[i].content
  }

  /** The citation names the row and repeats every field of it. */
  predicate Repeats(c: Citation, id: string, row: Retrieved) {
    && c.sourceId == id && c.chunkId == row.chunkId && c.documentId == row.documentId && c.title == row.title
    && c.sourceType == row.sourceType && c.sourceName == row.sourceName && c.chunkIndex == row.chunkIndex
    && c.similarity == row.similarity && c.content == row.content
  }

  /** Each citation repeats the row retrieved at the place its id names. */
  predicate Retraces(rows: seq<Retrieved>, citations: seq<Citation>) {
    forall i | 0 <= i < |citations| :: exists k | 0 <= k < |rows| :: Repeats(citations[i], SourceId(k), rows[k])
  }

  /** Which reply the answer came from: none when nothing was retrieved. */
  predicate Sound(rows: seq<Retrieved>, reply: Option<Reply>, a: Answer) {
    match a.status
    case InsufficientEvidence => a.text == INSUFFICIENT && a.citations == []
          && (reply.Some? ==> !reply.value.answerable)
    case Grounded =>
      && reply.Some? && reply.value.answerable && a.text == Strip(reply.value.answer) && a.text != ""
      && a.citations != []
      && (forall i, j | 0 <= i < j < |a.citations| :: a.citations[i].sourceId != a.citations[j].sourceId)
      && Retraces(rows, a.citations)
  }

  function CitedIds(a: Answer): seq<string> {
    seq(|a.citations|, i requires 0 <= i < |a.citations| => a.citations[i].sourceId)
  }

  /**
   * answer, after retrieval: with nothing retrieved the provider is not called; otherwise the answer is sound exactly
   * when the reply is valid, and a grounded answer cites the provider's ids once each in their first order.
   */
  method AnswerQuestion(rows: seq<Retrieved>, provider: Provider)
    returns (r: Result<Answer, RagError>, called: bool, event: Event)
    ensures called <==> rows != []
    ensures rows == [] ==> r == Ok(Answer(InsufficientEvidence, "Insufficient evidence.", [], None, 0, 0))
    ensures HandsOut(rows, SourcesOf(rows))
    ensures r.Ok? ==> Retraces(rows, r.value.citations)
    ensures r.Ok? && r.value.status == InsufficientEvidence ==> r.value.text == "Insufficient evidence."
    ensures called ==> (r.Ok? <==> provider(SourcesOf(rows)).Ok? && Valid(provider(SourcesOf(rows)).value, rows))
    ensures called && r.Ok? ==>
              var reply := provider(SourcesOf(rows)).value;
              && (r.value.status == Grounded <==> reply.answerable)
              && r.value.model == Some(reply.model)
              && r.value.inputTokens == reply.inputTokens && r.value.outputTokens == reply.outputTokens
              && (reply.answerable ==> r.value.text != "" && TrimmedTo(reply.answer, r.value.text))
    ensures r.Ok? ==> Sound(rows, if called then Some(provider(SourcesOf(rows)).value) else None, r.value)
    ensures r.Ok? && r.value.status == Grounded ==>
          FirstOccurrences(provider(SourcesOf(rows)).value.cited, CitedIds(r.value))
    ensures event == if r.Err? then ProviderFailure(|rows|)
                     else Completed(r.value.status, |rows|, |r.value.citations|, r.value.model, r.value.inputTokens,
                           r.value.outputTokens)
  {
    if rows == [] {
      r, called := Ok(Answer(InsufficientEvidence, INSUFFICIENT, [], None, 0, 0)), false;
      event := Completed(InsufficientEvidence, 0, 0, None, 0, 0);
      return;
    }
    called := true;
    var reply := provider(SourcesOf(rows));
    if reply.Err? {
      return Err(reply.error), true, ProviderFailure(|rows|);
    }
    StripTrims(reply.value.answer);
    var checked := ValidateReply(reply.value, rows);
    if checked.Err? {
      return Err(checked.error), true, ProviderFailure(|rows|);
    }
    var citations: seq<Citation> := [];
    if reply.value.answerable {
      citations := CiteAll(rows, checked.value.1);
    }
    var status := if reply.value.answerable then Grounded else InsufficientEvidence;
    var text := if reply.value.answerable then checked.value.0 else INSUFFICIENT;
    var a := Answer(status, text, citations, Some(reply.value.model), reply.value.inputTokens,
          reply.value.outputTokens);
    if reply.value.answerable {
      assert CitedIds(a) == checked.value.1;
      assert reply.value.cited[0] in checked.value.1;
    }
    r := Ok(a);
    event := Completed(status, |rows|, |citations|, a.model, a.inputTokens, a.outputTokens);
  }

  /** The citations of the given ids, in their order. */
  method CiteAll(rows: seq<Retrieved>, ids: seq<string>) returns (citations: seq<Citation>)
    requires forall id | id in ids :: id in SourceMap(rows)
    ensures |citations| == |ids| && forall i | 0 <= i < |ids| :: citations[i].sourceId == ids[i]
    ensures Retraces(rows, citations)
  {
    SourceMapHolds(rows);
    var sources := SourceMap(rows);
    citations := [];
    for i := 0 to |ids|
      invariant |citations| == i
      invariant forall j | 0 <= j < i :: citations[j].sourceId == ids[j]
      invariant Retraces(rows, citations)
    {
      assert ids[i] in SourceMap(rows);
      var k :| 0 <= k < |rows| && ids[i] == SourceId(k);
      assert sources[ids[i]] == rows[k];
      assert Repeats(Cite(ids[i], sources[ids[i]]), SourceId(k), rows[k]);
      citations := citations + [Cite(ids[i], sources[ids[i]])];
    }
  }
}
