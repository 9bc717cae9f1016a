/** Checkpoints and the three Supervisor control markers of an issue note. */
module Markers {
  import opened Wrappers
  import opened JsonValues
  import opened Text

  datatype Checkpoint = CP0 | CP1 | CP2 | CP3 | CP4 | CP5 | CP6

  datatype DispatchError =
    | MarkerCount | MarkerMalformed | InvalidCheckpoint | InvalidJson | InvalidPayload | OverbroadPattern | UnsafePattern
    | DuplicatePattern | NoteMissing | NotApproved | ReworkMismatch | PreviouslyFailed | AlreadySucceeded | DirtyWorktree
    | NotSynchronized | RemoteChanged | LocalHeadChanged | MarkersChanged | PathNotAllowed
    | PublicationMissing | GitFailure | ExecutorFailed

  /** Lines of a text file. */
  type Note = seq<string>

  /** json.loads, as far as the markers need it: None where it fails. */
  type Decoder = string -> Option<Json>

  const GATE_KEY := "codex-dispatch-supervisor-approved-through"
  const ALLOW_KEY := "codex-dispatch-write-allow"
  const REWORK_KEY := "codex-dispatch-supervisor-rework"
  const CLOSE := "-->"

  function Rank(cp: Checkpoint): nat {
    match cp
    case CP0 => 0 case CP1 => 1 case CP2 => 2 case CP3 => 3 case CP4 => 4 case CP5 => 5 case CP6 => 6
  }

  function Name(cp: Checkpoint): string {
    match cp
    case CP0 => "CP0" case CP1 => "CP1" case CP2 => "CP2" case CP3 => "CP3" case CP4 => "CP4" case CP5 => "CP5" case CP6 => "CP6"
  }

  predicate IsWrite(cp: Checkpoint) {
    cp == CP2 || cp == CP3
  }

  /** The approval a checkpoint needs before it may start. */
  function Required(cp: Checkpoint): Option<Checkpoint> {
    match cp
    case CP0 => None
    case CP1 => Some(CP0) case CP2 => Some(CP1) case CP3 => Some(CP2)
    case CP4 => Some(CP3) case CP5 => Some(CP4) case CP6 => Some(CP5)
  }

  /** The write checkpoint a watcher derives from an approval. */
  function WriteAfter(approved: Checkpoint): Option<Checkpoint> {
    match approved
    case CP1 => Some(CP2)
    case CP2 => Some(CP3)
    case _ => None
  }

  function NormalizeCheckpoint(raw: string): Option<Checkpoint> {
    var value := Upper(Strip(raw));
    if value == "CP0" then Some(CP0) else if value == "CP1" then Some(CP1)
    else if value == "CP2" then Some(CP2) else if value == "CP3" then Some(CP3)
    else if value == "CP4" then Some(CP4) else if value == "CP5" then Some(CP5)
    else if value == "CP6" then Some(CP6) else None
  }

  function Prefix(key: string): string {
    "<!-- " + key + ":"
  }

  function Candidate(line: string, key: string): seq<string> {
    if StartsWith(Strip(line), Prefix(key)) then [Strip(line)] else []
  }

  function Candidates(note: Note, key: string): seq<string> {
    if note == [] then [] else Candidate(note[0], key) + Candidates(note[1..], key)
  }

  /** The text between the marker's prefix and its closing arrow. */
  function Body(line: string, key: string): Option<string> {
    if !StartsWith(line, Prefix(key)) || !EndsWith(line, CLOSE) then None
    else if |line| < |Prefix(key)| + |CLOSE| then Some("")
    else Some(Strip(line[|Prefix(key)|..|line| - |CLOSE|]))
  }

  function OnlyMarker(note: Note, key: string): Result<string, DispatchError> {
    var found := Candidates(note, key);
    if |found| != 1 then Err(MarkerCount)
    else match Body(found[0], key)
         case None => Err(MarkerMalformed)
         case Some(body) => Ok(body)
  }

  function ParseApproval(note: Note): Result<Checkpoint, DispatchError> {
    match OnlyMarker(note, GATE_KEY)
    case Err(e) => Err(e)
    case Ok(body) =>
      match NormalizeCheckpoint(body)
      case Some(cp) => Ok(cp)
      case None => Err(InvalidCheckpoint)
  }

  function ParseRework(decode: Decoder, note: Note): Result<Option<(Checkpoint, nat)>, DispatchError> {
    if Candidates(note, REWORK_KEY) == [] then Ok(None)
    else match OnlyMarker(note, REWORK_KEY)
         case Err(e) => Err(e)
         case Ok(body) => ReworkOf(decode(body))
  }

  function ReworkOf(json: Option<Json>): Result<Option<(Checkpoint, nat)>, DispatchError> {
    if json == None then Err(InvalidJson)
    else if !json.value.JObject? || json.value.fields.Keys != {"checkpoint", "attempt"} then Err(InvalidPayload)
    else
      var cp := json.value.fields["checkpoint"];
      var attempt := json.value.fields["attempt"];
      if !cp.JString? || NormalizeCheckpoint(cp.text) == None then Err(InvalidCheckpoint)
      else if !IsWrite(NormalizeCheckpoint(cp.text).value) || !attempt.JInt? || attempt.number <= 0 then Err(InvalidPayload)
      else Ok(Some((NormalizeCheckpoint(cp.text).value, attempt.number)))
  }

  /** Whether a path has a ".." component. */
  predicate HasParent(path: string) {
    exists i, j | 0 <= i <= j <= |path| ::
      && path[i..j] == ".."
      && (i == 0 || path[i - 1] == '/') && (j == |path| || path[j] == '/')
  }

  predicate IsPattern(item: Json) {
    item.JString? && item.text != ""
  }

  /** A repository-relative pattern that does not stand for everything. */
  predicate SafePattern(pattern: string) {
    pattern !in {"*", "**", "**/*"} && '\\' !in pattern && !StartsWith(pattern, "/") && !HasParent(pattern)
  }

  function CheckPattern(item: Json): Result<string, DispatchError>
    requires IsPattern(item)
  {
    if item.text in {"*", "**", "**/*"} then Err(OverbroadPattern)
    else if '\\' in item.text || StartsWith(item.text, "/") || HasParent(item.text) then Err(UnsafePattern)
    else Ok(item.text)
  }

  function CheckPatterns(items: seq<Json>): Result<seq<string>, DispatchError>
    requires forall item :: item in items ==> IsPattern(item)
  {
    if items == [] then Ok([])
    else match CheckPattern(items[0])
         case Err(e) => Err(e)
         case Ok(pattern) => Prepend([pattern], CheckPatterns(items[1..]))
  }

  function Prepend(patterns: seq<string>, r: Result<seq<string>, DispatchError>): Result<seq<string>, DispatchError> {
    if r.Ok? then Ok(patterns + r.value) else r
  }

  lemma PrependMore(patterns: seq<string>, pattern: string, r: Result<seq<string>, DispatchError>)
    ensures Prepend(patterns, Prepend([pattern], r)) == Prepend(patterns + [pattern], r)
  {
    if r.Ok? {
      assert patterns + ([pattern] + r.value) == patterns + [pattern] + r.value;
    }
  }

  /** The loop over the patterns of a write-allow marker. */
  method CheckAllowList(items: seq<Json>) returns (r: Result<seq<string>, DispatchError>)
    requires forall item :: item in items ==> IsPattern(item)
    ensures r == CheckPatterns(items)
    ensures r.Ok? ==> |r.value| == |items| && forall i | 0 <= i < |items| :: items[i] == JString(r.value[i])
    ensures r.Ok? ==> forall pattern | pattern in r.value :: SafePattern(pattern)
  {
    var patterns: seq<string> := [];
    assert items[0..] == items && CheckPatterns(items) == Prepend([], CheckPatterns(items)) by {
      assert forall rest: seq<string> :: [] + rest == rest;
    }
    for i := 0 to |items|
      invariant |patterns| == i
      invariant forall j | 0 <= j < i :: items[j] == JString(patterns[j])
      invariant forall pattern | pattern in patterns :: SafePattern(pattern)
      invariant CheckPatterns(items) == Prepend(patterns, CheckPatterns(items[i..]))
    {
      assert items[i..][1..] == items[i + 1..];
      var pattern := CheckPattern(items[i]);
      if pattern.Err? {
        return Err(pattern.error);
      }
      PrependMore(patterns, pattern.value, CheckPatterns(items[i + 1..]));
      patterns := patterns + [pattern.value];
    }
    assert items[|items|..] == [] && patterns + [] == patterns;
    r := Ok(patterns);
  }

  predicate Distinct(s: seq<string>) {
    forall i, j | 0 <= i < j < |s| :: s[i] != s[j]
  }

  function ParseAllow(decode: Decoder, note: Note): Result<seq<string>, DispatchError> {
    match OnlyMarker(note, ALLOW_KEY)
    case Err(e) => Err(e)
    case Ok(body) => AllowOf(decode(body))
  }

  function AllowOf(json: Option<Json>): Result<seq<string>, DispatchError> {
    if json == None then Err(InvalidJson)
    else if !json.value.JArray? || json.value.items == []
            || (exists item | item in json.value.items :: !IsPattern(item)) then Err(InvalidPayload)
    else match CheckPatterns(json.value.items)
         case Err(e) => Err(e)
         case Ok(patterns) => if Distinct(patterns) then Ok(patterns) else Err(DuplicatePattern)
  }

  /** Everything a note tells the protocol. */
  datatype Controls = Controls(
    approval: Result<Checkpoint, DispatchError>,
    allow: Result<seq<string>, DispatchError>,
    rework: Result<Option<(Checkpoint, nat)>, DispatchError>)

  function ControlsOf(decode: Decoder, note: Note): Controls {
    Controls(ParseApproval(note), ParseAllow(decode, note), ParseRework(decode, note))
  }

  // ---------------------------------------------------------------- commit messages

  function ReworkLabel(attempt: nat): string {
    "rework-" + Decimal(attempt)
  }

  function Message(issueId: string, cp: Checkpoint, tag: Option<string>): string {
    "checkpoint(issue-" + issueId + "): " + Name(cp)
    + (if tag.Some? && tag.value != "" then " " + tag.value else "")
  }

  /** The publication a watcher owes after reading these controls: its checkpoint and label. */
  function Owed(controls: Controls): Option<(Checkpoint, Option<string>)> {
    if controls.approval.Err? || controls.rework.Err? then None
    else match WriteAfter(controls.approval.value)
         case None => None
         case Some(cp) =>
           match controls.rework.value
           case None => Some((cp, None))
           case Some((target, attempt)) => if target == cp then Some((cp, Some(ReworkLabel(attempt)))) else None
  }

  lemma OwedIsAuthorised(controls: Controls)
    requires Owed(controls).Some?
    ensures controls.approval.Ok? && Required(Owed(controls).value.0) == Some(controls.approval.value)
  {
  }

  /** Different attempts never share a commit subject, nor does a first publication share one with a rework. */
  lemma MessagesDistinguishAttempts(issueId: string, cp: Checkpoint, a: Option<nat>, cp': Checkpoint, a': Option<nat>)
    requires Message(issueId, cp, if a.Some? then Some(ReworkLabel(a.value)) else None)
             == Message(issueId, cp', if a'.Some? then Some(ReworkLabel(a'.value)) else None)
    ensures cp == cp' && a == a'
  {
    var head := "checkpoint(issue-" + issueId + "): ";
    var tail := if a.Some? then " " + ReworkLabel(a.value) else "";
    var tail' := if a'.Some? then " " + ReworkLabel(a'.value) else "";
    var m, m' := head + Name(cp) + tail, head + Name(cp') + tail';
    assert m == m';
    assert m[|head|..|head| + 3] == Name(cp) && m'[|head|..|head| + 3] == Name(cp');
    assert Name(cp)[2] == Name(cp')[2];
    assert m[|head| + 3..] == tail && m'[|head| + 3..] == tail';
    if a.Some? && a'.Some? {
      assert tail[8..] == Decimal(a.value) && tail'[8..] == Decimal(a'.value);
      DecimalInjective(a.value, a'.value);
    }
  }

  // ---------------------------------------------------------------- prose does not matter

  lemma {:induction false} CandidatesSplit(before: Note, after: Note, key: string)
    ensures Candidates(before + after, key) == Candidates(before, key) + Candidates(after, key)
  {
    if before == [] {
      assert before + after == after;
    } else {
      CandidatesSplit(before[1..], after, key);
      assert (before + after)[1..] == before[1..] + after;
      Associative(Candidate(before[0], key), Candidates(before[1..], key), Candidates(after, key));
    }
  }

  lemma Associative(a: seq<string>, b: seq<string>, c: seq<string>)
    ensures a + (b + c) == (a + b) + c
  {
  }

  lemma ProseIsNoCandidate(before: Note, line: string, after: Note, key: string)
    requires Candidate(line, key) == []
    ensures Candidates(before + [line] + after, key) == Candidates(before + after, key)
  {
    CandidatesSplit(before + [line], after, key);
    CandidatesSplit(before, [line], key);
    CandidatesSplit(before, after, key);
    assert Candidates([line], key) == [];
    assert Candidates(before + [line], key) == Candidates(before, key);
  }

  lemma ProseKeepsMarker(before: Note, line: string, after: Note, key: string)
    requires !StartsWith(Strip(line), Prefix(key))
    ensures Candidates(before + [line] + after, key) == Candidates(before + after, key)
    ensures OnlyMarker(before + [line] + after, key) == OnlyMarker(before + after, key)
  {
    ProseIsNoCandidate(before, line, after, key);
  }

  predicate Prose(line: string) {
    && !StartsWith(Strip(line), Prefix(GATE_KEY))
    && !StartsWith(Strip(line), Prefix(ALLOW_KEY))
    && !StartsWith(Strip(line), Prefix(REWORK_KEY))
  }

  lemma ProseKeepsApproval(before: Note, line: string, after: Note)
    requires Prose(line)
    ensures ParseApproval(before + [line] + after) == ParseApproval(before + after)
  {
    ProseKeepsMarker(before, line, after, GATE_KEY);
  }

  lemma ProseKeepsAllow(decode: Decoder, before: Note, line: string, after: Note)
    requires Prose(line)
    ensures ParseAllow(decode, before + [line] + after) == ParseAllow(decode, before + after)
  {
    ProseKeepsMarker(before, line, after, ALLOW_KEY);
  }

  lemma ProseKeepsRework(decode: Decoder, before: Note, line: string, after: Note)
    requires Prose(line)
    ensures ParseRework(decode, before + [line] + after) == ParseRework(decode, before + after)
  {
    ProseKeepsMarker(before, line, after, REWORK_KEY);
  }

  /** Editing the prose of a note, anywhere in it, leaves its controls as they were. */
  lemma ProseIsFree(decode: Decoder, before: Note, line: string, after: Note)
    requires Prose(line)
    ensures ControlsOf(decode, before + [line] + after) == ControlsOf(decode, before + after)
  {
    ProseKeepsApproval(before, line, after);
    ProseKeepsAllow(decode, before, line, after);
    ProseKeepsRework(decode, before, line, after);
  }

  // ---------------------------------------------------------------- a marker that is written is read back

  /** The line a Supervisor writes. */
  function MarkerLine(key: string, body: string): string {
    Prefix(key) + " " + body + " " + CLOSE
  }

  lemma BodyOfMarkerLine(key: string, body: string)
    requires Tight(body)
    ensures Body(MarkerLine(key, body), key) == Some(body)
  {
    var line := MarkerLine(key, body);
    var inner := " " + body + " ";
    assert line == Prefix(key) + inner + CLOSE;
    assert line[|line| - |CLOSE|..] == CLOSE;
    assert line[|Prefix(key)|..|line| - |CLOSE|] == inner;
    StripPadded(body);
  }

  /** A marker among lines that are not candidates for it reads back as the text that was written. */
  lemma MarkerReadsBack(before: Note, after: Note, key: string, body: string)
    requires Candidates(before, key) == [] && Candidates(after, key) == []
    requires Tight(body)
    ensures OnlyMarker(before + [MarkerLine(key, body)] + after, key) == Ok(body)
  {
    var line := MarkerLine(key, body);
    assert Prefix(key)[0] == '<' && line[0] == Prefix(key)[0] && line[|line| - 1] == '>';
    StripTight(line);
    assert StartsWith(line, Prefix(key));
    assert Candidates([line], key) == [line];
    CandidatesSplit(before + [line], after, key);
    CandidatesSplit(before, [line], key);
    BodyOfMarkerLine(key, body);
  }

  /** What the Supervisor approves is what the scripts read. */
  lemma ApprovalReadsBack(before: Note, after: Note, cp: Checkpoint)
    requires Candidates(before, GATE_KEY) == [] && Candidates(after, GATE_KEY) == []
    ensures ParseApproval(before + [MarkerLine(GATE_KEY, Name(cp))] + after) == Ok(cp)
  {
    MarkerReadsBack(before, after, GATE_KEY, Name(cp));
    NameReadsBack(cp);
  }

  lemma NameReadsBack(cp: Checkpoint)
    ensures NormalizeCheckpoint(Name(cp)) == Some(cp)
  {
    StripTight(Name(cp));
    assert Upper(Name(cp)) == Name(cp);
    assert Name(cp)[2] == Digit(Rank(cp));
  }

  /** The control lines of a note: approval, allowlist and, if there is one, the rework. */
  function WrittenNote(cp: Checkpoint, allow: string, rework: Option<string>): Note {
    [MarkerLine(GATE_KEY, Name(cp)), MarkerLine(ALLOW_KEY, allow)]
    + (if rework.Some? then [MarkerLine(REWORK_KEY, rework.value)] else [])
  }

  lemma MarkerLineIsItsOwn(key: string, body: string)
    ensures Candidate(MarkerLine(key, body), key) == [MarkerLine(key, body)]
    ensures Strip(MarkerLine(key, body)) == MarkerLine(key, body)
  {
    var line := MarkerLine(key, body);
    assert Prefix(key)[0] == '<' && line[0] == Prefix(key)[0] && line[|line| - 1] == '>';
    StripTight(line);
  }

  /** Two keys of which neither starts with the other have different candidates. */
  lemma MarkerLineIsNoOther(key: string, other: string, body: string, k: nat)
    requires k < |key| && k < |other| && key[k] != other[k]
    ensures Candidate(MarkerLine(key, body), other) == []
  {
    MarkerLineIsItsOwn(key, body);
    var line := MarkerLine(key, body);
    assert line[5 + k] == key[k] && Prefix(other)[5 + k] == other[k];
  }

  lemma KeysApart(body: string)
    ensures Candidate(MarkerLine(GATE_KEY, body), ALLOW_KEY) == Candidate(MarkerLine(GATE_KEY, body), REWORK_KEY) == []
    ensures Candidate(MarkerLine(ALLOW_KEY, body), GATE_KEY) == Candidate(MarkerLine(ALLOW_KEY, body), REWORK_KEY) == []
    ensures Candidate(MarkerLine(REWORK_KEY, body), GATE_KEY) == Candidate(MarkerLine(REWORK_KEY, body), ALLOW_KEY) == []
  {
    KeysDiffer();
    TwoKeysApart(GATE_KEY, ALLOW_KEY, body, 15);
    TwoKeysApart(REWORK_KEY, ALLOW_KEY, body, 15);
    TwoKeysApart(GATE_KEY, REWORK_KEY, body, 26);
  }

  lemma KeysDiffer()
    ensures |GATE_KEY| > 26 && |REWORK_KEY| > 26 && |ALLOW_KEY| > 15
    ensures GATE_KEY[15] != ALLOW_KEY[15] && REWORK_KEY[15] != ALLOW_KEY[15] && GATE_KEY[26] != REWORK_KEY[26]
  {
  }

  lemma TwoKeysApart(key: string, other: string, body: string, k: nat)
    requires k < |key| && k < |other| && key[k] != other[k]
    ensures Candidate(MarkerLine(key, body), other) == [] && Candidate(MarkerLine(other, body), key) == []
  {
    MarkerLineIsNoOther(key, other, body, k);
    MarkerLineIsNoOther(other, key, body, k);
  }

  lemma NoneIn(lines: Note, key: string)
    requires |lines| <= 2 && forall line | line in lines :: Candidate(line, key) == []
    ensures Candidates(lines, key) == []
  {
    if lines != [] {
      NoneIn(lines[1..], key);
    }
  }

  lemma WrittenApproval(cp: Checkpoint, allow: string, rework: Option<string>)
    ensures ParseApproval(WrittenNote(cp, allow, rework)) == Ok(cp)
  {
    var gate, list := MarkerLine(GATE_KEY, Name(cp)), MarkerLine(ALLOW_KEY, allow);
    var rest := if rework.Some? then [MarkerLine(REWORK_KEY, rework.value)] else [];
    KeysApart(allow);
    if rework.Some? {
      KeysApart(rework.value);
    }
    assert WrittenNote(cp, allow, rework) == [] + [gate] + ([list] + rest);
    NoneIn([list] + rest, GATE_KEY);
    ApprovalReadsBack([], [list] + rest, cp);
  }

  lemma WrittenAllow(decode: Decoder, cp: Checkpoint, allow: string, rework: Option<string>)
    requires Tight(allow)
    ensures ParseAllow(decode, WrittenNote(cp, allow, rework)) == AllowOf(decode(allow))
  {
    var gate, list := MarkerLine(GATE_KEY, Name(cp)), MarkerLine(ALLOW_KEY, allow);
    var rest := if rework.Some? then [MarkerLine(REWORK_KEY, rework.value)] else [];
    KeysApart(Name(cp));
    if rework.Some? {
      KeysApart(rework.value);
    }
    assert WrittenNote(cp, allow, rework) == [gate] + [list] + rest;
    NoneIn([gate], ALLOW_KEY);
    NoneIn(rest, ALLOW_KEY);
    MarkerReadsBack([gate], rest, ALLOW_KEY, allow);
  }

  lemma WrittenRework(decode: Decoder, cp: Checkpoint, allow: string, rework: Option<string>)
    requires rework.Some? ==> Tight(rework.value)
    ensures ParseRework(decode, WrittenNote(cp, allow, rework))
            == if rework.Some? then ReworkOf(decode(rework.value)) else Ok(None)
  {
    var before := [MarkerLine(GATE_KEY, Name(cp)), MarkerLine(ALLOW_KEY, allow)];
    KeysApart(Name(cp));
    KeysApart(allow);
    NoneIn(before, REWORK_KEY);
    if rework.Some? {
      assert WrittenNote(cp, allow, rework) == before + [MarkerLine(REWORK_KEY, rework.value)] + [];
      MarkerReadsBack(before, [], REWORK_KEY, rework.value);
    } else {
      assert WrittenNote(cp, allow, rework) == before;
    }
  }

  /** The three control lines of a note are read back together. */
  lemma WrittenNoteReadsBack(decode: Decoder, cp: Checkpoint, allow: string, rework: Option<string>)
    requires Tight(allow) && (rework.Some? ==> Tight(rework.value))
    ensures
      ControlsOf(decode, WrittenNote(cp, allow, rework))
      == Controls(Ok(cp), AllowOf(decode(allow)), if rework.Some? then ReworkOf(decode(rework.value)) else Ok(None))
  {
    WrittenApproval(cp, allow, rework);
    WrittenAllow(decode, cp, allow, rework);
    WrittenRework(decode, cp, allow, rework);
  }
}
