/** Exactly when the parsers of the control markers accept a note, and what they then read. */
module MarkerReading {
  import opened Wrappers
  import opened JsonValues
  import opened Text
  import opened Markers

  // ---------------------------------------------------------------- one marker line and no other

  /** Line `i`, without the white space around it, opens a marker with this key. */
  predicate Marks(note: Note, i: nat, key: string) {
    i < |note| && StartsWith(Strip(note[i]), "<!-- " + key + ":")
  }

  ghost predicate OnlyMarks(note: Note, i: nat, key: string) {
    Marks(note, i, key) && forall j: nat | Marks(note, j, key) :: j == i
  }

  lemma {:induction false} NoMarkNoCandidate(note: Note, key: string)
    ensures Candidates(note, key) == [] <==> forall i: nat :: !Marks(note, i, key)
  {
    if note != [] {
      NoMarkNoCandidate(note[1..], key);
      assert Candidate(note[0], key) == [] <==> !Marks(note, 0, key);
      forall i: nat ensures Marks(note[1..], i, key) <==> Marks(note, i + 1, key) {
      }
      if i: nat :| Marks(note, i, key) {
        if i > 0 {
          assert Marks(note[1..], i - 1, key);
        }
      }
    }
  }

  lemma MarkedPart(note: Note, i: nat, from: nat, to: nat, key: string)
    requires from <= i < to <= |note| && Marks(note, i, key)
    ensures Candidates(note[from..to], key) != []
  {
    assert Marks(note[from..to], i - from, key);
    NoMarkNoCandidate(note[from..to], key);
  }

  /** Two lines that open a marker with the same key are two candidates. */
  lemma TwoMarksTwoCandidates(note: Note, i: nat, j: nat, key: string)
    requires i < j && Marks(note, i, key) && Marks(note, j, key)
    ensures |Candidates(note, key)| >= 2
  {
    assert note == note[0..j] + note[j..|note|];
    CandidatesSplit(note[0..j], note[j..|note|], key);
    MarkedPart(note, i, 0, j, key);
    MarkedPart(note, j, j, |note|, key);
  }

  lemma MarksInPart(note: Note, from: nat, to: nat, k: nat, key: string)
    requires from <= to <= |note|
    ensures Marks(note[from..to], k, key) <==> k < to - from && Marks(note, from + k, key)
  {
  }

  lemma OnlyMarkOneCandidate(note: Note, i: nat, key: string)
    requires OnlyMarks(note, i, key)
    ensures Candidates(note, key) == [Strip(note[i])]
  {
    var before, after := note[0..i], note[i + 1..|note|];
    assert note == before + [note[i]] + after;
    forall k: nat ensures !Marks(before, k, key) && !Marks(after, k, key) {
      MarksInPart(note, 0, i, k, key);
      MarksInPart(note, i + 1, |note|, k, key);
    }
    NoMarkNoCandidate(before, key);
    NoMarkNoCandidate(after, key);
    CandidatesSplit(before + [note[i]], after, key);
    CandidatesSplit(before, [note[i]], key);
  }

  /** The line is a whole marker with this text in it. */
  ghost predicate Encloses(line: string, key: string, body: string) {
    exists inner :: line == "<!-- " + key + ":" + inner + "-->" && TrimmedTo(inner, body)
  }

  lemma WholeLineIsLong(line: string, key: string)
    requires StartsWith(line, Prefix(key)) && EndsWith(line, CLOSE)
    ensures |line| >= |Prefix(key)| + 3
  {
    var n := |Prefix(key)|;
    assert Prefix(key)[n - 1] == ':' && line[n - 1] == ':';
    assert line[|line| - 3..] == CLOSE;
    assert line[|line| - 1] == '>' && line[|line| - 2] == '-' && line[|line| - 3] == '-';
  }

  lemma BodyIsEnclosed(line: string, key: string, body: string)
    ensures Body(line, key) == Some(body) <==> Encloses(line, key, body)
  {
    var n := |Prefix(key)|;
    if Body(line, key) == Some(body) {
      WholeLineIsLong(line, key);
      var inner := line[n..|line| - 3];
      assert line[|line| - 3..] == "-->";
      assert line == "<!-- " + key + ":" + inner + "-->";
      StripTrims(inner);
    }
    if Encloses(line, key, body) {
      var inner :| line == "<!-- " + key + ":" + inner + "-->" && TrimmedTo(inner, body);
      assert line == Prefix(key) + inner + "-->";
      assert line[|line| - 3..] == "-->" && line[n..|line| - 3] == inner;
      TrimIsStrip(inner, body);
    }
  }

  /** The one marker of a note with this key, and the text in it. */
  ghost predicate SoleMarker(note: Note, key: string, body: string) {
    exists i: nat :: OnlyMarks(note, i, key) && Encloses(Strip(note[i]), key, body)
  }

  /** A marker is read exactly when one line and no other opens it, and is whole; two such lines are refused. */
  lemma MarkerReadExactly(note: Note, key: string, body: string)
    ensures OnlyMarker(note, key) == Ok(body) <==> SoleMarker(note, key, body)
    ensures (forall i: nat :: !OnlyMarks(note, i, key)) ==> OnlyMarker(note, key) == Err(MarkerCount)
  {
    if i: nat :| OnlyMarks(note, i, key) {
      OnlyMarkOneCandidate(note, i, key);
      BodyIsEnclosed(Strip(note[i]), key, body);
    } else {
      NotOneCandidate(note, key);
    }
  }

  lemma NotOneCandidate(note: Note, key: string)
    requires forall i: nat :: !OnlyMarks(note, i, key)
    ensures |Candidates(note, key)| != 1
  {
    NoMarkNoCandidate(note, key);
    if i: nat :| Marks(note, i, key) {
      assert !OnlyMarks(note, i, key);
      var j: nat :| Marks(note, j, key) && j != i;
      TwoMarksTwoCandidates(note, if i < j then i else j, if i < j then j else i, key);
    }
  }

  /** Both lines open a marker with this key. */
  predicate BothMark(note: Note, i: nat, j: nat, key: string) {
    Marks(note, i, key) && Marks(note, j, key)
  }

  /** A second line with the key of a marker makes its parser refuse the note. */
  lemma SecondMarkerIsRefused(decode: Decoder, note: Note, i: nat, j: nat)
    requires i < j
    ensures BothMark(note, i, j, "codex-dispatch-supervisor-approved-through") ==> ParseApproval(note) == Err(MarkerCount)
    ensures BothMark(note, i, j, "codex-dispatch-write-allow") ==> ParseAllow(decode, note) == Err(MarkerCount)
    ensures BothMark(note, i, j, "codex-dispatch-supervisor-rework") ==> ParseRework(decode, note) == Err(MarkerCount)
  {
    forall key: string | BothMark(note, i, j, key) ensures |Candidates(note, key)| >= 2 {
      TwoMarksTwoCandidates(note, i, j, key);
    }
  }

  // ---------------------------------------------------------------- checkpoints

  predicate SameLetter(c: char, upper: char)
    requires 'A' <= upper <= 'Z'
  {
    c == upper || c as int == upper as int + 32
  }

  /** The text is a checkpoint's name in any case: the letters and the digit of its number. */
  predicate NamesCheckpoint(text: string, cp: Checkpoint) {
    |text| == 3 && SameLetter(text[0], 'C') && SameLetter(text[1], 'P') && text[2] as int == '0' as int + Rank(cp)
  }

  lemma NamesAreNumbered(cp: Checkpoint)
    ensures Name(cp) == "CP" + [Digit(Rank(cp))]
  {
  }

  lemma UpperNames(text: string, cp: Checkpoint)
    ensures Upper(text) == Name(cp) <==> NamesCheckpoint(text, cp)
  {
    NamesAreNumbered(cp);
    var u := Upper(text);
    assert |u| == |text|;
    if |text| == 3 {
      assert u[0] == Name(cp)[0] && u[1] == Name(cp)[1] && u[2] == Name(cp)[2] ==> u == Name(cp);
    }
  }

  lemma NormalizeNames(raw: string, cp: Checkpoint)
    ensures NormalizeCheckpoint(raw) == Some(cp) <==> Upper(Strip(raw)) == Name(cp)
  {
    NamesAreNumbered(cp);
    var value := Upper(Strip(raw));
    assert value == Name(cp) ==> |value| == 3 && value[2] == Digit(Rank(cp));
  }

  /** A checkpoint is read from its name in any case, with any white space around it, and from nothing else. */
  lemma CheckpointReadExactly(raw: string, cp: Checkpoint)
    ensures NormalizeCheckpoint(raw) == Some(cp) <==> exists text :: TrimmedTo(raw, text) && NamesCheckpoint(text, cp)
  {
    NormalizeNames(raw, cp);
    UpperNames(Strip(raw), cp);
    TrimIsStrip(raw, Strip(raw));
    forall text | TrimmedTo(raw, text) ensures text == Strip(raw) {
      TrimIsStrip(raw, text);
    }
  }

  /** An approval is read exactly when the note has one approval marker, and a checkpoint's name is in it. */
  lemma ApprovalReadExactly(note: Note, cp: Checkpoint)
    ensures ParseApproval(note) == Ok(cp)
            <==> exists body :: SoleMarker(note, "codex-dispatch-supervisor-approved-through", body)
                                && NormalizeCheckpoint(body) == Some(cp)
  {
    var key := "codex-dispatch-supervisor-approved-through";
    assert key == GATE_KEY;
    forall body ensures OnlyMarker(note, key) == Ok(body) <==> SoleMarker(note, key, body) {
      MarkerReadExactly(note, key, body);
    }
  }

  // ---------------------------------------------------------------- rework

  /** The decoded marker asks for this attempt of this write checkpoint. */
  predicate AsksRework(json: Option<Json>, cp: Checkpoint, attempt: nat) {
    && json.Some? && json.value.JObject? && json.value.fields.Keys == {"checkpoint", "attempt"}
    && json.value.fields["checkpoint"].JString?
    && NormalizeCheckpoint(json.value.fields["checkpoint"].text) == Some(cp) && (cp == CP2 || cp == CP3)
    && json.value.fields["attempt"] == JInt(attempt) && attempt > 0
  }

  /** No rework is read exactly when no line opens its marker; one is read exactly from one well-formed marker. */
  lemma ReworkReadExactly(decode: Decoder, note: Note, cp: Checkpoint, attempt: nat)
    ensures ParseRework(decode, note) == Ok(None) <==> forall i: nat :: !Marks(note, i, "codex-dispatch-supervisor-rework")
    ensures ParseRework(decode, note) == Ok(Some((cp, attempt)))
            <==> exists body :: SoleMarker(note, "codex-dispatch-supervisor-rework", body)
                                && AsksRework(decode(body), cp, attempt)
  {
    var key := "codex-dispatch-supervisor-rework";
    assert key == REWORK_KEY;
    NoMarkNoCandidate(note, key);
    forall body ensures OnlyMarker(note, key) == Ok(body) <==> SoleMarker(note, key, body) {
      MarkerReadExactly(note, key, body);
    }
    forall body ensures ReworkOf(decode(body)) == Ok(Some((cp, attempt))) <==> AsksRework(decode(body), cp, attempt) {
      ReworkOfExactly(decode(body), cp, attempt);
    }
  }

  lemma ReworkOfExactly(json: Option<Json>, cp: Checkpoint, attempt: nat)
    ensures ReworkOf(json) == Ok(Some((cp, attempt))) <==> AsksRework(json, cp, attempt)
    ensures ReworkOf(json) != Ok(None)
  {
  }

  // ---------------------------------------------------------------- the allowlist

  /** The parts of a path between slashes. */
  function Components(path: string): (parts: seq<string>)
    ensures |parts| > 0
  {
    if path == "" then [""]
    else
      var rest := Components(path[1..]);
      if path[0] == '/' then [""] + rest else [[path[0]] + rest[0]] + rest[1..]
  }

  predicate ParentAt(path: string, i: nat) {
    && i + 2 <= |path| && path[i] == '.' && path[i + 1] == '.'
    && (i == 0 || path[i - 1] == '/') && (i + 2 == |path| || path[i + 2] == '/')
  }

  lemma HasParentAt(path: string)
    ensures HasParent(path) <==> exists i: nat :: ParentAt(path, i)
  {
    if HasParent(path) {
      var i, j :| 0 <= i <= j <= |path| && path[i..j] == ".."
            && (i == 0 || path[i - 1] == '/') && (j == |path| || path[j] == '/');
      assert path[i] == path[i..j][0] && path[i + 1] == path[i..j][1];
      assert ParentAt(path, i);
    }
    if i: nat :| ParentAt(path, i) {
      assert path[i..i + 2] == "..";
    }
  }

  lemma FirstComponent(path: string)
    ensures Components(path)[0] == "" <==> path == "" || path[0] == '/'
    ensures Components(path)[0] == "." <==> path != "" && path[0] == '.' && (|path| == 1 || path[1] == '/')
    ensures Components(path)[0] == ".." <==> ParentAt(path, 0)
  {
    if path != "" && path[0] != '/' {
      var rest := Components(path[1..]);
      assert Components(path)[0] == [path[0]] + rest[0];
      assert [path[0]] + rest[0] == "." <==> path[0] == '.' && rest[0] == "";
      assert [path[0]] + rest[0] == ".." <==> path[0] == '.' && rest[0] == "." by {
        assert ([path[0]] + rest[0])[1..] == rest[0];
      }
      FirstOfRest(path[1..]);
    }
  }

  lemma FirstOfRest(path: string)
    ensures Components(path)[0] == "" <==> path == "" || path[0] == '/'
    ensures Components(path)[0] == "." <==> path != "" && path[0] == '.' && (|path| == 1 || path[1] == '/')
  {
    if path != "" && path[0] != '/' {
      var rest := Components(path[1..]);
      assert ([path[0]] + rest[0])[1..] == rest[0];
      assert rest[0] == "" <==> path[1..] == "" || path[1] == '/';
    }
  }

  lemma {:induction false} LaterComponents(path: string)
    ensures ".." in Components(path)[1..] <==> exists i: nat :: i > 0 && ParentAt(path, i)
  {
    if path != "" {
      var tail := path[1..];
      LaterComponents(tail);
      FirstComponent(tail);
      forall i: nat ensures i > 0 ==> (ParentAt(path, i + 1) <==> ParentAt(tail, i)) {
      }
      assert ParentAt(path, 1) <==> path[0] == '/' && ParentAt(tail, 0);
      var parts := Components(tail);
      assert parts == [parts[0]] + parts[1..];
      if path[0] == '/' {
        assert Components(path)[1..] == parts;
      } else {
        assert Components(path)[1..] == parts[1..];
      }
      if i: nat :| i > 0 && ParentAt(path, i) {
        if i > 1 {
          assert ParentAt(tail, i - 1);
        }
      }
      if i: nat :| i > 0 && ParentAt(tail, i) {
        assert ParentAt(path, i + 1);
      }
    }
  }

  /** A path leads upwards exactly when one of its parts is "..". */
  lemma ParentIsComponent(path: string)
    ensures HasParent(path) <==> ".." in Components(path)
  {
    HasParentAt(path);
    FirstComponent(path);
    LaterComponents(path);
    assert Components(path) == [Components(path)[0]] + Components(path)[1..];
    if i: nat :| ParentAt(path, i) {
      assert i == 0 || i > 0;
    }
  }

  /** A pattern the Supervisor may allow: relative, staying inside the repository, and not standing for everything. */
  predicate Allowable(pattern: string) {
    && pattern != "" && pattern != "*" && pattern != "**" && pattern != "**/*"
    && '\\' !in pattern && pattern[0] != '/' && ".." !in Components(pattern)
  }

  lemma AllowableIsSafe(pattern: string)
    ensures Allowable(pattern) <==> pattern != "" && SafePattern(pattern)
  {
    ParentIsComponent(pattern);
  }

  /** The decoded marker lists these patterns. */
  predicate Lists(json: Option<Json>, patterns: seq<string>) {
    && json.Some? && json.value.JArray? && |json.value.items| == |patterns| > 0
    && (forall i | 0 <= i < |patterns| :: json.value.items[i] == JString(patterns[i]) && Allowable(patterns[i]))
    && forall i, j | 0 <= i < j < |patterns| :: patterns[i] != patterns[j]
  }

  lemma {:induction false} PatternsReadExactly(items: seq<Json>, patterns: seq<string>)
    requires forall item :: item in items ==> IsPattern(item)
    ensures CheckPatterns(items) == Ok(patterns)
            <==> |items| == |patterns|
                 && forall i | 0 <= i < |patterns| :: items[i] == JString(patterns[i]) && Allowable(patterns[i])
  {
    if items != [] {
      assert items[0] in items && IsPattern(items[0]);
      AllowableIsSafe(items[0].text);
      var tail := if patterns == [] then [] else patterns[1..];
      PatternsReadExactly(items[1..], tail);
      if patterns != [] {
        assert patterns == [patterns[0]] + tail;
        assert forall i | 0 < i < |patterns| :: patterns[i] == tail[i - 1];
        PrependedPatterns(items, patterns);
      }
    }
  }

  lemma PrependedPatterns(items: seq<Json>, patterns: seq<string>)
    requires items != [] && patterns != [] && forall item :: item in items ==> IsPattern(item)
    ensures CheckPatterns(items) == Ok(patterns)
            <==> items[0] == JString(patterns[0]) && SafePattern(patterns[0]) && CheckPatterns(items[1..]) == Ok(patterns[1..])
  {
    assert items[0] in items;
    assert patterns == [patterns[0]] + patterns[1..];
    var rest := CheckPatterns(items[1..]);
    if CheckPattern(items[0]).Ok? && rest.Ok? {
      assert ([items[0].text] + rest.value)[0] == items[0].text && ([items[0].text] + rest.value)[1..] == rest.value;
    }
  }

  lemma AllowOfExactly(json: Option<Json>, patterns: seq<string>)
    ensures AllowOf(json) == Ok(patterns) <==> Lists(json, patterns)
  {
    if json.Some? && json.value.JArray? {
      var items := json.value.items;
      if forall item :: item in items ==> IsPattern(item) {
        PatternsReadExactly(items, patterns);
      } else {
        var item :| item in items && !IsPattern(item);
        var k :| 0 <= k < |items| && items[k] == item;
      }
    }
  }

  /** An allowlist is read exactly from one well-formed marker with distinct allowable patterns. */
  lemma AllowReadExactly(decode: Decoder, note: Note, patterns: seq<string>)
    ensures ParseAllow(decode, note) == Ok(patterns)
            <==> exists body :: SoleMarker(note, "codex-dispatch-write-allow", body) && Lists(decode(body), patterns)
  {
    var key := "codex-dispatch-write-allow";
    assert key == ALLOW_KEY;
    forall body ensures OnlyMarker(note, key) == Ok(body) <==> SoleMarker(note, key, body) {
      MarkerReadExactly(note, key, body);
    }
    forall body ensures AllowOf(decode(body)) == Ok(patterns) <==> Lists(decode(body), patterns) {
      AllowOfExactly(decode(body), patterns);
    }
  }

  // ---------------------------------------------------------------- what is asked for, and how it is called

  /** What a watcher owes: the write checkpoint after an approved CP1 or CP2, plain or as the rework that targets it. */
  lemma OwedExactly(controls: Controls, cp: Checkpoint, tag: Option<string>)
    ensures Owed(controls) == Some((cp, tag))
            <==> && ((controls.approval == Ok(CP1) && cp == CP2) || (controls.approval == Ok(CP2) && cp == CP3))
                 && (|| (controls.rework == Ok(None) && tag == None)
                     || (controls.rework.Ok? && controls.rework.value.Some? && controls.rework.value.value.0 == cp
                         && tag == Some(ReworkLabel(controls.rework.value.value.1))))
  {
  }

  /** The subjects of commits, spelled out. */
  lemma SubjectsAreSpelled(issueId: string)
    ensures Message("7", CP2, None) == "checkpoint(issue-7): CP2"
    ensures Message("7", CP3, Some(ReworkLabel(12))) == "checkpoint(issue-7): CP3 rework-12"
    ensures Message(issueId, CP2, None) == "checkpoint(issue-" + issueId + "): CP2"
  {
    assert Decimal(1) == "1" && Decimal(12) == Decimal(1) + "2" == "12";
    assert Message("7", CP3, Some(ReworkLabel(12))) == "checkpoint(issue-" + "7" + "): " + "CP3" + " " + "rework-12";
  }
}
