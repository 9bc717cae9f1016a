/** The string operations the parsers and the normaliser use. */
module Text {

  /** The characters str.strip() removes. */
  predicate IsSpace(c: char) {
    var n := c as int;
    || 0x09 <= n <= 0x0D || 0x1C <= n <= 0x20 || n == 0x85 || n == 0xA0 || n == 0x1680
    || 0x2000 <= n <= 0x200A || n == 0x2028 || n == 0x2029 || n == 0x202F || n == 0x205F || n == 0x3000
  }

  function StripLeft(s: string): string {
    if s != [] && IsSpace(s[0]) then StripLeft(s[1..]) else s
  }

  function StripRight(s: string): string {
    if s != [] && IsSpace(s[|s| - 1]) then StripRight(s[..|s| - 1]) else s
  }

  function Strip(s: string): string {
    StripRight(StripLeft(s))
  }

  lemma StripTight(s: string)
    requires s != [] && !IsSpace(s[0]) && !IsSpace(s[|s| - 1])
    ensures Strip(s) == s
  {
  }

  lemma StripPadded(s: string)
    requires s != [] && !IsSpace(s[0]) && !IsSpace(s[|s| - 1])
    ensures Strip(" " + s + " ") == s
  {
    var padded := " " + s + " ";
    assert padded[1..] == s + " ";
    assert StripLeft(padded) == StripLeft(s + " ") == s + " ";
    assert (s + " ")[..|s|] == s;
    assert StripRight(s + " ") == StripRight(s) == s;
  }

  predicate AllSpace(s: string) {
    forall c | c in s :: IsSpace(c)
  }

  /** Which of the ASCII characters count as white space, and that no printable one does. */
  lemma AsciiSpaces(c: char)
    requires (c as int) < 128
    ensures IsSpace(c) <==> c in {' ', '\t', '\n', '\r', '\U{0B}', '\U{0C}', '\U{1C}', '\U{1D}', '\U{1E}', '\U{1F}'}
  {
  }

  predicate Tight(s: string) {
    s != "" && !IsSpace(s[0]) && !IsSpace(s[|s| - 1])
  }

  /** `part` is `whole` without the white space around it. */
  ghost predicate TrimmedTo(whole: string, part: string) {
    (part == "" || Tight(part)) && exists pre, post :: AllSpace(pre) && AllSpace(post) && whole == pre + part + post
  }

  lemma {:induction false} StripLeftDrops(s: string) returns (pre: string)
    ensures AllSpace(pre) && s == pre + StripLeft(s) && (StripLeft(s) == "" || !IsSpace(StripLeft(s)[0]))
  {
    pre := "";
    if s != "" && IsSpace(s[0]) {
      var rest := StripLeftDrops(s[1..]);
      pre := [s[0]] + rest;
      assert s == [s[0]] + s[1..];
    }
  }

  lemma {:induction false} StripRightDrops(s: string) returns (post: string)
    ensures AllSpace(post) && s == StripRight(s) + post
    ensures StripRight(s) == "" || !IsSpace(StripRight(s)[|StripRight(s)| - 1])
  {
    post := "";
    if s != "" && IsSpace(s[|s| - 1]) {
      var rest := StripRightDrops(s[..|s| - 1]);
      post := rest + [s[|s| - 1]];
      assert s == s[..|s| - 1] + [s[|s| - 1]];
    }
  }

  /** Stripping drops exactly the white space around a text: nothing inside it, and nothing less. */
  lemma StripTrims(s: string)
    ensures TrimmedTo(s, Strip(s))
    ensures Strip(s) == "" <==> AllSpace(s)
  {
    var pre := StripLeftDrops(s);
    var post := StripRightDrops(StripLeft(s));
    assert StripLeft(s) == Strip(s) + post;
    assert s == pre + Strip(s) + post;
    if Strip(s) != "" {
      assert Strip(s)[0] == StripLeft(s)[0];
      assert Strip(s)[0] in s;
    }
  }

  lemma {:induction false} StripLeftPast(pre: string, rest: string)
    requires AllSpace(pre) && (rest == "" || !IsSpace(rest[0]))
    ensures StripLeft(pre + rest) == rest
  {
    if pre == "" {
      assert pre + rest == rest;
    } else {
      assert pre[0] in pre && (pre + rest)[1..] == pre[1..] + rest;
      StripLeftPast(pre[1..], rest);
    }
  }

  lemma {:induction false} StripRightPast(part: string, post: string)
    requires AllSpace(post) && (part == "" || !IsSpace(part[|part| - 1]))
    ensures StripRight(part + post) == part
  {
    if post == "" {
      assert part + post == part;
    } else {
      var last := |post| - 1;
      assert post[last] in post && (part + post)[..|part + post| - 1] == part + post[..last];
      StripRightPast(part, post[..last]);
    }
  }

  lemma {:induction false} SpaceStripsAway(s: string)
    requires AllSpace(s)
    ensures StripLeft(s) == ""
  {
    if s != "" {
      assert s[0] in s;
      SpaceStripsAway(s[1..]);
    }
  }

  /** There is only one way to trim a text. */
  lemma TrimIsStrip(s: string, part: string)
    ensures TrimmedTo(s, part) <==> part == Strip(s)
  {
    StripTrims(s);
    if TrimmedTo(s, part) {
      var pre, post :| AllSpace(pre) && AllSpace(post) && s == pre + part + post;
      if part == "" {
        SpaceStripsAway(s);
      } else {
        assert s == pre + (part + post);
        StripLeftPast(pre, part + post);
        StripRightPast(part, post);
      }
    }
  }

  predicate StartsWith(s: string, prefix: string) {
    prefix <= s
  }

  predicate EndsWith(s: string, suffix: string) {
    |suffix| <= |s| && s[|s| - |suffix|..] == suffix
  }

  /** str.upper() on the letters checkpoint names are made of; no other character becomes one of them. */
  function Upper(s: string): string {
    seq(|s|, i requires 0 <= i < |s| => if 'a' <= s[i] <= 'z' then ((s[i] as int) - 32) as char else s[i])
  }

  function Digit(d: nat): char
    requires d < 10
  {
    ('0' as int + d) as char
  }

  /** str(n) for a non-negative integer. */
  function Decimal(n: nat): string {
    if n < 10 then [Digit(n)] else Decimal(n / 10) + [Digit(n % 10)]
  }

  lemma {:induction false} DecimalInjective(m: nat, n: nat)
    requires Decimal(m) == Decimal(n)
    ensures m == n
  {
    var a, b := Decimal(m), Decimal(n);
    assert a[|a| - 1] == Digit(m % 10) && b[|b| - 1] == Digit(n % 10);
    if m >= 10 && n >= 10 {
      assert a[..|a| - 1] == Decimal(m / 10) && b[..|b| - 1] == Decimal(n / 10);
      DecimalInjective(m / 10, n / 10);
    } else if m >= 10 {
      DecimalNonEmpty(m / 10);
    } else if n >= 10 {
      DecimalNonEmpty(n / 10);
    }
  }

  /** int(s), for digits. */
  function ReadDecimal(s: string): int {
    if s == "" then 0 else 10 * ReadDecimal(s[..|s| - 1]) + (s[|s| - 1] as int - '0' as int)
  }

  /** A number is written with digits, without a leading zero, and reads back as itself. */
  lemma {:induction false} DecimalReadsBack(n: nat)
    ensures ReadDecimal(Decimal(n)) == n && Decimal(n) != ""
    ensures forall c | c in Decimal(n) :: '0' <= c <= '9'
    ensures n > 0 ==> Decimal(n)[0] != '0'
  {
    if n >= 10 {
      DecimalReadsBack(n / 10);
      assert Decimal(n)[..|Decimal(n)| - 1] == Decimal(n / 10);
    } else {
      assert Decimal(n)[..0] == "" && Decimal(n)[0] as int == '0' as int + n;
    }
  }

  lemma DecimalNonEmpty(n: nat)
    ensures |Decimal(n)| > 0
  {
  }
}
