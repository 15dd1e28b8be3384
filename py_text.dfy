/** The behaviour of the Python string operations the core relies on:
    `str.isspace`, `str.strip()`, `str.split()` with no argument,
    `str.replace(c, '')`, and `int()` applied to a token. */
module PyText {
  import opened Wrappers

  /** `c.isspace()`: the code points Python classes as whitespace. */
  predicate IsSpace(c: char) {
    var n := c as int;
    (0x09 <= n <= 0x0D) || (0x1C <= n <= 0x20) || n == 0x85 || n == 0xA0 || n == 0x1680 ||
    (0x2000 <= n <= 0x200A) || n == 0x2028 || n == 0x2029 || n == 0x202F || n == 0x205F || n == 0x3000
  }

  predicate IsDigit(c: char) {
    '0' <= c <= '9'
  }

  /** A non-empty run of non-whitespace characters: what `split()` yields. */
  predicate IsWord(s: string) {
    s != [] && forall k :: 0 <= k < |s| ==> !IsSpace(s[k])
  }

  /** True when `t` stands in `s` starting at index `i`. */
  predicate OccursAt(t: string, s: string, i: int) {
    0 <= i <= |s| - |t| && s[i..i + |t|] == t
  }

  /** True when `t` is a contiguous piece of `s`. */
  predicate Occurs(t: string, s: string) {
    exists i :: 0 <= i <= |s| - |t| && OccursAt(t, s, i)
  }

  // ---------------------------------------------------------------------
  // strip()

  function LStrip(s: string): (r: string)
    ensures |r| <= |s| && r == s[|s| - |r|..]
    ensures forall k :: 0 <= k < |s| - |r| ==> IsSpace(s[k])
    ensures r != [] ==> !IsSpace(r[0])
  {
    if s != [] && IsSpace(s[0]) then LStrip(s[1..]) else s
  }

  function RStrip(s: string): (r: string)
    ensures |r| <= |s| && r == s[..|r|]
    ensures forall k :: |r| <= k < |s| ==> IsSpace(s[k])
    ensures r != [] ==> !IsSpace(r[|r| - 1])
  {
    if s != [] && IsSpace(s[|s| - 1]) then RStrip(s[..|s| - 1]) else s
  }

  /** `s.strip()`: the piece of `s` left when the whitespace at both ends is cut off. */
  function Strip(s: string): (r: string)
    ensures |r| <= |s|
    ensures r != [] ==> !IsSpace(r[0]) && !IsSpace(r[|r| - 1])
    ensures exists i :: TrimmedAt(s, r, i)
  {
    var l := LStrip(s);
    var r := RStrip(l);
    var i := |s| - |l|;
    assert TrimmedAt(s, r, i);
    r
  }

  /** `r` is `s[i..]` cut short, and everything of `s` around it is whitespace. */
  predicate TrimmedAt(s: string, r: string, i: int) {
    OccursAt(r, s, i) &&
    (forall k :: 0 <= k < i ==> IsSpace(s[k])) &&
    (forall k :: i + |r| <= k < |s| ==> IsSpace(s[k]))
  }

  /** A string without whitespace at either end is its own strip. */
  lemma StripNoEdgeSpace(s: string)
    requires s != [] ==> !IsSpace(s[0]) && !IsSpace(s[|s| - 1])
    ensures Strip(s) == s
  {
  }

  // ---------------------------------------------------------------------
  // split()

  /** Length of the run of non-whitespace characters that starts `s`. */
  function TokenLength(s: string): (n: nat)
    ensures n <= |s|
    ensures forall k :: 0 <= k < n ==> !IsSpace(s[k])
    ensures n < |s| ==> IsSpace(s[n])
  {
    if s == [] || IsSpace(s[0]) then 0 else 1 + TokenLength(s[1..])
  }

  /** `s.split()`: the maximal runs of non-whitespace characters, in order. */
  function Split(s: string): (parts: seq<string>)
    ensures forall i :: 0 <= i < |parts| ==> IsWord(parts[i])
    decreases |s|
  {
    if s == [] then []
    else if IsSpace(s[0]) then Split(s[1..])
    else
      var n := TokenLength(s);
      [s[..n]] + Split(s[n..])
  }

  /** The characters of `s` that are not whitespace, in order. */
  function NonSpaceChars(s: string): (r: string)
    ensures |r| <= |s|
  {
    if s == [] then [] else (if IsSpace(s[0]) then [] else [s[0]]) + NonSpaceChars(s[1..])
  }

  function Concat(parts: seq<string>): string {
    if parts == [] then [] else parts[0] + Concat(parts[1..])
  }

  lemma {:induction false} NonSpaceCharsAppend(a: string, b: string)
    ensures NonSpaceChars(a + b) == NonSpaceChars(a) + NonSpaceChars(b)
  {
    if a != [] {
      assert (a + b)[1..] == a[1..] + b;
      NonSpaceCharsAppend(a[1..], b);
    } else {
      assert a + b == b;
    }
  }

  lemma {:induction false} NonSpaceCharsOfWord(w: string)
    requires forall k :: 0 <= k < |w| ==> !IsSpace(w[k])
    ensures NonSpaceChars(w) == w
  {
    if w != [] {
      NonSpaceCharsOfWord(w[1..]);
    }
  }

  /** Splitting loses exactly the whitespace: the parts, put back together,
      are the non-whitespace characters of the input. */
  lemma {:induction false} SplitKeepsNonSpace(s: string)
    ensures Concat(Split(s)) == NonSpaceChars(s)
    decreases |s|
  {
    if s == [] {
    } else if IsSpace(s[0]) {
      SplitKeepsNonSpace(s[1..]);
    } else {
      var n := TokenLength(s);
      assert s == s[..n] + s[n..];
      SplitKeepsNonSpace(s[n..]);
      NonSpaceCharsAppend(s[..n], s[n..]);
      NonSpaceCharsOfWord(s[..n]);
      assert ([s[..n]] + Split(s[n..]))[1..] == Split(s[n..]);
    }
  }

  /** A word is split into itself; a word, a space and the rest split into the word and the rest's parts. */
  lemma SplitWordThen(w: string, rest: string)
    requires IsWord(w)
    requires rest == [] || IsSpace(rest[0])
    ensures Split(w + rest) == [w] + Split(rest)
  {
    var s := w + rest;
    var n := TokenLength(s);
    assert forall k :: 0 <= k < |w| ==> s[k] == w[k];
    assert rest != [] ==> s[|w|] == rest[0];
    assert n == |w|;
    assert s[..n] == w && s[n..] == rest;
  }

  /** Whitespace in front of a string is dropped by splitting: parts are cut only at whitespace. */
  lemma {:induction false} SplitLeadingSpace(ws: string, s: string)
    requires forall k :: 0 <= k < |ws| ==> IsSpace(ws[k])
    ensures Split(ws + s) == Split(s)
    decreases |ws|
  {
    if ws == [] {
      assert ws + s == s;
    } else {
      var t := ws + s;
      assert t[0] == ws[0] && t[1..] == ws[1..] + s;
      assert Split(t) == Split(t[1..]);
      SplitLeadingSpace(ws[1..], s);
    }
  }

  lemma SplitTwoWords(a: string, b: string)
    requires IsWord(a) && IsWord(b)
    ensures Split(a + " " + b) == [a, b]
  {
    var sb := " " + b;
    assert a + " " + b == a + sb;
    SplitWordThen(a, sb);
    assert sb[1..] == b;
    assert Split(sb) == Split(b);
    SplitWordThen(b, []);
    assert b + [] == b;
    assert Split(b) == [b];
  }

  // ---------------------------------------------------------------------
  // replace(c, '')

  /** `s.replace(c, '')`. */
  function RemoveAll(s: string, c: char): (r: string)
    ensures |r| <= |s|
    ensures forall k :: 0 <= k < |r| ==> r[k] != c
  {
    if s == [] then []
    else
      var tail := RemoveAll(s[1..], c);
      if s[0] == c then tail else [s[0]] + tail
  }

  /** Removing `c` keeps every other character, as often as it occurs. */
  lemma {:induction false} RemoveAllKeepsOthers(s: string, c: char)
    ensures forall x :: x != c ==> multiset(RemoveAll(s, c))[x] == multiset(s)[x]
  {
    if s != [] {
      RemoveAllKeepsOthers(s[1..], c);
      assert s == [s[0]] + s[1..];
    }
  }

  lemma {:induction false} RemoveAllAppend(a: string, b: string, c: char)
    ensures RemoveAll(a + b, c) == RemoveAll(a, c) + RemoveAll(b, c)
  {
    if a == [] {
      assert a + b == b;
    } else {
      assert (a + b)[1..] == a[1..] + b;
      RemoveAllAppend(a[1..], b, c);
    }
  }

  lemma {:induction false} RemoveAllAbsent(s: string, c: char)
    requires forall k :: 0 <= k < |s| ==> s[k] != c
    ensures RemoveAll(s, c) == s
  {
    if s != [] {
      RemoveAllAbsent(s[1..], c);
    }
  }

  // ---------------------------------------------------------------------
  // int() on one token

  /** Characters a decimal literal body may contain: digits and `_`. */
  predicate AllLiteralChars(s: string) {
    forall k :: 0 <= k < |s| ==> IsDigit(s[k]) || s[k] == '_'
  }

  predicate NoUnderscore(s: string) {
    forall k :: 0 <= k < |s| ==> s[k] != '_'
  }

  /** What `int()` accepts after the sign: digits, with single underscores between digits. */
  predicate WellFormedDigits(s: string) {
    |s| > 0 && IsDigit(s[0]) && AllLiteralChars(s) &&
    forall k :: 0 <= k < |s| && s[k] == '_' ==> k + 1 < |s| && IsDigit(s[k + 1])
  }

  function DigitValue(c: char): (d: nat)
    requires IsDigit(c)
    ensures d < 10
  {
    (c as int) - ('0' as int)
  }

  function DigitChar(d: nat): (c: char)
    requires d < 10
    ensures IsDigit(c) && DigitValue(c) == d
  {
    ('0' as int + d) as char
  }

  /** Decimal value of the digits of `s`, underscores skipped. */
  function LiteralValue(s: string): nat
    requires AllLiteralChars(s)
  {
    if s == [] then 0
    else if s[|s| - 1] == '_' then LiteralValue(s[..|s| - 1])
    else 10 * LiteralValue(s[..|s| - 1]) + DigitValue(s[|s| - 1])
  }

  /** `int(tok)` for a token with no whitespace: `None` where Python raises ValueError. */
  function ParseIntLiteral(tok: string): (r: Option<int>)
    ensures r.Some? ==> exists k :: 0 <= k < |tok| && IsDigit(tok[k])
  {
    if |tok| > 0 && (tok[0] == '+' || tok[0] == '-') then
      var body := tok[1..];
      if WellFormedDigits(body) then
        assert IsDigit(tok[1]);
        var v: int := if tok[0] == '-' then 0 - LiteralValue(body) as int else LiteralValue(body);
        Some(v)
      else None
    else if WellFormedDigits(tok) then
      Some(LiteralValue(tok))
    else None
  }


  /** `str(n)` for a natural number: its canonical decimal digits. */
  function NatToString(n: nat): (r: string)
    ensures IsWord(r) && AllLiteralChars(r) && NoUnderscore(r)
    ensures forall k :: 0 <= k < |r| ==> IsDigit(r[k]) && r[k] != ','
    ensures LiteralValue(r) == n
    ensures r[0] == '0' ==> n == 0 && r == "0"
  {
    if n < 10 then [DigitChar(n)]
    else
      var prefix := NatToString(n / 10);
      var r := prefix + [DigitChar(n % 10)];
      assert r[..|r| - 1] == prefix;
      r
  }

  lemma {:induction false} NatToStringLength(n: nat)
    ensures n < 10 ==> |NatToString(n)| == 1
    ensures n < 100 ==> |NatToString(n)| <= 2
    ensures n < 1000 ==> |NatToString(n)| <= 3
    ensures n < 10000 ==> |NatToString(n)| <= 4
  {
    if n >= 10 {
      NatToStringLength(n / 10);
    }
  }

  /** `int(str(n)) == n` and `int('-' + str(n)) == -n`. */
  lemma ParseNatToString(n: nat)
    ensures ParseIntLiteral(NatToString(n)) == Some(n)
    ensures ParseIntLiteral("-" + NatToString(n)) == Some(0 - n)
  {
    var s := NatToString(n);
    assert WellFormedDigits(s);
    assert ("-" + s)[1..] == s;
  }

  /** A token holding a character that is neither a digit, `_` nor a leading sign is not a number. */
  lemma ParseIntRejects(tok: string, k: nat)
    requires k < |tok| && !IsDigit(tok[k]) && tok[k] != '_'
    requires k == 0 ==> tok[0] != '+' && tok[0] != '-'
    ensures ParseIntLiteral(tok) == None
  {
    if tok[0] == '+' || tok[0] == '-' {
      var body := tok[1..];
      assert body[k - 1] == tok[k];
    }
  }

  /** A literal body with an underscore that is leading, trailing or doubled. */
  predicate MisplacedUnderscore(body: string) {
    exists k :: 0 <= k < |body| && body[k] == '_' && (k == 0 || k + 1 == |body| || body[k + 1] == '_')
  }

  /** `int()` rejects a lone sign, the empty token and misplaced underscores ("_1", "1_", "1__2"), with or without a sign. */
  lemma ParseIntRejectsMalformed(sign: string, body: string)
    requires sign == "" || sign == "+" || sign == "-"
    requires body == [] || MisplacedUnderscore(body)
    ensures ParseIntLiteral(sign + body) == None
  {
    var tok := sign + body;
    if body == [] {
      assert sign != "" ==> tok[1..] == [];
    } else {
      var k :| 0 <= k < |body| && body[k] == '_' && (k == 0 || k + 1 == |body| || body[k + 1] == '_');
      if sign != "" {
        assert tok[1..] == body;
        BadUnderscore(body, k);
      } else if tok[0] == '+' || tok[0] == '-' {
        assert tok == body && k > 0;
        var rest := tok[1..];
        assert rest[k - 1] == '_' && (k == |rest| || rest[k] == '_');
        BadUnderscore(rest, k - 1);
      } else {
        BadUnderscore(tok, k);
      }
    }
  }

  lemma BadUnderscore(b: string, k: int)
    requires 0 <= k < |b| && b[k] == '_' && (k == 0 || k + 1 == |b| || b[k + 1] == '_')
    ensures !WellFormedDigits(b)
  {
  }

  /** `int()` of well-formed digits, with no sign, a `+` or a `-`, is their value, underscores skipped. */
  lemma ParseWellFormedDigits(body: string)
    requires WellFormedDigits(body)
    ensures ParseIntLiteral(body) == Some(LiteralValue(body))
    ensures ParseIntLiteral("+" + body) == Some(LiteralValue(body))
    ensures ParseIntLiteral("-" + body) == Some(0 - LiteralValue(body))
  {
    assert ("+" + body)[1..] == body;
    assert ("-" + body)[1..] == body;
  }

  /** An underscore between two literal pieces does not change the value ("2_1" is 21). */
  lemma {:induction false} UnderscoreIgnored(a: string, b: string)
    requires AllLiteralChars(a) && AllLiteralChars(b)
    ensures AllLiteralChars(a + "_" + b) && AllLiteralChars(a + b)
    ensures LiteralValue(a + "_" + b) == LiteralValue(a + b)
    decreases |b|
  {
    var s, t := a + "_" + b, a + b;
    if b == [] {
      assert s[..|s| - 1] == a && t == a;
    } else {
      var b' := b[..|b| - 1];
      assert s[..|s| - 1] == a + "_" + b';
      assert t[..|t| - 1] == a + b';
      UnderscoreIgnored(a, b');
    }
  }

  function Zeros(k: nat): (r: string)
    ensures |r| == k && AllLiteralChars(r) && NoUnderscore(r)
    ensures forall i :: 0 <= i < k ==> r[i] == '0'
  {
    if k == 0 then [] else ['0'] + Zeros(k - 1)
  }

  /** Leading zeros do not change the value of a literal. */
  lemma {:induction false} LeadingZeros(k: nat, s: string)
    requires AllLiteralChars(s)
    ensures AllLiteralChars(Zeros(k) + s)
    ensures LiteralValue(Zeros(k) + s) == LiteralValue(s)
    decreases |s|, k
  {
    var z := Zeros(k);
    if s == [] {
      assert z + s == z;
      if k > 0 {
        assert z[..|z| - 1] == Zeros(k - 1) + [] by {
          assert Zeros(k) == ['0'] + Zeros(k - 1);
          assert Zeros(k) == Zeros(k - 1) + ['0'];
        }
        LeadingZeros(k - 1, s);
      }
    } else {
      var t := z + s;
      assert t[..|t| - 1] == z + s[..|s| - 1];
      LeadingZeros(k, s[..|s| - 1]);
    }
  }

  /** Leading zeros and a leading `+` are accepted: `int("07") == int("+07") == 7` and `int("-07") == -7`. */
  lemma ParseZeroPadded(k: nat, n: nat)
    ensures ParseIntLiteral(Zeros(k) + NatToString(n)) == Some(n)
    ensures ParseIntLiteral("+" + (Zeros(k) + NatToString(n))) == Some(n)
    ensures ParseIntLiteral("-" + (Zeros(k) + NatToString(n))) == Some(0 - n)
  {
    var digits := NatToString(n);
    var body := Zeros(k) + digits;
    LeadingZeros(k, digits);
    assert forall i :: 0 <= i < |body| ==> IsDigit(body[i]);
    assert WellFormedDigits(body);
    ParseWellFormedDigits(body);
  }
}
