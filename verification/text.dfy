/**
 * Character and string helpers shared by every client: ASCII case and digit
 * tests, decimal rendering and parsing of natural numbers, and the three
 * Python string splitters the clients use (`str.split()`, `str.split(d)` and
 * `d.join(parts)`).
 *
 * Case mapping and digit tests cover ASCII only; whitespace is Python's full
 * `str.isspace` set.
 */
module Text {

  predicate IsUpper(c: char) { 'A' <= c <= 'Z' }

  predicate IsLower(c: char) { 'a' <= c <= 'z' }

  predicate IsDigit(c: char) { '0' <= c <= '9' }

  function DigitVal(c: char): (v: nat)
    requires IsDigit(c)
    ensures v < 10
  {
    c as int - '0' as int
  }

  function DigitChar(n: nat): (c: char)
    requires n < 10
    ensures IsDigit(c) && DigitVal(c) == n
  {
    (n + '0' as int) as char
  }

  function Upper(c: char): (u: char)
    ensures IsLower(c) ==> IsUpper(u) && u as int == c as int - 32
    ensures !IsLower(c) ==> u == c
  {
    if IsLower(c) then (c as int - 32) as char else c
  }

  function Lower(c: char): (l: char)
    ensures IsUpper(c) ==> IsLower(l) && l as int == c as int + 32
    ensures !IsUpper(c) ==> l == c
  {
    if IsUpper(c) then (c as int + 32) as char else c
  }

  function LowerStr(s: string): (r: string)
    ensures |r| == |s| && forall i :: 0 <= i < |s| ==> r[i] == Lower(s[i])
  {
    if s == [] then [] else [Lower(s[0])] + LowerStr(s[1..])
  }

  /** Python's `str.isspace` for one character. */
  predicate IsSpace(c: char) {
    var n := c as int;
    n == 0x20 || 0x09 <= n <= 0x0D || 0x1C <= n <= 0x1F || n == 0x85 || n == 0xA0
    || n == 0x1680 || 0x2000 <= n <= 0x200A || n == 0x2028 || n == 0x2029
    || n == 0x202F || n == 0x205F || n == 0x3000
  }

  predicate NoSpace(s: string) { forall i :: 0 <= i < |s| ==> !IsSpace(s[i]) }

  predicate AllDigits(s: string) { forall i :: 0 <= i < |s| ==> IsDigit(s[i]) }

  /** Python's `str(n)` for a natural number. */
  function NatStr(n: nat): (s: string)
    ensures |s| >= 1 && AllDigits(s)
  {
    if n < 10 then [DigitChar(n)] else NatStr(n / 10) + [DigitChar(n % 10)]
  }

  /** Python's `int(s)` for a non-empty string of ASCII digits. */
  function ParseDigits(s: string): (n: nat)
    requires AllDigits(s)
  {
    if s == [] then 0 else ParseDigits(s[..|s| - 1]) * 10 + DigitVal(s[|s| - 1])
  }

  /**
   * Python's `int(s)` on a token of word characters: decimal digits, with
   * single underscores allowed between two digits as separators.
   */
  predicate IntText(s: string) {
    s != [] && IsDigit(s[0]) && IsDigit(s[|s| - 1])
    && (forall i :: 0 <= i < |s| ==> IsDigit(s[i]) || s[i] == '_')
    && (forall i :: 0 < i < |s| - 1 && s[i] == '_' ==> IsDigit(s[i - 1]) && IsDigit(s[i + 1]))
  }

  /** The characters of `s` other than underscores. */
  function DropUnderscores(s: string): (d: string)
    ensures |d| <= |s|
    ensures (forall i :: 0 <= i < |s| ==> IsDigit(s[i]) || s[i] == '_') ==> AllDigits(d)
  {
    if s == [] then [] else (if s[0] == '_' then [] else [s[0]]) + DropUnderscores(s[1..])
  }

  /** The value `int(s)` gives for an accepted token: the separators are ignored. */
  function IntValue(s: string): (n: nat)
    requires IntText(s)
  {
    ParseDigits(DropUnderscores(s))
  }

  /** A plain run of digits is accepted by `int` and keeps its decimal value. */
  lemma {:induction false} DigitsIntText(s: string)
    requires s != [] && AllDigits(s)
    ensures IntText(s) && IntValue(s) == ParseDigits(s)
  {
    NoUnderscores(s);
  }

  lemma {:induction false} NoUnderscores(s: string)
    requires AllDigits(s)
    ensures DropUnderscores(s) == s
    decreases |s|
  {
    if s != [] {
      NoUnderscores(s[1..]);
      assert [s[0]] + s[1..] == s;
    }
  }

  lemma {:induction false} ParseNatStr(n: nat)
    ensures ParseDigits(NatStr(n)) == n
  {
    if n >= 10 {
      ParseNatStr(n / 10);
      var s := NatStr(n);
      assert s[..|s| - 1] == NatStr(n / 10);
    }
  }

  predicate StartsWith(s: string, prefix: string) {
    |prefix| <= |s| && s[..|prefix|] == prefix
  }

  /** Python's `sub in s`. */
  predicate Contains(s: string, sub: string)
    decreases |s|
  {
    StartsWith(s, sub) || (s != [] && Contains(s[1..], sub))
  }

  /** `s` without its leading whitespace. */
  function StripLeft(s: string): (r: string)
    ensures |r| <= |s| && r == s[|s| - |r|..]
    ensures r == [] || !IsSpace(r[0])
  {
    if s != [] && IsSpace(s[0]) then StripLeft(s[1..]) else s
  }

  /** `s` without its trailing whitespace. */
  function StripRight(s: string): (r: string)
    ensures |r| <= |s| && r == s[..|r|]
    ensures r == [] || !IsSpace(r[|r| - 1])
  {
    if s != [] && IsSpace(s[|s| - 1]) then StripRight(s[..|s| - 1]) else s
  }

  /** Python's `s.strip()`. */
  function Strip(s: string): (stripped: string) { StripRight(StripLeft(s)) }

  // ---------------------------------------------------------------------
  // str.split() : runs of whitespace separate words, empty words are dropped

  /** The leading word of `s` (empty when `s` starts with whitespace). */
  function Word(s: string): (w: string)
    ensures |w| <= |s| && w == s[..|w|] && NoSpace(w)
    ensures s != [] && !IsSpace(s[0]) ==> |w| > 0
    ensures |w| < |s| ==> IsSpace(s[|w|])
  {
    if s == [] || IsSpace(s[0]) then [] else [s[0]] + Word(s[1..])
  }

  /** Python's `s.split()` (which also ignores leading and trailing whitespace). */
  function Words(s: string): (ws: seq<string>)
    ensures forall i :: 0 <= i < |ws| ==> ws[i] != [] && NoSpace(ws[i])
    decreases |s|
  {
    if s == [] then []
    else if IsSpace(s[0]) then Words(s[1..])
    else var w := Word(s); [w] + Words(s[|w|..])
  }

  lemma {:induction false} WordOfSpaceFree(a: string, rest: string)
    requires NoSpace(a)
    requires rest == [] || IsSpace(rest[0])
    ensures Word(a + rest) == a
  {
    if a != [] {
      assert (a + rest)[1..] == a[1..] + rest;
      WordOfSpaceFree(a[1..], rest);
    }
  }

  lemma WordsOfSingle(b: string)
    requires b != [] && NoSpace(b)
    ensures Words(b) == [b]
  {
    WordOfSpaceFree(b, []);
    assert b + [] == b;
    assert b[|b|..] == [];
  }

  /** Splitting "a b" on whitespace gives back exactly the two tokens. */
  lemma WordsOfPair(a: string, b: string)
    requires a != [] && NoSpace(a) && b != [] && NoSpace(b)
    ensures Words(a + " " + b) == [a, b]
  {
    var tail := " " + b;
    var s := a + tail;
    assert a + " " + b == s;
    WordOfSpaceFree(a, tail);
    assert s[0] == a[0];
    assert Words(s) == [a] + Words(s[|a|..]);
    assert s[|a|..] == tail;
    assert tail[1..] == b;
    assert Words(tail) == Words(b);
    WordsOfSingle(b);
  }

  /** Splitting words joined by single spaces gives back the words. */
  lemma {:induction false} WordsJoin(ws: seq<string>)
    requires |ws| >= 1
    requires forall i :: 0 <= i < |ws| ==> ws[i] != [] && NoSpace(ws[i])
    ensures Words(Join(ws, ' ')) == ws
  {
    if |ws| == 1 {
      WordsOfSingle(ws[0]);
    } else {
      var rest := Join(ws[1..], ' ');
      var tail := [' '] + rest;
      var s := ws[0] + tail;
      assert Join(ws, ' ') == s;
      WordOfSpaceFree(ws[0], tail);
      assert s[0] == ws[0][0];
      assert Words(s) == [ws[0]] + Words(s[|ws[0]|..]);
      assert s[|ws[0]|..] == tail;
      assert tail[1..] == rest;
      assert Words(tail) == Words(rest);
      WordsJoin(ws[1..]);
      assert ws == [ws[0]] + ws[1..];
    }
  }

  // ---------------------------------------------------------------------
  // str.split(d) and d.join(parts) for a one-character separator

  function SplitFrom(s: string, d: char, cur: string): (parts: seq<string>)
    ensures |parts| >= 1
    decreases |s|
  {
    if s == [] then [cur]
    else if s[0] == d then [cur] + SplitFrom(s[1..], d, [])
    else SplitFrom(s[1..], d, cur + [s[0]])
  }

  /** Python's `s.split(d)`: never empty; "" gives [""]. */
  function Split(s: string, d: char): (parts: seq<string>) { SplitFrom(s, d, []) }

  /** Python's `d.join(parts)`. */
  function Join(parts: seq<string>, d: char): (joined: string) {
    if |parts| == 0 then []
    else if |parts| == 1 then parts[0]
    else parts[0] + [d] + Join(parts[1..], d)
  }

  lemma {:induction false} SplitFromPlain(p: string, d: char, cur: string, rest: string)
    requires d !in p
    ensures SplitFrom(p + rest, d, cur) == SplitFrom(rest, d, cur + p)
  {
    if p != [] {
      assert (p + rest)[0] == p[0];
      assert (p + rest)[1..] == p[1..] + rest;
      SplitFromPlain(p[1..], d, cur + [p[0]], rest);
      assert cur + [p[0]] + p[1..] == cur + p;
    } else {
      assert p + rest == rest;
      assert cur + p == cur;
    }
  }

  /** Splitting a join on its separator restores the parts, provided no part holds it. */
  lemma {:induction false} SplitJoin(parts: seq<string>, d: char)
    requires |parts| >= 1
    requires forall i :: 0 <= i < |parts| ==> d !in parts[i]
    ensures Split(Join(parts, d), d) == parts
  {
    if |parts| == 1 {
      SplitFromPlain(parts[0], d, [], []);
      assert parts[0] + [] == parts[0];
      assert [] + parts[0] == parts[0];
    } else {
      var rest := Join(parts[1..], d);
      assert Join(parts, d) == parts[0] + ([d] + rest);
      SplitFromPlain(parts[0], d, [], [d] + rest);
      assert [] + parts[0] == parts[0];
      assert ([d] + rest)[1..] == rest;
      SplitJoin(parts[1..], d);
      assert parts == [parts[0]] + parts[1..];
    }
  }

  /** Every character of a join is the separator or a character of some part. */
  lemma {:induction false} JoinChars(parts: seq<string>, d: char, ok: char -> bool)
    requires ok(d)
    requires forall i, k :: 0 <= i < |parts| && 0 <= k < |parts[i]| ==> ok(parts[i][k])
    ensures forall k :: 0 <= k < |Join(parts, d)| ==> ok(Join(parts, d)[k])
  {
    if |parts| > 1 {
      JoinChars(parts[1..], d, ok);
      var j := Join(parts, d);
      var p0, rest := parts[0], Join(parts[1..], d);
      assert j == p0 + [d] + rest;
      forall k | 0 <= k < |j| ensures ok(j[k]) {
        if k < |p0| {
          assert j[k] == parts[0][k];
        } else if k > |p0| {
          assert j[k] == rest[k - |p0| - 1];
        }
      }
    }
  }
}
