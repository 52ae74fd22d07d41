/**
  String operations the components rely on, with JavaScript's semantics:
  the whitespace set shared by `String.prototype.trim` and the regular-expression
  class `\s`, trimming, the `replace(/\s+/g, ' ')` collapse, `Array.prototype.join(' ')`,
  UTF-16 length and decimal rendering of integers.
 */
module Text {

  import opened Wrappers
  import opened Seqs

  /** ECMA-262 WhiteSpace (section 12.2: TAB, VT, FF, ZWNBSP and every space separator of
      category Zs) and LineTerminator (section 12.3: LF, CR, LS, PS). `trim`, `\s` and
      `\S` all use exactly this set. */
  predicate IsWhitespace(c: char) {
    || c == '\t' || c == '\U{B}' || c == '\U{C}' || c == '\U{FEFF}'
    || c == ' ' || c == '\U{A0}' || c == '\U{1680}' || ('\U{2000}' <= c <= '\U{200A}')
    || c == '\U{202F}' || c == '\U{205F}' || c == '\U{3000}'
    || c == '\n' || c == '\r' || c == '\U{2028}' || c == '\U{2029}'
  }

  predicate NoWhitespace(s: string) {
    forall i :: 0 <= i < |s| ==> !IsWhitespace(s[i])
  }

  predicate AllWhitespace(s: string) {
    forall i :: 0 <= i < |s| ==> IsWhitespace(s[i])
  }

  /** A class token: non-empty and free of whitespace. */
  predicate IsWord(w: string) {
    w != [] && NoWhitespace(w)
  }

  predicate AllWords(ws: seq<string>) {
    forall i :: 0 <= i < |ws| ==> IsWord(ws[i])
  }

  /** No leading or trailing whitespace. */
  predicate Trimmed(t: string) {
    t != [] ==> !IsWhitespace(t[0]) && !IsWhitespace(t[|t| - 1])
  }

  /** The shape `trim().replace(/\s+/g, ' ')` produces: trimmed, every whitespace
      character a plain space, and no two whitespace characters side by side. */
  predicate IsNormal(r: string) {
    && Trimmed(r)
    && (forall i :: 0 <= i < |r| && IsWhitespace(r[i]) ==> r[i] == ' ')
    && (forall i :: 0 <= i < |r| - 1 ==> !(IsWhitespace(r[i]) && IsWhitespace(r[i + 1])))
  }

  /** Drops the maximal whitespace prefix. */
  function TrimStart(s: string): (r: string)
    ensures |r| <= |s|
    ensures r == [] || !IsWhitespace(r[0])
  {
    if s != [] && IsWhitespace(s[0]) then TrimStart(s[1..]) else s
  }

  /** `trimStart` keeps a suffix and drops only whitespace. */
  lemma {:induction false} TrimStartSlice(s: string)
    ensures TrimStart(s) == s[|s| - |TrimStart(s)|..]
    ensures AllWhitespace(s[..|s| - |TrimStart(s)|])
  {
    if s != [] && IsWhitespace(s[0]) {
      TrimStartSlice(s[1..]);
    }
  }

  /** Drops the maximal whitespace suffix. */
  function TrimEnd(s: string): (r: string)
    ensures |r| <= |s|
    ensures r == [] || !IsWhitespace(r[|r| - 1])
  {
    if s != [] && IsWhitespace(s[|s| - 1]) then TrimEnd(s[..|s| - 1]) else s
  }

  /** `trimEnd` keeps a prefix and drops only whitespace. */
  lemma {:induction false} TrimEndSlice(s: string)
    ensures TrimEnd(s) == s[..|TrimEnd(s)|]
    ensures AllWhitespace(s[|TrimEnd(s)|..])
  {
    if s != [] && IsWhitespace(s[|s| - 1]) {
      TrimEndSlice(s[..|s| - 1]);
    }
  }

  /** `String.prototype.trim`. */
  function Trim(s: string): (r: string)
    ensures Trimmed(r)
  {
    var t := TrimStart(s);
    TrimEndSlice(t);
    TrimEnd(t)
  }

  /** `trim` removes whitespace from the two ends and nothing else: the result is a
      slice of the input with only whitespace around it. */
  lemma TrimIsSlice(s: string)
    ensures exists a, b | 0 <= a <= b <= |s| ::
      Trim(s) == s[a..b] && AllWhitespace(s[..a]) && AllWhitespace(s[b..])
  {
    var t := TrimStart(s);
    var r := TrimEnd(t);
    TrimStartSlice(s);
    TrimEndSlice(t);
    assert r == s[|s| - |t|..|s| - |t| + |r|];
    assert s[|s| - |t| + |r|..] == t[|r|..];
  }

  /** Index of the first whitespace character, or `|s|` when there is none. */
  function FirstWhitespace(s: string): (k: nat)
    ensures k <= |s| && NoWhitespace(s[..k])
    ensures k < |s| ==> IsWhitespace(s[k])
  {
    if s == [] || IsWhitespace(s[0]) then 0
    else
      var k := 1 + FirstWhitespace(s[1..]);
      assert s[..k] == [s[0]] + s[1..][..k - 1];
      k
  }

  /** The maximal runs of non-whitespace characters, in order: the class tokens of `s`. */
  function Words(s: string): (w: seq<string>)
    ensures AllWords(w)
    decreases |s|
  {
    if s == [] then []
    else if IsWhitespace(s[0]) then Words(s[1..])
    else
      var k := FirstWhitespace(s);
      [s[..k]] + Words(s[k..])
  }

  /** `s.replace(/\s+/g, ' ')`: every maximal whitespace run becomes one space; the
      non-whitespace runs are copied between them. */
  function CollapseWhitespace(s: string): string
    decreases |s|
  {
    if s == [] then []
    else if IsWhitespace(s[0]) then " " + CollapseWhitespace(TrimStart(s))
    else
      var k := FirstWhitespace(s);
      s[..k] + CollapseWhitespace(s[k..])
  }

  /** `s.trim().replace(/\s+/g, ' ')`. */
  function Normalize(s: string): string {
    CollapseWhitespace(Trim(s))
  }

  /** `ws.join(' ')`. */
  function JoinSpace(ws: seq<string>): string {
    if |ws| == 0 then ""
    else if |ws| == 1 then ws[0]
    else ws[0] + " " + JoinSpace(ws[1..])
  }

  // ---------------------------------------------------------------- lemmas on Words

  lemma {:induction false} FirstWhitespaceOfWord(w: string, y: string)
    requires IsWord(w)
    requires y == [] || IsWhitespace(y[0])
    ensures FirstWhitespace(w + y) == |w|
  {
    if |w| > 1 {
      assert (w + y)[1..] == w[1..] + y;
      FirstWhitespaceOfWord(w[1..], y);
    } else {
      assert (w + y)[1..] == y;
    }
  }

  /** A word followed by nothing or by whitespace is the first token. */
  lemma WordsOfWordThen(w: string, y: string)
    requires IsWord(w)
    requires y == [] || IsWhitespace(y[0])
    ensures Words(w + y) == [w] + Words(y)
  {
    FirstWhitespaceOfWord(w, y);
    assert (w + y)[..|w|] == w;
    assert (w + y)[|w|..] == y;
  }

  /** A whitespace character separates tokens: neither side's tokens merge. */
  lemma {:induction false} WordsSplit(a: string, c: char, b: string)
    requires IsWhitespace(c)
    ensures Words(a + [c] + b) == Words(a) + Words(b)
    decreases |a|
  {
    var s := a + [c] + b;
    if a == [] {
      assert s[1..] == b;
    } else if IsWhitespace(a[0]) {
      assert s[1..] == a[1..] + [c] + b;
      WordsSplit(a[1..], c, b);
    } else {
      var k := FirstWhitespace(a);
      if k < |a| {
        assert FirstWhitespace(s) == k by {
          FirstWhitespaceOfWord(a[..k], a[k..] + [c] + b);
          assert a[..k] + (a[k..] + [c] + b) == s;
        }
        assert s[..k] == a[..k];
        assert s[k..] == a[k..] + [c] + b;
        WordsSplit(a[k..], c, b);
      } else {
        assert a[..k] == a;
        WordsOfWordThen(a, [c] + b);
        assert a + ([c] + b) == s;
        assert ([c] + b)[1..] == b;
        assert a[k..] == [];
      }
    }
  }

  lemma WordsSnoc(a: string, c: char)
    requires IsWhitespace(c)
    ensures Words(a + [c]) == Words(a)
  {
    WordsSplit(a, c, []);
    assert a + [c] + [] == a + [c];
  }

  lemma {:induction false} WordsTrimStart(s: string)
    ensures Words(TrimStart(s)) == Words(s)
    decreases |s|
  {
    if s != [] && IsWhitespace(s[0]) {
      WordsTrimStart(s[1..]);
    }
  }

  lemma {:induction false} WordsTrimEnd(s: string)
    ensures Words(TrimEnd(s)) == Words(s)
    decreases |s|
  {
    if s != [] && IsWhitespace(s[|s| - 1]) {
      WordsTrimEnd(s[..|s| - 1]);
      WordsSnoc(s[..|s| - 1], s[|s| - 1]);
      assert s[..|s| - 1] + [s[|s| - 1]] == s;
    }
  }

  lemma WordsTrim(s: string)
    ensures Words(Trim(s)) == Words(s)
  {
    WordsTrimStart(s);
    WordsTrimEnd(TrimStart(s));
  }

  // ---------------------------------------------------------------- lemmas on JoinSpace

  lemma {:induction false} JoinSpaceCons(w: string, ws: seq<string>)
    requires ws != []
    ensures JoinSpace([w] + ws) == w + " " + JoinSpace(ws)
  {
    assert ([w] + ws)[1..] == ws;
  }

  lemma {:induction false} JoinSpaceShape(ws: seq<string>)
    requires AllWords(ws)
    ensures ws != [] ==> JoinSpace(ws) != [] && JoinSpace(ws)[0] == ws[0][0]
    ensures ws != [] ==> JoinSpace(ws)[|JoinSpace(ws)| - 1] == ws[|ws| - 1][|ws[|ws| - 1]| - 1]
  {
    if |ws| > 1 {
      JoinSpaceShape(ws[1..]);
    }
  }

  lemma {:induction false} JoinSpaceIsNormal(ws: seq<string>)
    requires AllWords(ws)
    ensures IsNormal(JoinSpace(ws))
  {
    if |ws| > 1 {
      JoinSpaceIsNormal(ws[1..]);
      JoinSpaceShape(ws[1..]);
      JoinSpaceShape(ws);
      var w, t := ws[0], JoinSpace(ws[1..]);
      var r := w + " " + t;
      assert r == JoinSpace(ws);
      forall i | 0 <= i < |r| && IsWhitespace(r[i]) ensures r[i] == ' ' {
        if i > |w| { assert r[i] == t[i - |w| - 1]; }
      }
      forall i | 0 <= i < |r| - 1 ensures !(IsWhitespace(r[i]) && IsWhitespace(r[i + 1])) {
        if i > |w| { assert r[i] == t[i - |w| - 1] && r[i + 1] == t[i - |w|]; }
        else if i == |w| { assert r[i + 1] == t[0]; }
        else if i == |w| - 1 { assert r[i] == w[|w| - 1]; }
      }
    }
  }

  lemma {:induction false} WordsOfJoinSpace(ws: seq<string>)
    requires AllWords(ws)
    ensures Words(JoinSpace(ws)) == ws
  {
    if |ws| == 1 {
      WordsOfWordThen(ws[0], []);
      assert ws[0] + [] == ws[0];
    } else if |ws| > 1 {
      WordsOfJoinSpace(ws[1..]);
      var t := JoinSpace(ws[1..]);
      WordsOfWordThen(ws[0], " " + t);
      assert ws[0] + " " + t == ws[0] + (" " + t);
      assert (" " + t)[1..] == t;
      assert [ws[0]] + ws[1..] == ws;
    }
  }

  // ---------------------------------------------------------------- normalisation

  /** After the first token of a trimmed string with several tokens comes a whitespace
      run, then a trimmed remainder. */
  lemma SplitFirstWord(t: string) returns (k: nat, u: string)
    requires Trimmed(t) && t != []
    requires FirstWhitespace(t) < |t|
    ensures k == FirstWhitespace(t) && u == TrimStart(t[k..])
    ensures u != [] && Trimmed(u) && |u| < |t|
  {
    k := FirstWhitespace(t);
    var rest := t[k..];
    u := TrimStart(rest);
    TrimStartSlice(rest);
    assert rest[|rest| - 1] == t[|t| - 1];
    assert u[|u| - 1] == rest[|rest| - 1];
  }

  lemma CollapseStep(t: string, k: nat, u: string)
    requires t != [] && !IsWhitespace(t[0])
    requires k == FirstWhitespace(t) && k < |t| && u == TrimStart(t[k..])
    ensures CollapseWhitespace(t) == t[..k] + " " + CollapseWhitespace(u)
  {
    CollapseUnfoldWord(t);
    CollapseUnfoldSpace(t[k..]);
    var w, x := t[..k], CollapseWhitespace(u);
    assert CollapseWhitespace(t) == w + (" " + x);
    AppendAssoc(w, " ", x);
  }

  lemma CollapseUnfoldWord(t: string)
    requires t != [] && !IsWhitespace(t[0])
    ensures CollapseWhitespace(t) == t[..FirstWhitespace(t)] + CollapseWhitespace(t[FirstWhitespace(t)..])
  {
  }

  lemma CollapseUnfoldSpace(r: string)
    requires r != [] && IsWhitespace(r[0])
    ensures CollapseWhitespace(r) == " " + CollapseWhitespace(TrimStart(r))
  {
  }

  lemma WordsStep(t: string, k: nat, u: string)
    requires t != [] && !IsWhitespace(t[0])
    requires k == FirstWhitespace(t) && k < |t| && u == TrimStart(t[k..])
    ensures Words(t) == [t[..k]] + Words(u)
  {
    WordsTrimStart(t[k..]);
  }

  lemma WordsNonEmpty(u: string)
    requires u != [] && !IsWhitespace(u[0])
    ensures Words(u) != []
  {
  }

  /** On a trimmed string the collapse is the join of its tokens. */
  lemma {:induction false} CollapseTrimmedIsJoin(t: string)
    requires Trimmed(t)
    ensures CollapseWhitespace(t) == JoinSpace(Words(t))
    decreases |t|
  {
    if t != [] {
      if FirstWhitespace(t) == |t| {
        assert t[..|t|] == t && t[|t|..] == [];
      } else {
        var k, u := SplitFirstWord(t);
        CollapseTrimmedIsJoin(u);
        CollapseStep(t, k, u);
        WordsStep(t, k, u);
        WordsNonEmpty(u);
        JoinSpaceCons(t[..k], Words(u));
      }
    }
  }

  /** `trim().replace(/\s+/g, ' ')` is exactly the tokens of the input joined by single
      spaces. */
  lemma NormalizeIsJoinOfWords(s: string)
    ensures Normalize(s) == JoinSpace(Words(s))
  {
    CollapseTrimmedIsJoin(Trim(s));
    WordsTrim(s);
  }

  /** The normalised string is well shaped and keeps every token, in order. */
  lemma NormalizeProperties(s: string)
    ensures IsNormal(Normalize(s))
    ensures Words(Normalize(s)) == Words(s)
  {
    NormalizeIsJoinOfWords(s);
    JoinSpaceIsNormal(Words(s));
    WordsOfJoinSpace(Words(s));
  }

  lemma NormalizeIdempotent(s: string)
    ensures Normalize(Normalize(s)) == Normalize(s)
  {
    NormalizeProperties(s);
    NormalizeIsJoinOfWords(Normalize(s));
    NormalizeIsJoinOfWords(s);
  }

  /** The tokens of `a + " " + b`: a space-separated template never fuses two slots. */
  lemma WordsJoin2(a: string, b: string)
    ensures Words(a + " " + b) == Words(a) + Words(b)
  {
    WordsSplit(a, ' ', b);
    assert a + " " + b == a + [' '] + b;
  }

  // ---------------------------------------------------------------- UTF-16 length

  /** JavaScript's `length`: UTF-16 code units, two for a code point above U+FFFF. */
  function Utf16Length(s: string): (n: nat)
    ensures |s| <= n <= 2 * |s|
  {
    if s == [] then 0 else (if s[0] as int > 0xFFFF then 2 else 1) + Utf16Length(s[1..])
  }

  // ---------------------------------------------------------------- decimal integers

  predicate IsDigit(c: char) {
    48 <= c as int <= 57
  }

  /** Decimal digits without redundant leading zeros. */
  predicate IsCanonicalDigits(s: string) {
    && s != []
    && (forall i :: 0 <= i < |s| ==> IsDigit(s[i]))
    && (|s| > 1 ==> s[0] != '0')
  }

  function DigitChar(d: nat): (c: char)
    requires d < 10
    ensures IsDigit(c) && c as int - 48 == d
  {
    (48 + d) as char
  }

  /** JavaScript's decimal rendering of a non-negative integer. */
  function NatToString(n: nat): (s: string)
    ensures IsCanonicalDigits(s)
  {
    if n < 10 then [DigitChar(n)]
    else
      var p := NatToString(n / 10);
      assert p[0] != '0' || |p| == 1;
      p + [DigitChar(n % 10)]
  }

  /** JavaScript's decimal rendering of an integer (`${n}` of a safe integer). */
  function IntToString(i: int): string {
    if i < 0 then "-" + NatToString(-i) else NatToString(i)
  }

  /** The value of a digit string. */
  function DigitsValue(s: string): nat
    requires forall i :: 0 <= i < |s| ==> IsDigit(s[i])
  {
    if s == [] then 0
    else
      assert IsDigit(s[|s| - 1]);
      10 * DigitsValue(s[..|s| - 1]) + (s[|s| - 1] as int - 48)
  }

  /** Reads back an integer written by IntToString. */
  function ParseInt(s: string): Option<int> {
    if |s| > 1 && s[0] == '-' && IsCanonicalDigits(s[1..]) && s[1..] != "0" then
      var v := -(DigitsValue(s[1..]) as int); Some(v)
    else if IsCanonicalDigits(s) then Some(DigitsValue(s))
    else None
  }

  lemma {:induction false} NatToStringRoundTrip(n: nat)
    ensures DigitsValue(NatToString(n)) == n
  {
    if n >= 10 {
      NatToStringRoundTrip(n / 10);
      var s := NatToString(n);
      assert s[..|s| - 1] == NatToString(n / 10);
    }
  }

  lemma IntToStringRoundTrip(i: int)
    ensures ParseInt(IntToString(i)) == Some(i)
  {
    if i < 0 {
      NatToStringRoundTrip(-i);
      var s := IntToString(i);
      assert s[1..] == NatToString(-i);
    } else {
      NatToStringRoundTrip(i);
      assert IntToString(i)[0] != '-';
    }
  }

  /** Decimal renderings never contain whitespace, so they can sit inside a class token. */
  lemma IntToStringNoWhitespace(i: int)
    ensures NoWhitespace(IntToString(i))
  {
    var s := IntToString(i);
    forall j | 0 <= j < |s| ensures !IsWhitespace(s[j]) {
      if i < 0 && j > 0 { assert s[j] == NatToString(-i)[j - 1]; }
    }
  }

  // ---------------------------------------------------------------- ordering

  /** Lexicographic order by code point: `a` sorts strictly before `b`. This is the order
      `localeCompare` gives on the ISO-8601 timestamps the components compare. */
  predicate LexLess(a: string, b: string) {
    if a == [] then b != []
    else if b == [] then false
    else if a[0] != b[0] then a[0] < b[0]
    else LexLess(a[1..], b[1..])
  }

  lemma {:induction false} LexLessIrreflexive(a: string)
    ensures !LexLess(a, a)
  {
    if a != [] { LexLessIrreflexive(a[1..]); }
  }

  /** Two different strings are ordered one way or the other, and never both ways. */
  lemma {:induction false} LexLessTotal(a: string, b: string)
    ensures a != b ==> LexLess(a, b) || LexLess(b, a)
    ensures !(LexLess(a, b) && LexLess(b, a))
  {
    if a != [] && b != [] && a[0] == b[0] {
      LexLessTotal(a[1..], b[1..]);
      if a != b { assert a == [a[0]] + a[1..] && b == [b[0]] + b[1..]; }
    }
  }

  lemma {:induction false} LexLessTransitive(a: string, b: string, c: string)
    requires LexLess(a, b) && LexLess(b, c)
    ensures LexLess(a, c)
  {
    if a != [] && a[0] == b[0] && b[0] == c[0] {
      LexLessTransitive(a[1..], b[1..], c[1..]);
    }
  }
}
