/** String helpers shared by every part of the model: ASCII character classes,
    the `String.replace(/…/g, …)` replace-all the personaliser uses, JavaScript's
    `<=` on strings, and fixed-width / shortest decimal digit strings. */
module Text {

  datatype Option<+T> = None | Some(value: T)

  /** JavaScript `o || fallback` on an optional string: an absent or empty
      string falls back. */
  function Or(o: Option<string>, fallback: string): (r: string)
    ensures (o.Some? && o.value != "") ==> r == o.value
    ensures (o.None? || o.value == "") ==> r == fallback
  {
    if o.Some? && o.value != "" then o.value else fallback
  }

  // ---------------------------------------------------------------- characters

  predicate IsDigit(c: char) { '0' <= c <= '9' }

  /** JavaScript's `\s` restricted to ASCII (space, tab, LF, VT, FF, CR). */
  predicate IsSpace(c: char) { c == ' ' || c == '\t' || c == '\n' || c == '\U{B}' || c == '\U{C}' || c == '\r' }

  predicate AllDigits(s: string) { forall i :: 0 <= i < |s| ==> IsDigit(s[i]) }

  function LowerChar(c: char): char { if 'A' <= c <= 'Z' then (c as int + 32) as char else c }

  /** `toLowerCase` on ASCII letters; every other character is kept. */
  function Lower(s: string): (r: string)
    ensures |r| == |s|
    ensures forall i :: 0 <= i < |s| ==> r[i] == LowerChar(s[i])
  {
    if s == [] then [] else [LowerChar(s[0])] + Lower(s[1..])
  }

  // ---------------------------------------------------------------- filtering

  /** `s.replace(/\D/g, '')`: the digits of `s`, in order. */
  function OnlyDigits(s: string): (r: string)
    ensures AllDigits(r)
    ensures |r| <= |s|
  {
    if s == [] then []
    else if IsDigit(s[0]) then [s[0]] + OnlyDigits(s[1..])
    else OnlyDigits(s[1..])
  }

  /** A string of digits is kept as it is. */
  lemma {:induction false} OnlyDigitsKeepsDigits(s: string)
    requires AllDigits(s)
    ensures OnlyDigits(s) == s
  {
    if s != [] {
      OnlyDigitsKeepsDigits(s[1..]);
      assert s == [s[0]] + s[1..];
    }
  }

  /** `s.replace(/\s/g, '')`. */
  function RemoveSpaces(s: string): (r: string)
    ensures forall i :: 0 <= i < |r| ==> !IsSpace(r[i])
    ensures (forall i :: 0 <= i < |s| ==> !IsSpace(s[i])) ==> r == s
  {
    if s == [] then []
    else if IsSpace(s[0]) then RemoveSpaces(s[1..])
    else [s[0]] + RemoveSpaces(s[1..])
  }

  lemma {:induction false} RemoveSpacesConcat(a: string, b: string)
    ensures RemoveSpaces(a + b) == RemoveSpaces(a) + RemoveSpaces(b)
  {
    if a != [] {
      assert (a + b)[0] == a[0];
      assert (a + b)[1..] == a[1..] + b;
      RemoveSpacesConcat(a[1..], b);
    } else {
      assert a + b == b;
    }
  }

  // ---------------------------------------------------------------- searching

  /** `s.includes(sub)`. */
  predicate Contains(s: string, sub: string)
    decreases |s|
  {
    sub <= s || (s != [] && Contains(s[1..], sub))
  }

  lemma {:induction false} ContainsEmpty(s: string)
    ensures Contains(s, "")
  {
  }

  /** `Contains` agrees with the textbook definition "some window equals `sub`". */
  lemma {:induction false} ContainsAt(s: string, sub: string, i: nat)
    requires i + |sub| <= |s| && s[i..i + |sub|] == sub
    ensures Contains(s, sub)
  {
    if i > 0 {
      assert s[1..][i - 1..i - 1 + |sub|] == s[i..i + |sub|];
      ContainsAt(s[1..], sub, i - 1);
    } else {
      assert s[..|sub|] == sub;
    }
  }

  // ---------------------------------------------------------------- replace-all

  /** `s.replace(/pat/g, rep)` for a literal pattern: scan left to right,
      replacing each non-overlapping occurrence. */
  function ReplaceAll(s: string, pat: string, rep: string): string
    requires |pat| > 0
    decreases |s|
  {
    if s == [] then []
    else if pat <= s then rep + ReplaceAll(s[|pat|..], pat, rep)
    else [s[0]] + ReplaceAll(s[1..], pat, rep)
  }

  /** Text without the pattern is left as it is. */
  lemma {:induction false} ReplaceAllNoMatch(s: string, pat: string, rep: string)
    requires |pat| > 0 && !Contains(s, pat)
    ensures ReplaceAll(s, pat, rep) == s
    decreases |s|
  {
    if s != [] {
      ReplaceAllNoMatch(s[1..], pat, rep);
    }
  }

  /** `parts` joined with `sep` between consecutive elements. */
  function Join(parts: seq<string>, sep: string): string
  {
    if |parts| == 0 then []
    else if |parts| == 1 then parts[0]
    else parts[0] + sep + Join(parts[1..], sep)
  }

  /** A pattern whose first character occurs nowhere else in it (true of
      `[NAME]`, `[PHONE]` and `[FILTER_TYPE]`): no occurrence can start inside
      text that precedes another occurrence. */
  predicate FirstCharUnique(pat: string)
  {
    |pat| > 0 && forall k :: 0 < k < |pat| ==> pat[k] != pat[0]
  }

  lemma {:induction false} ReplaceAllAfterClean(p: string, pat: string, rep: string, rest: string)
    requires FirstCharUnique(pat)
    requires !Contains(p, pat)
    ensures ReplaceAll(p + pat + rest, pat, rep) == p + rep + ReplaceAll(rest, pat, rep)
    decreases |p|
  {
    if p == [] {
      assert p + pat + rest == pat + rest;
      ReplaceAllAtPattern(pat, rep, rest);
    } else {
      ReplaceAllKeepsFirst(p, pat, rep, rest);
      ReplaceAllAfterClean(p[1..], pat, rep, rest);
      var tail := ReplaceAll(rest, pat, rep);
      calc {
        ReplaceAll(p + pat + rest, pat, rep);
        [p[0]] + (p[1..] + rep + tail);
        { assert p == [p[0]] + p[1..]; }
        p + rep + tail;
      }
    }
  }

  /** An occurrence at the front is replaced and the scan goes on after it. */
  lemma ReplaceAllAtPattern(pat: string, rep: string, rest: string)
    requires |pat| > 0
    ensures ReplaceAll(pat + rest, pat, rep) == rep + ReplaceAll(rest, pat, rep)
  {
    var s := pat + rest;
    assert pat <= s;
    ReplaceAllStep(s, pat, rep);
    assert s[|pat|..] == rest;
  }

  /** Before an occurrence, a character of pattern-free text is kept as it
      is. */
  lemma ReplaceAllKeepsFirst(p: string, pat: string, rep: string, rest: string)
    requires FirstCharUnique(pat)
    requires !Contains(p, pat) && p != []
    ensures ReplaceAll(p + pat + rest, pat, rep) == [p[0]] + ReplaceAll(p[1..] + pat + rest, pat, rep)
    ensures !Contains(p[1..], pat)
  {
    var s := p + pat + rest;
    NoMatchBeforePattern(p, pat, rest);
    ReplaceAllStep(s, pat, rep);
    assert s[1..] == p[1..] + pat + rest;
  }

  /** One step of the scan: a match at the front is replaced, otherwise the
      first character is kept. */
  lemma ReplaceAllStep(s: string, pat: string, rep: string)
    requires |pat| > 0 && s != []
    ensures pat <= s ==> ReplaceAll(s, pat, rep) == rep + ReplaceAll(s[|pat|..], pat, rep)
    ensures !(pat <= s) ==> ReplaceAll(s, pat, rep) == [s[0]] + ReplaceAll(s[1..], pat, rep)
  {
  }

  /** Text free of the pattern, followed by the pattern, does not start with
      it: the pattern's first character would reappear inside it. */
  lemma NoMatchBeforePattern(p: string, pat: string, rest: string)
    requires FirstCharUnique(pat)
    requires !Contains(p, pat) && p != []
    ensures !(pat <= p + pat + rest) && !Contains(p[1..], pat)
  {
    var s := p + pat + rest;
    if |p| >= |pat| {
      assert p[..|pat|] == s[..|pat|];
    } else {
      assert s[|p|] == pat[0];
    }
  }

  /** Replace-all really replaces every occurrence: text made of pieces that do
      not contain the pattern, joined by the pattern, becomes the same pieces
      joined by the replacement. */
  lemma {:induction false} ReplaceAllJoin(parts: seq<string>, pat: string, rep: string)
    requires FirstCharUnique(pat)
    requires forall i :: 0 <= i < |parts| ==> !Contains(parts[i], pat)
    ensures ReplaceAll(Join(parts, pat), pat, rep) == Join(parts, rep)
  {
    if |parts| > 1 {
      ReplaceAllJoin(parts[1..], pat, rep);
      ReplaceAllAfterClean(parts[0], pat, rep, Join(parts[1..], pat));
    } else if |parts| == 1 {
      ReplaceAllNoMatch(parts[0], pat, rep);
    }
  }

  // ---------------------------------------------------------------- string order

  /** JavaScript's `a <= b` on strings: code-unit lexicographic order, a proper
      prefix being smaller. */
  predicate LexLe(a: string, b: string)
  {
    if a == [] then true
    else if b == [] then false
    else if a[0] != b[0] then a[0] < b[0]
    else LexLe(a[1..], b[1..])
  }

  lemma {:induction false} LexLeConcat(a1: string, a2: string, b1: string, b2: string)
    requires |a1| == |b1|
    ensures LexLe(a1 + a2, b1 + b2) == if a1 == b1 then LexLe(a2, b2) else LexLe(a1, b1)
    decreases |a1|
  {
    if a1 != [] {
      assert (a1 + a2)[1..] == a1[1..] + a2;
      assert (b1 + b2)[1..] == b1[1..] + b2;
      LexLeConcat(a1[1..], a2, b1[1..], b2);
      if a1[0] == b1[0] && a1[1..] == b1[1..] {
        assert a1 == b1;
      }
    } else {
      assert a1 + a2 == a2 && b1 + b2 == b2;
    }
  }

  // ---------------------------------------------------------------- decimal digits

  function DigitChar(d: nat): (c: char)
    requires d < 10
    ensures IsDigit(c)
  {
    (48 + d) as char
  }

  function DigitValue(c: char): int { c as int - 48 }

  function Pow10(w: nat): (r: nat)
    ensures r >= 1
  {
    if w == 0 then 1 else 10 * Pow10(w - 1)
  }

  /** The value of a string of decimal digits. */
  function DigitsValue(s: string): (v: nat)
    requires AllDigits(s)
    ensures v < Pow10(|s|)
  {
    if s == [] then 0 else DigitsValue(s[..|s| - 1]) * 10 + DigitValue(s[|s| - 1])
  }

  /** `n` written with exactly `width` digits, zero-padded on the left. */
  function PadDigits(n: nat, width: nat): (r: string)
    ensures |r| == width && AllDigits(r)
  {
    if width == 0 then [] else PadDigits(n / 10, width - 1) + [DigitChar(n % 10)]
  }

  lemma {:induction false} PadDigitsValue(n: nat, width: nat)
    requires n < Pow10(width)
    ensures DigitsValue(PadDigits(n, width)) == n
  {
    if width > 0 {
      SplitLastDigit(n, width);
      PadDigitsValue(n / 10, width - 1);
      var s := PadDigits(n, width);
      assert s[..|s| - 1] == PadDigits(n / 10, width - 1);
    }
  }

  /** Dropping the last digit of a `width`-digit number leaves a number of
      `width - 1` digits. */
  lemma SplitLastDigit(n: nat, width: nat)
    requires 0 < width && n < Pow10(width)
    ensures n / 10 < Pow10(width - 1)
    ensures n == n / 10 * 10 + DigitValue(DigitChar(n % 10))
  {
  }

  lemma {:induction false} DigitsValuePad(s: string)
    requires AllDigits(s)
    ensures PadDigits(DigitsValue(s), |s|) == s
  {
    if s != [] {
      var init, last := s[..|s| - 1], s[|s| - 1];
      DigitsValuePad(init);
      LastDigit(s);
      assert s == init + [last];
    }
  }

  /** The last digit of a digit string is its value modulo ten, the rest its
      value divided by ten. */
  lemma LastDigit(s: string)
    requires AllDigits(s) && s != []
    ensures DigitsValue(s) / 10 == DigitsValue(s[..|s| - 1])
    ensures DigitChar(DigitsValue(s) % 10) == s[|s| - 1]
  {
    var d := DigitValue(s[|s| - 1]);
    assert 0 <= d < 10;
    assert DigitsValue(s) == DigitsValue(s[..|s| - 1]) * 10 + d;
  }

  /** Zero-padded decimal strings of one width sort as their values do. */
  lemma {:induction false} PadDigitsOrder(n: nat, m: nat, width: nat)
    requires n < Pow10(width) && m < Pow10(width)
    ensures LexLe(PadDigits(n, width), PadDigits(m, width)) <==> n <= m
  {
    if width > 0 {
      var hn, hm := PadDigits(n / 10, width - 1), PadDigits(m / 10, width - 1);
      SplitLastDigit(n, width);
      SplitLastDigit(m, width);
      LexLeConcat(hn, [DigitChar(n % 10)], hm, [DigitChar(m % 10)]);
      PadDigitsOrder(n / 10, m / 10, width - 1);
      if hn == hm {
        PadDigitsValue(n / 10, width - 1);
        PadDigitsValue(m / 10, width - 1);
      }
      DivTenOrder(n, m);
    }
  }

  /** Numbers compare as their leading digits do, and on equal leading digits
      as their last digits do. */
  lemma DivTenOrder(n: nat, m: nat)
    ensures n / 10 < m / 10 ==> n < m
    ensures n / 10 > m / 10 ==> n > m
    ensures n / 10 == m / 10 ==> (n <= m <==> LexLe([DigitChar(n % 10)], [DigitChar(m % 10)]))
  {
  }

  /** `String(n)` for a natural number: the shortest decimal representation. */
  function DecimalString(n: nat): (r: string)
    ensures |r| > 0 && AllDigits(r)
  {
    if n < 10 then [DigitChar(n)] else DecimalString(n / 10) + [DigitChar(n % 10)]
  }

  lemma {:induction false} DecimalStringValue(n: nat)
    ensures DigitsValue(DecimalString(n)) == n
    ensures n > 0 ==> DecimalString(n)[0] != '0'
  {
    if n >= 10 {
      DecimalStringValue(n / 10);
      var s := DecimalString(n);
      assert s[..|s| - 1] == DecimalString(n / 10);
      assert s[0] == DecimalString(n / 10)[0];
    }
  }
}
