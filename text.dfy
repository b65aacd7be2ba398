/**
 * The JavaScript string operations the DR hub relies on: case mapping,
 * `includes`, `startsWith`, `endsWith`, the `\d+$` trailing-digit regexes,
 * `trim`, `split(',')` and string ordering.
 *
 * The recursive predicates walk the string by index so that Dafny can evaluate
 * them on literal strings in the concrete lemmas elsewhere in the model.
 */
module Text {

  predicate IsDigit(c: char) { '0' <= c <= '9' }

  predicate IsLowerAscii(c: char) { 'a' <= c <= 'z' }

  predicate IsUpperAscii(c: char) { 'A' <= c <= 'Z' }

  /**
   * The characters `String.prototype.trim`, `parseInt` and `parseFloat` skip:
   * the ECMAScript white space (tab, vertical tab, form feed, the byte-order
   * mark and every space separator) and the line terminators.
   */
  predicate IsWhitespace(c: char) {
    c == ' ' || c == '\t' || c == '\n' || c == '\r' || c == '\U{B}' || c == '\U{C}'
    || c == '\U{A0}' || c == '\U{FEFF}' || c == '\U{1680}' || '\U{2000}' <= c <= '\U{200A}'
    || c == '\U{2028}' || c == '\U{2029}' || c == '\U{202F}' || c == '\U{205F}' || c == '\U{3000}'
  }

  function UpperChar(c: char): (r: char)
    ensures !IsLowerAscii(r)
    ensures IsLowerAscii(c) || r == c
  {
    if IsLowerAscii(c) then (c as int - 32) as char else c
  }

  function LowerChar(c: char): (r: char)
    ensures !IsUpperAscii(r)
    ensures IsUpperAscii(c) || r == c
  {
    if IsUpperAscii(c) then (c as int + 32) as char else c
  }

  /** `toUpperCase`, restricted to ASCII letters. */
  function ToUpper(s: string): (r: string)
    ensures |r| == |s|
    ensures forall i :: 0 <= i < |s| ==> r[i] == UpperChar(s[i])
  {
    if s == [] then [] else [UpperChar(s[0])] + ToUpper(s[1..])
  }

  /** `toLowerCase`, restricted to ASCII letters. */
  function ToLower(s: string): (r: string)
    ensures |r| == |s|
    ensures forall i :: 0 <= i < |s| ==> r[i] == LowerChar(s[i])
  {
    if s == [] then [] else [LowerChar(s[0])] + ToLower(s[1..])
  }

  lemma ToUpperIdempotent(s: string)
    ensures ToUpper(ToUpper(s)) == ToUpper(s)
  {
    assert forall i :: 0 <= i < |s| ==> UpperChar(UpperChar(s[i])) == UpperChar(s[i]);
  }

  // ----- substring search -------------------------------------------------

  /** `t[j..]` occurs in `s` starting at index `i + j`. */
  predicate MatchAt(s: string, t: string, i: nat, j: nat)
    decreases |t| - j
  {
    if j >= |t| then true
    else if i + j >= |s| then false
    else if s[i + j] != t[j] then false
    else MatchAt(s, t, i, j + 1)
  }

  predicate ContainsFrom(s: string, t: string, i: nat)
    decreases |s| - i
  {
    if i + |t| > |s| then false
    else if MatchAt(s, t, i, 0) then true
    else ContainsFrom(s, t, i + 1)
  }

  /** `s.includes(t)`. */
  predicate Contains(s: string, t: string) { ContainsFrom(s, t, 0) }

  /** `s.startsWith(p)`, and the anchored regex `^p`. */
  predicate StartsWith(s: string, p: string) { |p| <= |s| && MatchAt(s, p, 0, 0) }

  /** `s.endsWith(p)`, and the anchored regex `p$`. */
  predicate EndsWith(s: string, p: string) { |p| <= |s| && MatchAt(s, p, |s| - |p|, 0) }

  lemma {:induction false} MatchAtIff(s: string, t: string, i: nat, j: nat)
    requires i + |t| <= |s| && j <= |t|
    ensures MatchAt(s, t, i, j) <==> s[i + j..i + |t|] == t[j..]
    decreases |t| - j
  {
    if j < |t| {
      MatchAtIff(s, t, i, j + 1);
      assert s[i + j..i + |t|] == [s[i + j]] + s[i + j + 1..i + |t|];
      assert t[j..] == [t[j]] + t[j + 1..];
    }
  }

  /** `t` occupies the window of `s` starting at `k`. */
  predicate WindowAt(s: string, t: string, k: nat) { k + |t| <= |s| && s[k..k + |t|] == t }

  lemma {:induction false} ContainsFromIff(s: string, t: string, i: nat)
    ensures ContainsFrom(s, t, i) <==> exists k: nat :: i <= k && WindowAt(s, t, k)
    decreases |s| - i
  {
    if i + |t| <= |s| {
      MatchAtIff(s, t, i, 0);
      ContainsFromIff(s, t, i + 1);
      if MatchAt(s, t, i, 0) {
        assert WindowAt(s, t, i);
      } else {
        assert !WindowAt(s, t, i);
      }
    } else {
      forall k: nat | i <= k ensures !WindowAt(s, t, k) { }
    }
  }

  /** `includes` means some window of `s` equals `t`. */
  lemma ContainsIff(s: string, t: string)
    ensures Contains(s, t) <==> exists k: nat :: WindowAt(s, t, k)
  {
    ContainsFromIff(s, t, 0);
  }

  lemma StartsWithIff(s: string, p: string)
    ensures StartsWith(s, p) <==> |p| <= |s| && s[..|p|] == p
  {
    if |p| <= |s| { MatchAtIff(s, p, 0, 0); }
  }

  lemma EndsWithIff(s: string, p: string)
    ensures EndsWith(s, p) <==> |p| <= |s| && s[|s| - |p|..] == p
  {
    if |p| <= |s| { MatchAtIff(s, p, |s| - |p|, 0); }
  }

  /** A string that ends with `p` contains `p`. */
  lemma EndsWithContains(s: string, p: string)
    requires EndsWith(s, p)
    ensures Contains(s, p)
  {
    EndsWithIff(s, p);
    ContainsIff(s, p);
    assert WindowAt(s, p, |s| - |p|);
  }

  /** No lower-case ASCII letter occurs in an upper-cased string, so a needle holding one never matches. */
  lemma UpperNeverContainsLower(s: string, t: string, j: nat)
    requires j < |t| && IsLowerAscii(t[j])
    ensures !Contains(ToUpper(s), t)
  {
    var u := ToUpper(s);
    ContainsIff(u, t);
    forall k: nat ensures !WindowAt(u, t, k) {
      if k + |t| <= |u| {
        assert u[k..k + |t|][j] == UpperChar(s[k + j]);
      }
    }
  }

  /** True iff `s` starts with one of `prefixes`: the alternation regex `^(A|B|...)`. */
  predicate StartsWithAny(s: string, prefixes: seq<string>)
  {
    if prefixes == [] then false
    else StartsWith(s, prefixes[0]) || StartsWithAny(s, prefixes[1..])
  }

  /** True iff `s` contains one of `needles`: the unanchored alternation regex `A|B|...`. */
  predicate ContainsAny(s: string, needles: seq<string>)
  {
    if needles == [] then false
    else Contains(s, needles[0]) || ContainsAny(s, needles[1..])
  }

  lemma {:induction false} ContainsAnyIff(s: string, needles: seq<string>)
    ensures ContainsAny(s, needles) <==> exists i :: 0 <= i < |needles| && Contains(s, needles[i])
  {
    if needles != [] {
      ContainsAnyIff(s, needles[1..]);
      assert forall i :: 1 <= i < |needles| ==> needles[i] == needles[1..][i - 1];
    }
  }

  lemma {:induction false} StartsWithAnyIff(s: string, prefixes: seq<string>)
    ensures StartsWithAny(s, prefixes) <==> exists i :: 0 <= i < |prefixes| && StartsWith(s, prefixes[i])
  {
    if prefixes != [] {
      StartsWithAnyIff(s, prefixes[1..]);
      assert forall i :: 1 <= i < |prefixes| ==> prefixes[i] == prefixes[1..][i - 1];
    }
  }

  // ----- trailing digits (`/\d+$/`) ---------------------------------------

  function TrailingDigitCount(s: string): (n: nat)
    ensures n <= |s|
    ensures forall i :: |s| - n <= i < |s| ==> IsDigit(s[i])
    ensures n < |s| ==> !IsDigit(s[|s| - n - 1])
  {
    if s != [] && IsDigit(s[|s| - 1]) then 1 + TrailingDigitCount(s[..|s| - 1]) else 0
  }

  /** `s.match(/\d+$/)?.[0]`, with "" for no match. */
  function TrailingDigits(s: string): string { s[|s| - TrailingDigitCount(s)..] }

  /** `s.replace(/\d+$/, '')`. */
  function StripTrailingDigits(s: string): string { s[..|s| - TrailingDigitCount(s)] }

  /** Stripping and matching the trailing digits split the string in two. */
  lemma TrailingDigitsSplit(s: string)
    ensures StripTrailingDigits(s) + TrailingDigits(s) == s
    ensures forall c :: c in TrailingDigits(s) ==> IsDigit(c)
    ensures StripTrailingDigits(s) == [] || !IsDigit(StripTrailingDigits(s)[|StripTrailingDigits(s)| - 1])
  {
    var n := TrailingDigitCount(s);
    assert s[..|s| - n] + s[|s| - n..] == s;
    forall c | c in TrailingDigits(s) ensures IsDigit(c) {
      var k :| 0 <= k < |TrailingDigits(s)| && TrailingDigits(s)[k] == c;
      assert c == s[|s| - n + k];
    }
  }

  // ----- trim ---------------------------------------------------------------

  function TrimStart(s: string): (r: string)
    ensures |r| <= |s|
  {
    if s != [] && IsWhitespace(s[0]) then TrimStart(s[1..]) else s
  }

  /** `trimStart` removes a prefix of white space and stops at the first other character. */
  lemma {:induction false} TrimStartSpec(s: string)
    ensures TrimStart(s) == [] || !IsWhitespace(TrimStart(s)[0])
    ensures TrimStart(s) == s[|s| - |TrimStart(s)|..]
    ensures forall i :: 0 <= i < |s| - |TrimStart(s)| ==> IsWhitespace(s[i])
  {
    if s != [] && IsWhitespace(s[0]) {
      TrimStartSpec(s[1..]);
    }
  }

  function TrimEnd(s: string): (r: string)
    ensures r == [] || !IsWhitespace(r[|r| - 1])
    ensures |r| <= |s| && r == s[..|r|]
  {
    if s != [] && IsWhitespace(s[|s| - 1]) then TrimEnd(s[..|s| - 1]) else s
  }

  /** `String.prototype.trim`. */
  function Trim(s: string): string { TrimEnd(TrimStart(s)) }

  // ----- split / join -------------------------------------------------------

  /** `s.split(sep)` for a one-character separator: always at least one piece. */
  function Split(s: string, sep: char): (r: seq<string>)
    ensures |r| >= 1
    ensures forall i :: 0 <= i < |r| ==> sep !in r[i]
  {
    if s == [] then [""]
    else
      var rest := Split(s[1..], sep);
      if s[0] == sep then [""] + rest
      else [[s[0]] + rest[0]] + rest[1..]
  }

  /** `pieces.join(sep)`. */
  function Join(pieces: seq<string>, sep: char): string
    requires |pieces| >= 1
  {
    if |pieces| == 1 then pieces[0] else pieces[0] + [sep] + Join(pieces[1..], sep)
  }

  /** Splitting loses nothing: joining the pieces back gives the original string. */
  lemma {:induction false} JoinSplit(s: string, sep: char)
    ensures Join(Split(s, sep), sep) == s
  {
    if s != [] {
      JoinSplit(s[1..], sep);
      var rest := Split(s[1..], sep);
      if s[0] != sep {
        var r := Split(s, sep);
        assert r[0] == [s[0]] + rest[0];
        if |rest| == 1 {
          assert Join(r, sep) == [s[0]] + rest[0];
        } else {
          assert r[1..] == rest[1..];
          assert Join(r, sep) == [s[0]] + rest[0] + [sep] + Join(rest[1..], sep);
        }
      }
    }
  }

  // ----- ordering -----------------------------------------------------------

  /** Lexicographic comparison in code-point order, standing in for the default `Array.prototype.sort` and `localeCompare`; -1, 0 or 1. */
  function StrCompare(a: string, b: string): (r: int)
    ensures -1 <= r <= 1
  {
    if a == [] && b == [] then 0
    else if a == [] then -1
    else if b == [] then 1
    else if a[0] < b[0] then -1
    else if a[0] > b[0] then 1
    else StrCompare(a[1..], b[1..])
  }

  lemma {:induction false} StrCompareAntisymmetric(a: string, b: string)
    ensures StrCompare(a, b) == -StrCompare(b, a)
    ensures StrCompare(a, b) == 0 <==> a == b
  {
    if a != [] && b != [] && a[0] == b[0] {
      StrCompareAntisymmetric(a[1..], b[1..]);
      if a[1..] == b[1..] { assert a == [a[0]] + a[1..] && b == [b[0]] + b[1..]; }
    }
  }

  lemma {:induction false} StrCompareTransitive(a: string, b: string, c: string)
    requires StrCompare(a, b) <= 0 && StrCompare(b, c) <= 0
    ensures StrCompare(a, c) <= 0
  {
    if a != [] && b != [] && c != [] && a[0] == b[0] && b[0] == c[0] {
      StrCompareTransitive(a[1..], b[1..], c[1..]);
    }
  }
}
