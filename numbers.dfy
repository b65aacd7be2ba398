/**
 * JavaScript number parsing as the DR hub uses it: `parseFloat`, `parseInt`,
 * the `parsePrice` and `parseVolume` helpers of the scrape service,
 * `Math.round`, and `Array.prototype.slice(0, n)`.
 *
 * Numbers are exact reals; `NaN` is `None` and every `|| 0` guard is written out.
 */
module Numbers {
  import opened Wrappers
  import opened Text

  predicate AllDigits(s: string) { forall i :: 0 <= i < |s| ==> IsDigit(s[i]) }

  /** The digit's value; only applied to digits. */
  function DigitValue(c: char): int
  {
    c as int - '0' as int
  }

  /** The value of a run of decimal digits, most significant first. */
  function DigitsValue(s: string): int
  {
    if s == [] then 0 else DigitValue(s[0]) * Pow10(|s| - 1) + DigitsValue(s[1..])
  }

  function Pow10(k: nat): (r: nat)
    ensures r >= 1
  {
    if k == 0 then 1 else 10 * Pow10(k - 1)
  }

  /** Length of the run of digits at the front of `s`. */
  function LeadingDigits(s: string): (n: nat)
    ensures n <= |s|
  {
    if s != [] && IsDigit(s[0]) then 1 + LeadingDigits(s[1..]) else 0
  }

  /** The leading run is all digits and stops at the first non-digit. */
  lemma {:induction false} LeadingDigitsSpec(s: string)
    ensures AllDigits(s[..LeadingDigits(s)])
    ensures LeadingDigits(s) < |s| ==> !IsDigit(s[LeadingDigits(s)])
  {
    if s != [] && IsDigit(s[0]) {
      LeadingDigitsSpec(s[1..]);
      assert s[..LeadingDigits(s)] == [s[0]] + s[1..][..LeadingDigits(s[1..])];
    }
  }

  /** A digit run followed by something that is not a digit is read up to its end. */
  lemma {:induction false} LeadingDigitsAppend(a: string, b: string)
    requires AllDigits(a)
    requires b == [] || !IsDigit(b[0])
    ensures LeadingDigits(a + b) == |a|
  {
    if a != [] {
      assert (a + b)[1..] == a[1..] + b;
      LeadingDigitsAppend(a[1..], b);
    } else {
      assert a + b == b;
    }
  }

  /**
   * The unsigned decimal literal at the front of `s`: digits, optionally a
   * point and more digits, with at least one digit overall; `None` is `NaN`.
   */
  function UnsignedPrefix(s: string): Option<real>
  {
    var i := LeadingDigits(s);
    var whole := DigitsValue(s[..i]) as real;
    if i < |s| && s[i] == '.' then
      var rest := s[i + 1..];
      var f := LeadingDigits(rest);
      if i == 0 && f == 0 then None
      else Some(whole + DigitsValue(rest[..f]) as real / Pow10(f) as real)
    else if i == 0 then None
    else Some(whole)
  }

  /**
   * `parseFloat`: leading white space is skipped, an optional sign is read,
   * then the longest decimal prefix. Exponents and `Infinity` are not read.
   */
  function ParseFloat(s: string): Option<real>
  {
    SignedPrefix(TrimStart(s))
  }

  /** An optional sign, then the unsigned literal. */
  function SignedPrefix(t: string): Option<real>
  {
    if t != [] && t[0] == '-' then Negate(UnsignedPrefix(t[1..]))
    else if t != [] && t[0] == '+' then UnsignedPrefix(t[1..])
    else UnsignedPrefix(t)
  }

  function Negate(v: Option<real>): Option<real>
  {
    match v
    case None => None
    case Some(x) => Some(-x)
  }

  /** The value written as `ip.fp` in decimal. */
  function DecimalValue(ip: string, fp: string): real
    requires AllDigits(ip) && AllDigits(fp)
  {
    DigitsValue(ip) as real + DigitsValue(fp) as real / Pow10(|fp|) as real
  }

  /** White space is only skipped at the front. */
  lemma TrimStartNoop(s: string)
    requires s == [] || !IsWhitespace(s[0])
    ensures TrimStart(s) == s
  {
  }

  lemma UnsignedPrefixDecimal(ip: string, fp: string, rest: string)
    requires AllDigits(ip) && AllDigits(fp) && |ip| + |fp| > 0
    requires rest == [] || !IsDigit(rest[0])
    ensures UnsignedPrefix(ip + "." + fp + rest) == Some(DecimalValue(ip, fp))
  {
    var s := ip + "." + fp + rest;
    assert s == ip + ("." + fp + rest);
    LeadingDigitsAppend(ip, "." + fp + rest);
    assert s[..|ip|] == ip;
    assert s[|ip|] == '.';
    var tail := s[|ip| + 1..];
    assert tail == fp + rest;
    LeadingDigitsAppend(fp, rest);
    assert tail[..|fp|] == fp;
  }

  /** A literal `ip.fp` followed by anything that does not continue it parses to its decimal value. */
  lemma ParseFloatDecimal(ip: string, fp: string, rest: string)
    requires AllDigits(ip) && AllDigits(fp) && |ip| + |fp| > 0
    requires rest == [] || !IsDigit(rest[0])
    ensures ParseFloat(ip + "." + fp + rest) == Some(DecimalValue(ip, fp))
  {
    var s := ip + "." + fp + rest;
    assert s[0] == (if ip == [] then '.' else ip[0]);
    TrimStartNoop(s);
    UnsignedPrefixDecimal(ip, fp, rest);
  }

  lemma UnsignedPrefixInteger(ip: string, rest: string)
    requires AllDigits(ip) && ip != []
    requires rest == [] || (!IsDigit(rest[0]) && rest[0] != '.')
    ensures UnsignedPrefix(ip + rest) == Some(DigitsValue(ip) as real)
  {
    var s := ip + rest;
    LeadingDigitsAppend(ip, rest);
    assert s[..|ip|] == ip;
    assert |ip| < |s| ==> s[|ip|] == rest[0];
  }

  /** A run of digits followed by anything but a digit or a point parses to its integer value. */
  lemma ParseFloatInteger(ip: string, rest: string)
    requires AllDigits(ip) && ip != []
    requires rest == [] || (!IsDigit(rest[0]) && rest[0] != '.')
    ensures ParseFloat(ip + rest) == Some(DigitsValue(ip) as real)
  {
    var s := ip + rest;
    assert s[0] == ip[0];
    TrimStartNoop(s);
    UnsignedPrefixInteger(ip, rest);
  }

  /** A leading minus sign negates the value that follows. */
  lemma ParseFloatNegative(s: string)
    requires s == [] || (!IsWhitespace(s[0]) && s[0] != '-' && s[0] != '+')
    ensures ParseFloat("-" + s) == Negate(ParseFloat(s))
  {
    assert ("-" + s)[1..] == s;
  }

  /** `s` with every character other than a digit, `.` or `-` removed: `replace(/[^0-9.-]/g, '')`. */
  function KeepNumeric(s: string): (r: string)
    ensures |r| <= |s|
  {
    if s == [] then []
    else if IsDigit(s[0]) || s[0] == '.' || s[0] == '-' then [s[0]] + KeepNumeric(s[1..])
    else KeepNumeric(s[1..])
  }

  /** Only digits, points and minus signs survive. */
  lemma {:induction false} KeepNumericChars(s: string)
    ensures forall c :: c in KeepNumeric(s) ==> IsDigit(c) || c == '.' || c == '-'
  {
    if s != [] { KeepNumericChars(s[1..]); }
  }

  /** One character is kept exactly when it is a digit, a point or a minus sign. */
  lemma KeepNumericOne(c: char)
    ensures KeepNumeric([c]) == if IsDigit(c) || c == '.' || c == '-' then [c] else []
  {
    assert [c][1..] == [];
  }

  /** Filtering works character by character: the kept characters of `a + b` are those of `a` followed by those of `b`, in order. */
  lemma {:induction false} KeepNumericAppend(a: string, b: string)
    ensures KeepNumeric(a + b) == KeepNumeric(a) + KeepNumeric(b)
  {
    if a == [] {
      assert a + b == b;
    } else {
      assert (a + b)[0] == a[0];
      assert (a + b)[1..] == a[1..] + b;
      KeepNumericAppend(a[1..], b);
    }
  }

  /** Removing the noise characters a second time changes nothing. */
  lemma {:induction false} KeepNumericIdempotent(s: string)
    ensures KeepNumeric(KeepNumeric(s)) == KeepNumeric(s)
  {
    if s != [] {
      KeepNumericIdempotent(s[1..]);
      if IsDigit(s[0]) || s[0] == '.' || s[0] == '-' {
        assert ([s[0]] + KeepNumeric(s[1..]))[1..] == KeepNumeric(s[1..]);
      }
    }
  }

  /** `parsePrice`: 0 for a missing string, else `parseFloat` of the numeric characters, or 0 for `NaN`. */
  function ParsePrice(s: string): real
  {
    if s == "" then 0.0 else ParseFloat(KeepNumeric(s)).GetOr(0.0)
  }

  /** Only digits, points and minus signs reach `parseFloat`, so everything else in the input is ignored. */
  lemma ParsePriceIgnoresNoise(s: string)
    ensures ParsePrice(s) == ParsePrice(KeepNumeric(s))
  {
    KeepNumericIdempotent(s);
    if s != "" && KeepNumeric(s) == "" {
      assert ParseFloat("") == None;
    }
  }

  /** A string of digits, points and minus signs is left as it is. */
  lemma {:induction false} KeepNumericNoop(s: string)
    requires forall i :: 0 <= i < |s| ==> IsDigit(s[i]) || s[i] == '.' || s[i] == '-'
    ensures KeepNumeric(s) == s
  {
    if s != [] {
      KeepNumericNoop(s[1..]);
      assert s == [s[0]] + s[1..];
    }
  }

  /** A plain decimal price `ip.fp` is read exactly. */
  lemma ParsePriceDecimal(ip: string, fp: string)
    requires AllDigits(ip) && AllDigits(fp) && |ip| + |fp| > 0
    ensures ParsePrice(ip + "." + fp) == DecimalValue(ip, fp)
  {
    var s := ip + "." + fp;
    assert s == ip + "." + fp + "";
    forall i | 0 <= i < |s| ensures IsDigit(s[i]) || s[i] == '.' || s[i] == '-' {
      if i > |ip| { assert s[i] == fp[i - |ip| - 1]; }
    }
    KeepNumericNoop(s);
    ParseFloatDecimal(ip, fp, "");
  }

  /** `str.replace(/,/g, '')`. */
  function RemoveCommas(s: string): (r: string)
    ensures ',' !in r
    ensures |r| <= |s|
  {
    if s == [] then []
    else if s[0] == ',' then RemoveCommas(s[1..])
    else [s[0]] + RemoveCommas(s[1..])
  }

  /** One character is dropped exactly when it is a comma. */
  lemma RemoveCommasOne(c: char)
    ensures RemoveCommas([c]) == if c == ',' then [] else [c]
  {
    assert [c][1..] == [];
  }

  /** Commas are dropped character by character: the rest of `a + b` is the rest of `a` followed by the rest of `b`, in order. */
  lemma {:induction false} RemoveCommasAppend(a: string, b: string)
    ensures RemoveCommas(a + b) == RemoveCommas(a) + RemoveCommas(b)
  {
    if a == [] {
      assert a + b == b;
    } else {
      assert (a + b)[0] == a[0];
      assert (a + b)[1..] == a[1..] + b;
      RemoveCommasAppend(a[1..], b);
    }
  }

  /** A single comma between two comma-free parts is dropped and the parts are joined. */
  lemma RemoveOneComma(a: string, b: string)
    requires ',' !in a && ',' !in b
    ensures RemoveCommas(a + [','] + b) == a + b
  {
    var ac := a + [','];
    calc {
      RemoveCommas(ac + b);
      { RemoveCommasAppend(ac, b); }
      RemoveCommas(ac) + RemoveCommas(b);
      { RemoveCommasAppend(a, [',']); RemoveCommasOne(','); }
      RemoveCommas(a) + RemoveCommas(b);
      { RemoveCommasNoop(a); RemoveCommasNoop(b); }
      a + b;
    }
  }

  /** A count written with one thousands comma and a unit letter reads as the count without the comma, scaled. */
  lemma ParseVolumeGrouped(a: string, b: string, u: char)
    requires AllDigits(a) && AllDigits(b) && a != []
    requires u in "MmKkBb"
    ensures ParseVolume(a + [','] + (b + [u])) == DigitsValue(a + b) as real *
      (if u == 'M' || u == 'm' then 1000000.0 else if u == 'K' || u == 'k' then 1000.0 else 1000000000.0)
  {
    var s := a + [','] + (b + [u]);
    assert ',' !in b + [u];
    RemoveOneComma(a, b + [u]);
    ParseVolumeIgnoresCommas(s);
    assert a + (b + [u]) == (a + b) + [u];
    assert AllDigits(a + b) by {
      forall i | 0 <= i < |a + b| ensures IsDigit((a + b)[i]) {
        if i >= |a| { assert (a + b)[i] == b[i - |a|]; }
      }
    }
    ParseVolumeUnit(a + b, u);
  }

  /** `parseVolume("1,250K")` is one and a quarter million: the comma is dropped and the unit applied. */
  lemma ParseVolumeThousands()
    ensures ParseVolume("1,250K") == 1250000.0
  {
    var a, b := "1", "250";
    ParseVolumeGrouped(a, b, 'K');
    GroupedThousands();
    DigitsThousands();
  }

  /** How `1,250K` is put together. */
  lemma GroupedThousands()
    ensures "1" + [','] + ("250" + ['K']) == "1,250K"
    ensures "1" + "250" == "1250"
  {
  }

  lemma DigitsThousands()
    ensures DigitsValue("1250") == 1250
  {
    var s := "1250";
    assert s[1..] == "250" && s[1..][1..] == "50" && s[1..][1..][1..] == "0";
    assert DigitsValue("0") == 0;
    assert DigitsValue("50") == 50;
    assert DigitsValue("250") == 250;
  }

  lemma {:induction false} RemoveCommasNoop(s: string)
    requires ',' !in s
    ensures RemoveCommas(s) == s
  {
    if s != [] {
      assert ',' !in s[1..] by { assert forall i :: 0 <= i < |s[1..]| ==> s[1..][i] == s[i + 1]; }
      RemoveCommasNoop(s[1..]);
      assert s == [s[0]] + s[1..];
    }
  }

  /** The multiplier `parseVolume` applies: the first of M/m, K/k, B/b found anywhere in the string. */
  function VolumeScale(str: string): (k: real)
    ensures k == 1000000.0 || k == 1000.0 || k == 1000000000.0 || k == 1.0
    ensures k == 1000000.0 <==> 'M' in str || 'm' in str
    ensures k == 1000.0 <==> ('K' in str || 'k' in str) && 'M' !in str && 'm' !in str
    ensures k == 1000000000.0 <==> ('B' in str || 'b' in str) && 'M' !in str && 'm' !in str && 'K' !in str && 'k' !in str
  {
    if 'M' in str || 'm' in str then 1000000.0
    else if 'K' in str || 'k' in str then 1000.0
    else if 'B' in str || 'b' in str then 1000000000.0
    else 1.0
  }

  /** `parseVolume`: commas dropped, `parseFloat` (0 for `NaN`), then scaled by a unit letter. */
  function ParseVolume(s: string): real
  {
    if s == "" then 0.0 else ScaledVolume(RemoveCommas(s))
  }

  /** The comma-free string read as a number (0 for `NaN`) times its unit. */
  function ScaledVolume(str: string): real
  {
    ParseFloat(str).GetOr(0.0) * VolumeScale(str)
  }

  /** Commas are ignored wherever they stand. */
  lemma ParseVolumeIgnoresCommas(s: string)
    ensures ParseVolume(s) == ParseVolume(RemoveCommas(s))
  {
    var str := RemoveCommas(s);
    if s == "" {
    } else if str == "" {
      assert ScaledVolume(str) == 0.0 by { assert ParseFloat("") == None; }
    } else {
      RemoveCommasNoop(str);
    }
  }

  /** A count followed by one unit letter is scaled by that unit. */
  lemma ParseVolumeUnit(ip: string, u: char)
    requires AllDigits(ip) && ip != []
    requires u in "MmKkBb"
    ensures ParseVolume(ip + [u]) == DigitsValue(ip) as real *
      (if u == 'M' || u == 'm' then 1000000.0 else if u == 'K' || u == 'k' then 1000.0 else 1000000000.0)
  {
    var s := ip + [u];
    forall c | c in s ensures c == u || IsDigit(c) { }
    RemoveCommasNoop(s);
    ParseFloatInteger(ip, [u]);
  }

  predicate IsHexDigit(c: char) { IsDigit(c) || 'a' <= c <= 'f' || 'A' <= c <= 'F' }

  predicate AllHexDigits(s: string) { forall i :: 0 <= i < |s| ==> IsHexDigit(s[i]) }

  /** The hexadecimal digit's value; only applied to hexadecimal digits. */
  function HexDigitValue(c: char): int
  {
    if IsDigit(c) then DigitValue(c)
    else if 'a' <= c <= 'f' then c as int - 'a' as int + 10
    else c as int - 'A' as int + 10
  }

  /** The value of a run of hexadecimal digits, most significant first. */
  function HexValue(s: string): int
  {
    if s == [] then 0 else HexValue(s[..|s| - 1]) * 16 + HexDigitValue(s[|s| - 1])
  }

  /** Length of the run of hexadecimal digits at the front of `s`. */
  function LeadingHexDigits(s: string): (n: nat)
    ensures n <= |s|
  {
    if s != [] && IsHexDigit(s[0]) then 1 + LeadingHexDigits(s[1..]) else 0
  }

  lemma {:induction false} LeadingHexDigitsAll(s: string)
    requires AllHexDigits(s)
    ensures LeadingHexDigits(s) == |s|
  {
    if s != [] {
      LeadingHexDigitsAll(s[1..]);
    }
  }

  /** `0x` or `0X`: with no radix given, `parseInt` reads hexadecimal after it. */
  predicate HexPrefixed(t: string) { |t| >= 2 && t[0] == '0' && (t[1] == 'x' || t[1] == 'X') }

  /** The unsigned integer at the front of `t`, hexadecimal after `0x`; `None` is `NaN`. */
  function UnsignedInt(t: string): Option<int>
  {
    if HexPrefixed(t) then
      var n := LeadingHexDigits(t[2..]);
      if n == 0 then None else Some(HexValue(t[2..][..n]))
    else
      var n := LeadingDigits(t);
      if n == 0 then None else Some(DigitsValue(t[..n]))
  }

  /**
   * `parseInt(s)` with no radix: white space, an optional sign, then a
   * hexadecimal literal after `0x`/`0X` or the leading decimal digits.
   */
  function ParseInt(s: string): Option<int>
  {
    var t := TrimStart(s);
    var neg := t != [] && t[0] == '-';
    var body := if t != [] && (t[0] == '-' || t[0] == '+') then t[1..] else t;
    match UnsignedInt(body)
    case None => None
    case Some(m) => Some(if neg then -m else m)
  }

  /** `parseInt(q) || 10`: a missing, non-numeric or zero limit becomes 10. */
  function Limit(q: string): (n: int)
    ensures n != 0
    ensures ParseInt(q).None? ==> n == 10
    ensures ParseInt(q).Some? && ParseInt(q).value != 0 ==> n == ParseInt(q).value
  {
    match ParseInt(q)
    case None => 10
    case Some(v) => if v == 0 then 10 else v
  }

  /** A positive whole number of digits is taken as the limit. */
  lemma LimitOfDigits(ip: string)
    requires AllDigits(ip) && ip != [] && DigitsValue(ip) != 0
    ensures Limit(ip) == DigitsValue(ip)
  {
    assert !HexPrefixed(ip) by { assert |ip| >= 2 ==> IsDigit(ip[1]); }
    TrimStartNoop(ip);
    LeadingDigitsAppend(ip, []);
    assert ip + [] == ip;
    assert ip[..|ip|] == ip;
  }

  /** A `0x`/`0X` limit is read in hexadecimal: `limit=0x5` cuts at 5, `limit=0x0` falls back to 10. */
  lemma LimitOfHex(x: char, h: string)
    requires x == 'x' || x == 'X'
    requires AllHexDigits(h) && h != []
    ensures Limit(['0', x] + h) == if HexValue(h) == 0 then 10 else HexValue(h)
  {
    var s := ['0', x] + h;
    TrimStartNoop(s);
    assert HexPrefixed(s);
    assert s[2..] == h;
    LeadingHexDigitsAll(h);
    assert h[..|h|] == h;
  }

  /** `Math.round`: the nearest integer, halves rounded up. */
  function Round(x: real): (r: int)
    ensures (r as real) - 0.5 <= x < (r as real) + 0.5
  {
    (x + 0.5).Floor
  }

  /** `xs.slice(0, n)`: a negative `n` counts back from the end. */
  function SlicePrefix<T>(xs: seq<T>, n: int): (r: seq<T>)
    ensures r <= xs
    ensures n >= 0 ==> |r| == if n < |xs| then n else |xs|
    ensures n < 0 ==> |r| == if |xs| + n > 0 then |xs| + n else 0
  {
    if n >= 0 then (if n < |xs| then xs[..n] else xs)
    else if |xs| + n > 0 then xs[..|xs| + n] else []
  }
}
