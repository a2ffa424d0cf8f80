/** Definitions shared by every endpoint: an Option type, the JavaScript string
    operations the handlers rely on (trim, `\s`, ASCII case mapping, `parseInt`,
    `split`/`join`) and the two origin allow-lists used for CORS checks. */
module Common {

  datatype Option<+T> = None | Some(value: T)

  // ---------------------------------------------------------------------------
  // Characters

  /** The characters JavaScript's `String.prototype.trim` and the regex class `\s`
      treat as white space (WhiteSpace and LineTerminator of ECMA-262). */
  predicate IsSpace(c: char) {
    || c == ' ' || c == '\t' || c == '\n' || c == '\r'
    || c == '\U{000B}' || c == '\U{000C}' || c == '\U{00A0}' || c == '\U{1680}'
    || ('\U{2000}' <= c <= '\U{200A}')
    || c == '\U{2028}' || c == '\U{2029}' || c == '\U{202F}' || c == '\U{205F}'
    || c == '\U{3000}' || c == '\U{FEFF}'
  }

  predicate IsDigit(c: char) { '0' <= c <= '9' }

  predicate IsAsciiLetter(c: char) { 'A' <= c <= 'Z' || 'a' <= c <= 'z' }

  predicate IsHexDigit(c: char) { IsDigit(c) || 'a' <= c <= 'f' || 'A' <= c <= 'F' }

  function DigitValue(c: char): (v: nat)
    requires IsHexDigit(c)
    ensures v < 16
    ensures IsDigit(c) ==> v < 10
  {
    if IsDigit(c) then c as int - '0' as int
    else if 'a' <= c <= 'f' then c as int - 'a' as int + 10
    else c as int - 'A' as int + 10
  }

  function UpperChar(c: char): (u: char)
    ensures 'a' <= c <= 'z' ==> 'A' <= u <= 'Z'
    ensures !('a' <= c <= 'z') ==> u == c
  {
    if 'a' <= c <= 'z' then (c as int - 32) as char else c
  }

  function LowerChar(c: char): (l: char)
    ensures 'A' <= c <= 'Z' ==> 'a' <= l <= 'z'
    ensures !('A' <= c <= 'Z') ==> l == c
  {
    if 'A' <= c <= 'Z' then (c as int + 32) as char else c
  }

  // ---------------------------------------------------------------------------
  // Strings

  predicate IsDigits(s: string) { forall i :: 0 <= i < |s| ==> IsDigit(s[i]) }

  predicate StartsWith(s: string, prefix: string) {
    |prefix| <= |s| && s[..|prefix|] == prefix
  }

  /** `s.includes(sub)`. */
  predicate Contains(s: string, sub: string) {
    StartsWith(s, sub) || (|s| > 0 && Contains(s[1..], sub))
  }

  /** An occurrence of `sub` at any position makes `s` contain it. */
  lemma {:induction false} ContainsAt(s: string, sub: string, i: nat)
    requires i + |sub| <= |s| && s[i..i + |sub|] == sub
    ensures Contains(s, sub)
  {
    if i > 0 {
      assert s[1..][i - 1..i - 1 + |sub|] == s[i..i + |sub|];
      ContainsAt(s[1..], sub, i - 1);
    } else {
      assert s[..|sub|] == s[0..|sub|];
    }
  }

  /** `String.prototype.toUpperCase`, for ASCII letters. */
  function ToUpper(s: string): (r: string)
    ensures |r| == |s|
  {
    if s == [] then [] else [UpperChar(s[0])] + ToUpper(s[1..])
  }

  /** Upper-casing works character by character. */
  lemma {:induction false} ToUpperAt(s: string)
    ensures forall i :: 0 <= i < |s| ==> ToUpper(s)[i] == UpperChar(s[i])
  {
    if s != [] {
      ToUpperAt(s[1..]);
      assert forall i :: 1 <= i < |s| ==> ToUpper(s)[i] == ToUpper(s[1..])[i - 1];
    }
  }

  /** `String.prototype.toLowerCase`, for ASCII letters. */
  function ToLower(s: string): (r: string)
    ensures |r| == |s|
  {
    if s == [] then [] else [LowerChar(s[0])] + ToLower(s[1..])
  }

  /** Lower-casing works character by character. */
  lemma {:induction false} ToLowerAt(s: string)
    ensures forall i :: 0 <= i < |s| ==> ToLower(s)[i] == LowerChar(s[i])
  {
    if s != [] {
      ToLowerAt(s[1..]);
      assert forall i :: 1 <= i < |s| ==> ToLower(s)[i] == ToLower(s[1..])[i - 1];
    }
  }

  /** A string with no upper-case letter is its own lower-case form. */
  lemma LowerCaseUnchanged(s: string)
    requires forall i :: 0 <= i < |s| ==> !('A' <= s[i] <= 'Z')
    ensures ToLower(s) == s
  {
    ToLowerAt(s);
    assert forall i :: 0 <= i < |s| ==> ToLower(s)[i] == s[i];
  }

  /** `String.prototype.trimStart`: drops leading white space. */
  function TrimStart(s: string): (r: string)
    ensures |r| <= |s|
  {
    if |s| > 0 && IsSpace(s[0]) then TrimStart(s[1..]) else s
  }

  /** `trimStart` keeps a suffix of `s` and drops only white space before it. */
  lemma {:induction false} TrimStartDrops(s: string)
    ensures var r := TrimStart(s);
            && r == s[|s| - |r|..]
            && (forall i :: 0 <= i < |s| - |r| ==> IsSpace(s[i]))
            && (r == [] || !IsSpace(r[0]))
  {
    if |s| > 0 && IsSpace(s[0]) {
      TrimStartDrops(s[1..]);
      var r := TrimStart(s);
      assert s[1..][|s| - 1 - |r|..] == s[|s| - |r|..];
      forall i | 0 <= i < |s| - |r| ensures IsSpace(s[i]) {
        if i > 0 { assert s[i] == s[1..][i - 1]; }
      }
    }
  }

  /** `String.prototype.trimEnd`: drops trailing white space. */
  function TrimEnd(s: string): (r: string)
    ensures |r| <= |s|
  {
    if |s| > 0 && IsSpace(s[|s| - 1]) then TrimEnd(s[..|s| - 1]) else s
  }

  /** `trimEnd` keeps a prefix of `s` and drops only white space after it. */
  lemma {:induction false} TrimEndDrops(s: string)
    ensures var r := TrimEnd(s);
            && r == s[..|r|]
            && (forall i :: |r| <= i < |s| ==> IsSpace(s[i]))
            && (r == [] || !IsSpace(r[|r| - 1]))
  {
    if |s| > 0 && IsSpace(s[|s| - 1]) {
      var p := s[..|s| - 1];
      TrimEndDrops(p);
      var r := TrimEnd(s);
      assert p[..|r|] == s[..|r|];
      forall i | |r| <= i < |s| ensures IsSpace(s[i]) {
        if i < |s| - 1 { assert s[i] == p[i]; }
      }
    }
  }

  /** `String.prototype.trim`: drops leading and trailing white space. */
  function Trim(s: string): (r: string)
    ensures r == [] || (!IsSpace(r[0]) && !IsSpace(r[|r| - 1]))
    ensures |r| <= |s|
  {
    TrimStartDrops(s);
    TrimEndDrops(TrimStart(s));
    var t := TrimStart(s);
    assert TrimEnd(t) != [] ==> TrimEnd(t)[0] == t[0];
    TrimEnd(t)
  }

  /** `s.replace(/\s+/g, '')` (and `/\s/g`): removes every white-space character. */
  function RemoveSpaces(s: string): (r: string)
    ensures |r| <= |s|
    ensures forall i :: 0 <= i < |r| ==> !IsSpace(r[i])
    ensures (forall i :: 0 <= i < |s| ==> !IsSpace(s[i])) ==> r == s
  {
    if s == [] then []
    else if IsSpace(s[0]) then RemoveSpaces(s[1..])
    else [s[0]] + RemoveSpaces(s[1..])
  }

  predicate IsLowerAscii(c: char) { 'a' <= c <= 'z' }

  /** A string with no white space and no lower-case ASCII letter. */
  predicate IsCompact(s: string) {
    forall i :: 0 <= i < |s| ==> !IsSpace(s[i]) && !IsLowerAscii(s[i])
  }

  /** `String(s).trim().toUpperCase().replace(/\s+/g, '')`, the first step of both
      flight-number normalisers. */
  function CompactUpper(s: string): string {
    RemoveSpaces(ToUpper(Trim(s)))
  }

  /** A string with no lower-case ASCII letter is its own upper-case form. */
  lemma UpperCaseUnchanged(s: string)
    requires forall i :: 0 <= i < |s| ==> !IsLowerAscii(s[i])
    ensures ToUpper(s) == s
  {
    ToUpperAt(s);
    assert forall i :: 0 <= i < |s| ==> ToUpper(s)[i] == s[i];
  }

  /** Removing white space brings in no lower-case letter. */
  lemma {:induction false} RemoveSpacesKeepsCase(s: string)
    requires forall i :: 0 <= i < |s| ==> !IsLowerAscii(s[i])
    ensures forall i :: 0 <= i < |RemoveSpaces(s)| ==> !IsLowerAscii(RemoveSpaces(s)[i])
  {
    if s != [] {
      RemoveSpacesKeepsCase(s[1..]);
      if !IsSpace(s[0]) {
        var r := [s[0]] + RemoveSpaces(s[1..]);
        assert forall i :: 1 <= i < |r| ==> r[i] == RemoveSpaces(s[1..])[i - 1];
      }
    }
  }

  /** The result of `CompactUpper` has no white space and no lower-case letter. */
  lemma CompactUpperIsCompact(s: string)
    ensures IsCompact(CompactUpper(s))
  {
    var u := ToUpper(Trim(s));
    ToUpperAt(Trim(s));
    assert forall i :: 0 <= i < |u| ==> !IsLowerAscii(u[i]);
    RemoveSpacesKeepsCase(u);
  }

  /** `CompactUpper` leaves a compact string as it is, so applying it twice is
      applying it once. */
  lemma CompactIsFixpoint(s: string)
    requires IsCompact(s)
    ensures CompactUpper(s) == s
  {
    assert TrimStart(s) == s;
    assert TrimEnd(s) == s;
    UpperCaseUnchanged(s);
  }

  /** `a || b` on strings: the first unless it is empty. The result is one of the
      operands, the first is passed over only when it is empty, and the result is
      empty only when both are. */
  function Or(a: string, b: string): (r: string)
    ensures r == a || r == b
    ensures r != a ==> a == ""
    ensures r == "" <==> a == "" && b == ""
  {
    if a != "" then a else b
  }

  /** `/^\d{1,4}$/.test(q)`. */
  predicate IsBareNumber(q: string) {
    1 <= |q| <= 4 && IsDigits(q)
  }

  /** The tail `\d{1,4}[A-Z]?$` of the flight-number patterns (letters of either
      case, as under the `i` flag). */
  predicate DigitsThenLetter(t: string) {
    || (1 <= |t| <= 4 && IsDigits(t))
    || (2 <= |t| <= 5 && IsDigits(t[..|t| - 1]) && IsAsciiLetter(t[|t| - 1]))
  }

  /** `s.replace(pat, rep)` with a string pattern: only the first occurrence. */
  function ReplaceFirst(s: string, pat: string, rep: string): (r: string)
    requires pat != ""
  {
    if StartsWith(s, pat) then rep + s[|pat|..]
    else if s == [] then []
    else [s[0]] + ReplaceFirst(s[1..], pat, rep)
  }

  /** Without an occurrence of the pattern the string is returned as it was. */
  lemma {:induction false} ReplaceFirstAbsent(s: string, pat: string, rep: string)
    requires pat != "" && !Contains(s, pat)
    ensures ReplaceFirst(s, pat, rep) == s
  {
    if s != [] {
      ReplaceFirstAbsent(s[1..], pat, rep);
    }
  }

  /** The replacement happens at the first occurrence, wherever it is: the text
      before it and after it is kept as it was. */
  lemma {:induction false} ReplaceFirstAt(s: string, pat: string, rep: string, i: nat)
    requires pat != "" && i <= |s| && StartsWith(s[i..], pat)
    requires forall j :: 0 <= j < i ==> !StartsWith(s[j..], pat)
    ensures ReplaceFirst(s, pat, rep) == s[..i] + rep + s[i + |pat|..]
  {
    if i > 0 {
      var t := s[1..];
      assert ReplaceFirst(s, pat, rep) == [s[0]] + ReplaceFirst(t, pat, rep) by {
        assert s[0..] == s;
      }
      assert StartsWith(t[i - 1..], pat) && forall j :: 0 <= j < i - 1 ==> !StartsWith(t[j..], pat) by {
        assert t[i - 1..] == s[i..];
        forall j | 0 <= j < i - 1 ensures !StartsWith(t[j..], pat) {
          assert t[j..] == s[j + 1..];
        }
      }
      ReplaceFirstAt(t, pat, rep, i - 1);
      assert [s[0]] + (t[..i - 1] + rep + t[i - 1 + |pat|..]) == s[..i] + rep + s[i + |pat|..] by {
        assert t[i - 1 + |pat|..] == s[i + |pat|..];
        assert [s[0]] + t[..i - 1] == s[..i];
      }
    } else {
      assert s[i..] == s && s[..i] + rep == rep;
    }
  }


  /** The longest prefix of `s` made of decimal digits. */
  function LeadingDigits(s: string): (r: string)
    ensures |r| <= |s| && r == s[..|r|] && IsDigits(r)
    ensures |r| < |s| ==> !IsDigit(s[|r|])
  {
    if |s| > 0 && IsDigit(s[0]) then [s[0]] + LeadingDigits(s[1..]) else []
  }

  function LeadingHexDigits(s: string): (r: string)
    ensures |r| <= |s| && r == s[..|r|]
    ensures forall i :: 0 <= i < |r| ==> IsHexDigit(r[i])
  {
    if |s| > 0 && IsHexDigit(s[0]) then [s[0]] + LeadingHexDigits(s[1..]) else []
  }

  /** The value of a string of digits in the given base, most significant first. */
  function NumberValue(s: string, base: nat): (v: nat)
    requires base == 10 || base == 16
    requires forall i :: 0 <= i < |s| ==> IsHexDigit(s[i]) && DigitValue(s[i]) < base
  {
    if s == [] then 0 else NumberValue(s[..|s| - 1], base) * base + DigitValue(s[|s| - 1])
  }

  function DecimalValue(s: string): nat
    requires IsDigits(s)
  {
    NumberValue(s, 10)
  }

  /** `parseInt(s, 10)`: leading white space, an optional sign, then the longest run
      of digits; `None` stands for `NaN` (no digit at all). */
  function ParseInt10(s: string): (r: Option<int>)
    ensures r.None? <==> LeadingDigits(SignStripped(TrimStart(s))) == []
  {
    var t := TrimStart(s);
    var negative := |t| > 0 && t[0] == '-';
    var digits := LeadingDigits(SignStripped(t));
    if digits == [] then None
    else
      var v: int := DecimalValue(digits);
      if negative then Some(-v) else Some(v)
  }

  function SignStripped(t: string): string {
    if |t| > 0 && (t[0] == '-' || t[0] == '+') then t[1..] else t
  }

  /** `parseInt(s)` with no radix: as `ParseInt10`, except that a `0x`/`0X` prefix
      after the sign selects base 16. */
  function ParseIntAuto(s: string): (r: Option<int>)
    ensures !StartsWith(SignStripped(TrimStart(s)), "0x")
         && !StartsWith(SignStripped(TrimStart(s)), "0X")
         ==> r == ParseInt10(s)
  {
    var t := TrimStart(s);
    var negative := |t| > 0 && t[0] == '-';
    var u := SignStripped(t);
    if StartsWith(u, "0x") || StartsWith(u, "0X") then
      var digits := LeadingHexDigits(u[2..]);
      if digits == [] then None
      else
        var v: int := NumberValue(digits, 16);
        if negative then Some(-v) else Some(v)
    else ParseInt10(s)
  }

  function DigitChar(d: nat): (c: char)
    requires d < 10
    ensures IsDigit(c) && DigitValue(c) == d
  {
    ('0' as int + d) as char
  }

  /** Template-literal rendering `${n}` of a natural number. */
  function NatToString(n: nat): (s: string)
    ensures |s| > 0 && IsDigits(s) && DecimalValue(s) == n
    decreases n
  {
    if n < 10 then
      var s := [DigitChar(n)];
      assert s[..0] == [];
      assert NumberValue(s, 10) == DigitValue(s[0]);
      s
    else
      var prefix := NatToString(n / 10);
      var s := prefix + [DigitChar(n % 10)];
      assert s[..|s| - 1] == prefix;
      s
  }

  /** Appending a digit to a number appends it to its rendering. */
  lemma AppendDigit(n: nat, d: nat)
    requires 1 <= n && d < 10
    ensures NatToString(n * 10 + d) == NatToString(n) + [DigitChar(d)]
  {
    assert (n * 10 + d) / 10 == n && (n * 10 + d) % 10 == d;
  }

  /** `s.split(sep)` for a one-character separator. */
  function Split(s: string, sep: char): (parts: seq<string>)
    ensures |parts| > 0
    ensures forall k :: 0 <= k < |parts| ==> sep !in parts[k]
  {
    if s == [] then [""]
    else
      var rest := Split(s[1..], sep);
      if s[0] == sep then [""] + rest else [[s[0]] + rest[0]] + rest[1..]
  }

  /** `parts.join(sep)`. */
  function Join(parts: seq<string>, sep: char): string {
    if parts == [] then ""
    else if |parts| == 1 then parts[0]
    else parts[0] + [sep] + Join(parts[1..], sep)
  }

  /** Number of occurrences of `c` in `s`. */
  function Count(s: string, c: char): nat {
    if s == [] then 0 else (if s[0] == c then 1 else 0) + Count(s[1..], c)
  }

  /** `split` then `join` with the same separator gives the string back. */
  lemma {:induction false} JoinSplit(s: string, sep: char)
    ensures Join(Split(s, sep), sep) == s
  {
    if s != [] {
      var rest := Split(s[1..], sep);
      JoinSplit(s[1..], sep);
      if s[0] == sep {
        assert Join([""] + rest, sep) == [sep] + Join(rest, sep);
      } else {
        var parts := [[s[0]] + rest[0]] + rest[1..];
        if |rest| == 1 {
          assert Join(parts, sep) == [s[0]] + rest[0];
        } else {
          assert parts[1..] == rest[1..];
          assert Join(parts, sep) == [s[0]] + rest[0] + [sep] + Join(rest[1..], sep);
        }
      }
    }
  }

  /** The first part of a split is everything before the first separator. */
  lemma {:induction false} SplitFirstPart(a: string, b: string, sep: char)
    requires sep !in a
    ensures Split(a + [sep] + b, sep)[0] == a
  {
    if a != [] {
      assert (a + [sep] + b)[1..] == a[1..] + [sep] + b;
      SplitFirstPart(a[1..], b, sep);
    } else {
      assert (a + [sep] + b)[0] == sep;
    }
  }

  /** Without a separator, split yields the whole string. */
  lemma {:induction false} SplitNoSeparator(s: string, sep: char)
    requires sep !in s
    ensures Split(s, sep) == [s]
  {
    if s != [] {
      assert s[0] in s;
      SplitNoSeparator(s[1..], sep);
      assert [s[0]] + s[1..] == s;
    }
  }

  /** `split` yields one more part than there are separators. */
  lemma {:induction false} SplitLength(s: string, sep: char)
    ensures |Split(s, sep)| == Count(s, sep) + 1
  {
    if s != [] {
      SplitLength(s[1..], sep);
    }
  }

  // ---------------------------------------------------------------------------
  // Origins

  const SiteOrigin := "https://theblueboard.co"

  /** The check in `api/faa.js` and `api/schedule.js`: an absent origin, the site
      itself, or anything containing `localhost`. */
  predicate OriginAllowedLoose(origin: string) {
    origin == "" || origin == SiteOrigin || Contains(origin, "localhost")
  }

  /** The check in `api/irrops.js`: an absent origin, the site itself, or an origin
      matching `^http://localhost(:\d+)?$`. */
  predicate OriginAllowedStrict(origin: string) {
    || origin == "" || origin == SiteOrigin || origin == "http://localhost"
    || (StartsWith(origin, "http://localhost:") && |origin| > 17 && IsDigits(origin[17..]))
  }

  /** Every origin the strict rule admits is also admitted by the loose one. */
  lemma StrictImpliesLoose(origin: string)
    requires OriginAllowedStrict(origin)
    ensures OriginAllowedLoose(origin)
  {
    if origin == "http://localhost" {
      ContainsAt(origin, "localhost", 7);
    } else if origin != "" && origin != SiteOrigin {
      assert origin[..17][7..16] == origin[7..16];
      ContainsAt(origin, "localhost", 7);
    }
  }
}
