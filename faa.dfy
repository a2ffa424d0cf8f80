/** `api/faa.js`: the FAA airport-status feed turned into a list of delay and closure
    records by two global regular-expression scans over the XML text. */
module Faa {
  import opened Common

  // ---------------------------------------------------------------------------
  // The regular expressions

  /** `<Delay>…</Delay>` or `<Airport>…</Airport>`: the two patterns differ only in
      the element that opens and closes a record. */
  datatype Tag = Tag(open: string, close: string)

  const DelayTag := Tag("<Delay>", "</Delay>")
  const ClosureTag := Tag("<Airport>", "</Airport>")

  /** `lit` occurs in `s` at position `i`. */
  predicate LiteralAt(s: string, i: int, lit: string) {
    0 <= i && i + |lit| <= |s| && SameFrom(s, i, lit, 0)
  }

  /** The characters of `lit` from `k` on agree with those of `s` from `i + k` on. */
  predicate SameFrom(s: string, i: nat, lit: string, k: nat)
    requires i + |lit| <= |s| && k <= |lit|
    decreases |s| - i - k
  {
    k == |lit| || (s[i + k] == lit[k] && SameFrom(s, i, lit, k + 1))
  }

  /** `LiteralAt` is the slice of `s` at `i` being `lit`. */
  lemma LiteralAtIsSlice(s: string, i: int, lit: string)
    ensures LiteralAt(s, i, lit) <==> 0 <= i && i + |lit| <= |s| && s[i..i + |lit|] == lit
  {
    if 0 <= i && i + |lit| <= |s| {
      SameFromIsSlice(s, i, lit, 0);
    }
  }

  lemma {:induction false} SameFromIsSlice(s: string, i: nat, lit: string, k: nat)
    requires i + |lit| <= |s| && k <= |lit|
    ensures SameFrom(s, i, lit, k) <==> s[i + k..i + |lit|] == lit[k..]
    decreases |lit| - k
  {
    if k < |lit| {
      SameFromIsSlice(s, i, lit, k + 1);
      assert s[i + k..i + |lit|] == [s[i + k]] + s[i + k + 1..i + |lit|];
      assert lit[k..] == [lit[k]] + lit[k + 1..];
    }
  }

  /** `\s*` from `i`: the end of the run of white space starting there. */
  function SkipSpaces(s: string, i: nat): (r: nat)
    requires i <= |s|
    ensures i <= r <= |s|
    ensures r == |s| || !IsSpace(s[r])
    decreases |s| - i
  {
    if i < |s| && IsSpace(s[i]) then SkipSpaces(s, i + 1) else i
  }

  /** Everything `SkipSpaces` passes over is white space. */
  lemma {:induction false} SkipSpacesPassesSpaces(s: string, i: nat)
    requires i <= |s|
    ensures forall k :: i <= k < SkipSpaces(s, i) ==> IsSpace(s[k])
    decreases |s| - i
  {
    if i < |s| && IsSpace(s[i]) {
      SkipSpacesPassesSpaces(s, i + 1);
    }
  }

  /** `[^<]*` from `i`: the end of the run of characters other than `<`. */
  function SkipText(s: string, i: nat): (r: nat)
    requires i <= |s|
    ensures i <= r <= |s|
    ensures r == |s| || s[r] == '<'
    decreases |s| - i
  {
    if i < |s| && s[i] != '<' then SkipText(s, i + 1) else i
  }

  /** Nothing `SkipText` passes over is a `<`. */
  lemma {:induction false} SkipTextPassesText(s: string, i: nat)
    requires i <= |s|
    ensures forall k :: i <= k < SkipText(s, i) ==> s[k] != '<'
    decreases |s| - i
  {
    if i < |s| && s[i] != '<' {
      SkipTextPassesText(s, i + 1);
    }
  }

  /** `[\s\S]*?` followed by `lit`: the first occurrence of `lit` at or after `i`. */
  function FindFrom(s: string, i: nat, lit: string): (r: Option<nat>)
    requires i <= |s|
    ensures r.Some? ==> i <= r.value && r.value + |lit| <= |s|
    decreases |s| - i
  {
    if LiteralAt(s, i, lit) then Some(i)
    else if i < |s| then FindFrom(s, i + 1, lit)
    else None
  }

  /** `FindFrom` finds the first occurrence at or after `i`, and `None` means there
      is none. */
  lemma {:induction false} FindFromIsFirst(s: string, i: nat, lit: string)
    requires i <= |s|
    ensures var r := FindFrom(s, i, lit);
            && (r.Some? ==> LiteralAt(s, r.value, lit) && forall j :: i <= j < r.value ==> !LiteralAt(s, j, lit))
            && (r.None? ==> forall j :: i <= j ==> !LiteralAt(s, j, lit))
    decreases |s| - i
  {
    if !LiteralAt(s, i, lit) && i < |s| {
      FindFromIsFirst(s, i + 1, lit);
    }
  }

  /** A match: where it starts and ends, and the two capture groups. */
  datatype Match = Match(start: nat, end: nat, code: string, reason: string)

  /** The pattern
        `open \s* <ARPT> ([^<]+) </ARPT> \s* <Reason> ([^<]*) </Reason> [\s\S]*? close`
      tried at position `p`. Every repetition but the last is followed by a
      character it cannot consume, so the match, if any, is unique; the lazy one
      stops at the first `close`. */
  function MatchAt(s: string, p: nat, tag: Tag): (r: Option<Match>)
    requires p <= |s|
    ensures r.Some? ==> r.value.start == p && p + |tag.open| < r.value.end <= |s|
    ensures r.Some? ==> r.value.code != ""
  {
    if !LiteralAt(s, p, tag.open) then None
    else
      var a := SkipSpaces(s, p + |tag.open|);
      if !LiteralAt(s, a, "<ARPT>") then None
      else
        var c := SkipText(s, a + 6);
        if c == a + 6 || !LiteralAt(s, c, "</ARPT>") then None
        else
          var b := SkipSpaces(s, c + 7);
          if !LiteralAt(s, b, "<Reason>") then None
          else
            var t := SkipText(s, b + 8);
            if !LiteralAt(s, t, "</Reason>") then None
            else
              var e := FindFrom(s, t + 9, tag.close);
              if e.None? then None
              else
                Some(Match(p, e.value + |tag.close|, s[a + 6..c], s[b + 8..t]))
  }

  /** A match opens with `tag.open` and ends with the first `tag.close` after the
      reason. */
  lemma MatchAtDelimited(s: string, p: nat, tag: Tag)
    requires p <= |s| && MatchAt(s, p, tag).Some?
    ensures var m := MatchAt(s, p, tag).value;
            LiteralAt(s, p, tag.open) && LiteralAt(s, m.end - |tag.close|, tag.close)
  {
    var a := SkipSpaces(s, p + |tag.open|);
    var c := SkipText(s, a + 6);
    var b := SkipSpaces(s, c + 7);
    var t := SkipText(s, b + 8);
    FindFromIsFirst(s, t + 9, tag.close);
  }

  /** A stretch of `s` without `<` gives a slice without `<`. */
  lemma NoTagOpenIn(s: string, i: nat, j: nat)
    requires i <= j <= |s| && forall k :: i <= k < j ==> s[k] != '<'
    ensures '<' !in s[i..j]
  {
    assert forall k :: 0 <= k < j - i ==> s[i..j][k] == s[i + k];
  }

  /** The captured airport code and reason hold no `<`. */
  lemma MatchAtCaptures(s: string, p: nat, tag: Tag)
    requires p <= |s| && MatchAt(s, p, tag).Some?
    ensures var m := MatchAt(s, p, tag).value; '<' !in m.code && '<' !in m.reason
  {
    var a := SkipSpaces(s, p + |tag.open|);
    var c := SkipText(s, a + 6);
    var b := SkipSpaces(s, c + 7);
    var t := SkipText(s, b + 8);
    SkipTextPassesText(s, a + 6);
    NoTagOpenIn(s, a + 6, c);
    SkipTextPassesText(s, b + 8);
    NoTagOpenIn(s, b + 8, t);
  }

  /** `regex.exec(s)` with `lastIndex == from`: the leftmost match starting at or
      after `from`. */
  function Exec(s: string, from: nat, tag: Tag): (r: Option<Match>)
    ensures r.Some? ==> from <= r.value.start && r.value.start < r.value.end <= |s|
    decreases |s| - from
  {
    if from > |s| then None
    else
      var m := MatchAt(s, from, tag);
      if m.Some? then m else Exec(s, from + 1, tag)
  }

  /** What `Exec` finds is the pattern's match at the position where it starts. */
  lemma {:induction false} ExecIsMatch(s: string, from: nat, tag: Tag)
    requires Exec(s, from, tag).Some?
    ensures var m := Exec(s, from, tag).value; m.start <= |s| && MatchAt(s, m.start, tag) == Some(m)
    decreases |s| - from
  {
    if MatchAt(s, from, tag).None? {
      ExecIsMatch(s, from + 1, tag);
    }
  }

  /** No match starts before the one `Exec` finds, and none at all when it finds
      nothing. */
  lemma {:induction false} ExecIsLeftmost(s: string, from: nat, tag: Tag, q: nat)
    requires from <= q <= |s| && MatchAt(s, q, tag).Some?
    ensures Exec(s, from, tag).Some? && Exec(s, from, tag).value.start <= q
    decreases |s| - from
  {
    if MatchAt(s, from, tag).None? {
      ExecIsLeftmost(s, from + 1, tag, q);
    }
  }

  /** The successive matches of a global scan from `lastIndex == from`. */
  function Scan(s: string, from: nat, tag: Tag): seq<Match>
    decreases |s| - from
  {
    var m := Exec(s, from, tag);
    if m.None? then [] else [m.value] + Scan(s, m.value.end, tag)
  }

  /** The scan's matches are in document order and do not overlap, all at or after
      `from`. */
  lemma {:induction false} ScanInDocumentOrder(s: string, from: nat, tag: Tag)
    ensures forall i :: 0 <= i < |Scan(s, from, tag)| ==> from <= Scan(s, from, tag)[i].start
    ensures forall i, j :: 0 <= i < j < |Scan(s, from, tag)| ==> Scan(s, from, tag)[i].end <= Scan(s, from, tag)[j].start
    decreases |s| - from
  {
    var m := Exec(s, from, tag);
    if m.Some? {
      ScanInDocumentOrder(s, m.value.end, tag);
    }
  }

  /** Every match of the pattern at or after `from` is found, unless it starts
      inside a match found earlier. */
  lemma {:induction false} ScanIsComplete(s: string, from: nat, tag: Tag, q: nat)
    requires from <= q <= |s| && MatchAt(s, q, tag).Some?
    ensures exists i :: 0 <= i < |Scan(s, from, tag)|
                        && Scan(s, from, tag)[i].start <= q < Scan(s, from, tag)[i].end
    decreases |s| - from
  {
    ExecIsLeftmost(s, from, tag, q);
    var m := Exec(s, from, tag).value;
    var sc := Scan(s, from, tag);
    assert sc[0] == m;
    if q >= m.end {
      ScanIsComplete(s, m.end, tag, q);
      var i :| 0 <= i < |Scan(s, m.end, tag)| && Scan(s, m.end, tag)[i].start <= q < Scan(s, m.end, tag)[i].end;
      assert sc[i + 1] == Scan(s, m.end, tag)[i];
    } else {
      assert MatchAt(s, q, tag).value.end > q;
    }
  }

  // ---------------------------------------------------------------------------
  // Records

  /** One entry of the response: `{airportCode, type, reason, delays: [{reason}]}`. */
  datatype Record = Record(airportCode: string, kind: string, reason: string, innerReason: string)

  /** `parts.slice(0, n)`. */
  function Take(parts: seq<string>, n: nat): (r: seq<string>)
    ensures |r| == if |parts| <= n then |parts| else n
    ensures r == parts[..|r|]
  {
    if |parts| <= n then parts else parts[..n]
  }

  /** `reason.split(' ').slice(0, n).join(' ')`. */
  function FirstWords(reason: string, n: nat): string {
    Join(Take(Split(reason, ' '), n), ' ')
  }

  lemma JoinCons(c: char, p0: string, tail: seq<string>, sep: char)
    ensures Join([[c] + p0] + tail, sep) == [c] + Join([p0] + tail, sep)
  {
    if tail != [] {
      assert ([[c] + p0] + tail)[1..] == tail;
      assert ([p0] + tail)[1..] == tail;
    }
  }

  /** The first `n` words of `s`, joined again, are a prefix of `s`. */
  lemma {:induction false} FirstWordsIsPrefix(s: string, sep: char, n: nat)
    requires n >= 1
    ensures var w := Join(Take(Split(s, sep), n), sep); |w| <= |s| && s[..|w|] == w
    decreases |s|
  {
    if s != [] {
      var rest := Split(s[1..], sep);
      var parts := Split(s, sep);
      if s[0] == sep {
        assert parts == [""] + rest;
        if n == 1 {
          assert Take(parts, n) == [""];
        } else {
          FirstWordsIsPrefix(s[1..], sep, n - 1);
          var t := Take(rest, n - 1);
          assert Take(parts, n) == [""] + t;
          assert ([""] + t)[1..] == t;
          assert Join([""] + t, sep) == [sep] + Join(t, sep);
        }
      } else {
        assert parts == [[s[0]] + rest[0]] + rest[1..];
        FirstWordsIsPrefix(s[1..], sep, n);
        var t := Take(rest, n);
        assert Take(parts, n) == [[s[0]] + rest[0]] + t[1..];
        assert t == [rest[0]] + t[1..];
        JoinCons(s[0], rest[0], t[1..], sep);
      }
    }
  }

  /**
   * When `s` has at least `n` separators, its first `n` words end exactly
   * at the `n`-th separator: they hold `n - 1` separators and are followed
   * in `s` by a separator.
   */
  lemma {:induction false} FirstWordsCut(s: string, sep: char, n: nat)
    requires n >= 1 && Count(s, sep) >= n
    ensures var w := Join(Take(Split(s, sep), n), sep);
            |w| < |s| && s[..|w|] == w && s[|w|] == sep && Count(w, sep) == n - 1
    decreases |s|
  {
    FirstWordsIsPrefix(s, sep, n);
    var rest := Split(s[1..], sep);
    var parts := Split(s, sep);
    if s[0] == sep {
      assert parts == [""] + rest;
      if n == 1 {
        assert Take(parts, n) == [""];
      } else {
        FirstWordsCut(s[1..], sep, n - 1);
        var t := Take(rest, n - 1);
        var w' := Join(t, sep);
        assert Take(parts, n) == [""] + t;
        assert ([""] + t)[1..] == t;
        assert Join([""] + t, sep) == [sep] + w';
        assert ([sep] + w')[1..] == w';
      }
    } else {
      assert parts == [[s[0]] + rest[0]] + rest[1..];
      FirstWordsCut(s[1..], sep, n);
      var t := Take(rest, n);
      var w' := Join(t, sep);
      assert Take(parts, n) == [[s[0]] + rest[0]] + t[1..];
      assert t == [rest[0]] + t[1..];
      JoinCons(s[0], rest[0], t[1..], sep);
      assert ([s[0]] + w')[1..] == w';
    }
  }

  /** A reason of more than eight words is cut just before its eighth space. */
  lemma LongReasonCut(reason: string)
    requires Count(reason, ' ') >= 8
    ensures var w := FirstWords(reason, 8);
            |w| < |reason| && reason[..|w|] == w && reason[|w|] == ' ' && Count(w, ' ') == 7
  {
    FirstWordsCut(reason, ' ', 8);
  }

  /** A reason of at most eight words is kept whole. */
  lemma ShortReasonKept(reason: string)
    requires Count(reason, ' ') < 8
    ensures FirstWords(reason, 8) == reason
  {
    SplitLength(reason, ' ');
    JoinSplit(reason, ' ');
  }

  /** The record of a `<Delay>` match: the same reason in both places. */
  function DelayRecord(m: Match): (r: Record)
    ensures r.kind == "delay" && r.airportCode == m.code && r.reason == m.reason && r.innerReason == m.reason
  {
    Record(m.code, "delay", m.reason, m.reason)
  }

  /** The record of an `<Airport>` match: `CLOSED: ` and the reason's first eight
      words inside, the whole reason outside. */
  function ClosureRecord(m: Match): (r: Record)
    ensures r.kind == "closure" && r.airportCode == m.code && r.reason == m.reason
    ensures StartsWith(r.innerReason, "CLOSED: ")
    ensures var w := r.innerReason[8..]; |w| <= |m.reason| && m.reason[..|w|] == w
    ensures Count(m.reason, ' ') < 8 ==> r.innerReason[8..] == m.reason
    ensures Count(m.reason, ' ') >= 8 ==>
              var w := r.innerReason[8..];
              |w| < |m.reason| && m.reason[|w|] == ' ' && Count(w, ' ') == 7
  {
    FirstWordsIsPrefix(m.reason, ' ', 8);
    assert Count(m.reason, ' ') < 8 ==> FirstWords(m.reason, 8) == m.reason by {
      if Count(m.reason, ' ') < 8 { ShortReasonKept(m.reason); }
    }
    assert Count(m.reason, ' ') >= 8 ==>
             var w := FirstWords(m.reason, 8);
             |w| < |m.reason| && m.reason[|w|] == ' ' && Count(w, ' ') == 7 by {
      if Count(m.reason, ' ') >= 8 { LongReasonCut(m.reason); }
    }
    var inner := "CLOSED: " + FirstWords(m.reason, 8);
    assert inner[..8] == "CLOSED: " && inner[8..] == FirstWords(m.reason, 8);
    Record(m.code, "closure", m.reason, inner)
  }

  /** The record a match of the delay pattern (`closure == false`) or of the
      closure pattern gives. */
  function RecordOf(m: Match, closure: bool): Record {
    if closure then ClosureRecord(m) else DelayRecord(m)
  }

  function RecordsOf(ms: seq<Match>, closure: bool): (r: seq<Record>)
    ensures |r| == |ms|
  {
    if ms == [] then [] else [RecordOf(ms[0], closure)] + RecordsOf(ms[1..], closure)
  }

  /** Record `i` is the record of match `i`. */
  lemma {:induction false} RecordsOfAt(ms: seq<Match>, closure: bool)
    ensures forall i :: 0 <= i < |ms| ==> RecordsOf(ms, closure)[i] == RecordOf(ms[i], closure)
  {
    if ms != [] {
      RecordsOfAt(ms[1..], closure);
      var r := RecordsOf(ms, closure);
      forall i | 0 <= i < |ms| ensures r[i] == RecordOf(ms[i], closure) {
        if i > 0 {
          assert r[i] == RecordsOf(ms[1..], closure)[i - 1];
          assert ms[i] == ms[1..][i - 1];
        }
      }
    }
  }

  lemma RecordsOfCons(m: Match, rest: seq<Match>, closure: bool)
    ensures RecordsOf([m] + rest, closure) == [RecordOf(m, closure)] + RecordsOf(rest, closure)
  {
    assert ([m] + rest)[1..] == rest;
  }

  /** The `delays` array built from `xml`: every delay match, then every closure
      match. */
  function Records(xml: string): seq<Record> {
    RecordsOf(Scan(xml, 0, DelayTag), false) + RecordsOf(Scan(xml, 0, ClosureTag), true)
  }

  /** All delay records come before all closure records. */
  lemma DelaysBeforeClosures(xml: string)
    ensures var r := Records(xml);
            && (forall i :: 0 <= i < |r| ==> r[i].kind in {"delay", "closure"})
            && (forall i, j :: 0 <= i < j < |r| && r[j].kind == "delay" ==> r[i].kind == "delay")
  {
    var d := RecordsOf(Scan(xml, 0, DelayTag), false);
    var c := RecordsOf(Scan(xml, 0, ClosureTag), true);
    var r := d + c;
    RecordsOfAt(Scan(xml, 0, DelayTag), false);
    RecordsOfAt(Scan(xml, 0, ClosureTag), true);
    assert forall i :: 0 <= i < |r| ==> (r[i].kind == "delay" <==> i < |d|);
  }

  /** `regex.exec(xml)` with `lastIndex == from`: the match found, and what it leaves
      of the scan. */
  method ExecFrom(xml: string, from: nat, tag: Tag) returns (m: Option<Match>)
    requires from <= |xml|
    ensures m.None? ==> Scan(xml, from, tag) == []
    ensures m.Some? ==> from < m.value.end <= |xml| && Scan(xml, from, tag) == [m.value] + Scan(xml, m.value.end, tag)
  {
    m := Exec(xml, from, tag);
  }

  /** A loop of `while ((m = regex.exec(xml)) !== null) out.push(...)`, for one of
      the two patterns. */
  method ScanAll(xml: string, tag: Tag, closure: bool) returns (out: seq<Record>)
    ensures out == RecordsOf(Scan(xml, 0, tag), closure)
  {
    ghost var goal := RecordsOf(Scan(xml, 0, tag), closure);
    out := [];
    var lastIndex: nat := 0;
    while true
      invariant lastIndex <= |xml|
      invariant out + RecordsOf(Scan(xml, lastIndex, tag), closure) == goal
      decreases |xml| - lastIndex
    {
      var m := ExecFrom(xml, lastIndex, tag);
      if m.None? {
        assert out + [] == out;
        return;
      }
      var next := m.value;
      RecordsOfCons(next, Scan(xml, next.end, tag), closure);
      assert (out + [RecordOf(next, closure)]) + RecordsOf(Scan(xml, next.end, tag), closure) == goal;
      out := out + [RecordOf(next, closure)];
      lastIndex := next.end;
    }
  }

  /** The parsing part of `handler`. */
  method ParseRecords(xml: string) returns (delays: seq<Record>)
    ensures delays == Records(xml)
  {
    delays := ScanAll(xml, DelayTag, false);
    var closures := ScanAll(xml, ClosureTag, true);
    delays := delays + closures;
  }

  // ---------------------------------------------------------------------------
  // The handler

  /** The upstream request: a non-2xx status, the XML text, or an exception, `abort`
      telling an `AbortError`. */
  datatype Upstream = NotOk | Xml(text: string) | Threw(abort: bool)

  datatype Body = Delays(records: seq<Record>) | Failure(message: string)

  datatype Response = Response(status: int, cacheControl: string, body: Body)

  /** `handler`: the method, the loose origin check, then the upstream outcome. */
  function HandleFaa(httpMethod: string, origin: string, up: Upstream): (r: Response)
    ensures r.status == 405 <==> httpMethod != "GET"
    ensures r.status == 403 <==> httpMethod == "GET" && !OriginAllowedLoose(origin)
    ensures r.status == 200 <==> httpMethod == "GET" && OriginAllowedLoose(origin) && up.Xml?
    ensures r.status == 504 <==> httpMethod == "GET" && OriginAllowedLoose(origin) && up == Threw(true)
    ensures r.status == 502 <==> httpMethod == "GET" && OriginAllowedLoose(origin) && (up.NotOk? || up == Threw(false))
    ensures r.status == 200 ==> r.body == Delays(Records(up.text))
  {
    if httpMethod != "GET" then Response(405, "", Failure("Method not allowed"))
    else if origin != "" && origin != SiteOrigin && !Contains(origin, "localhost") then
      Response(403, "", Failure("Forbidden"))
    else match up
      case NotOk => Response(502, "", Failure("Upstream service unavailable"))
      case Threw(abort) =>
        if abort then Response(504, "", Failure("Upstream timeout"))
        else Response(502, "", Failure("Upstream service unavailable"))
      case Xml(text) => Response(200, "s-maxage=300, stale-while-revalidate=600", Delays(Records(text)))
  }

  /** `handler`, with the parsing done by the two scanning loops. */
  method Handle(httpMethod: string, origin: string, up: Upstream) returns (r: Response)
    ensures r == HandleFaa(httpMethod, origin, up)
  {
    if httpMethod != "GET" {
      return Response(405, "", Failure("Method not allowed"));
    }
    if origin != "" && origin != SiteOrigin && !Contains(origin, "localhost") {
      return Response(403, "", Failure("Forbidden"));
    }
    match up {
      case NotOk =>
        r := Response(502, "", Failure("Upstream service unavailable"));
      case Threw(abort) =>
        r := if abort then Response(504, "", Failure("Upstream timeout"))
             else Response(502, "", Failure("Upstream service unavailable"));
      case Xml(text) =>
        var delays := ParseRecords(text);
        r := Response(200, "s-maxage=300, stale-while-revalidate=600", Delays(delays));
    }
  }
}
