/** `rebuild-fleet.cjs`: rebuilds the fleet database from the CSV export of each
    tab of the fleet spreadsheet. Each tab (a GID) has a base aircraft type; its
    header row locates the columns, every row with a valid registration becomes an
    entry whose type is refined from the row's model code, registrations are kept
    unique across tabs, and the fleet is sorted by type then registration.

    Reading the CSV files and rewriting `index.html` are not modelled: the contents
    of each tab's file come in as a parameter (`None` for a missing file). */
module RebuildFleet {
  import opened Common

  // ---------------------------------------------------------------------------
  // parseCSVLine

  /** The fields of the rest `s` of a line, not yet trimmed: `current` is the field
      read so far and `inQuotes` whether a quote is open. A quote character toggles
      `inQuotes` and is dropped; a comma outside quotes ends a field. */
  function RawFields(s: string, inQuotes: bool, current: string): (r: seq<string>)
    ensures |r| > 0
    decreases |s|
  {
    if s == [] then [current]
    else if s[0] == '"' then RawFields(s[1..], !inQuotes, current)
    else if s[0] == ',' && !inQuotes then [current] + RawFields(s[1..], inQuotes, "")
    else RawFields(s[1..], inQuotes, current + [s[0]])
  }

  function TrimAll(fs: seq<string>): (r: seq<string>)
    ensures |r| == |fs|
    ensures forall k :: 0 <= k < |fs| ==> r[k] == Trim(fs[k])
  {
    if fs == [] then [] else [Trim(fs[0])] + TrimAll(fs[1..])
  }

  lemma TrimAllCons(f: string, fs: seq<string>)
    ensures TrimAll([f] + fs) == [Trim(f)] + TrimAll(fs)
  {
    assert ([f] + fs)[1..] == fs;
  }

  /** The fields `parseCSVLine(line)` returns. */
  function CsvFields(line: string): seq<string> {
    TrimAll(RawFields(line, false, ""))
  }

  /** `parseCSVLine`: one pass over the characters, pushing each trimmed field at a
      comma outside quotes and the last one at the end. */
  method ParseCsvLine(line: string) returns (result: seq<string>)
    ensures result == CsvFields(line)
  {
    result := [];
    var current := "";
    var inQuotes := false;
    var i := 0;
    while i < |line|
      invariant 0 <= i <= |line|
      invariant result + TrimAll(RawFields(line[i..], inQuotes, current)) == CsvFields(line)
    {
      var ch := line[i];
      assert line[i..][1..] == line[i + 1..];
      if ch == '"' {
        inQuotes := !inQuotes;
      } else if ch == ',' && !inQuotes {
        TrimAllCons(current, RawFields(line[i + 1..], inQuotes, ""));
        result := result + [Trim(current)];
        current := "";
      } else {
        current := current + [ch];
      }
      i := i + 1;
    }
    result := result + [Trim(current)];
  }

  /** The number of commas in `s` outside quotes, when `inQuotes` says whether a
      quote is open at its start. */
  function Separators(s: string, inQuotes: bool): nat
    decreases |s|
  {
    if s == [] then 0
    else if s[0] == '"' then Separators(s[1..], !inQuotes)
    else if s[0] == ',' && !inQuotes then 1 + Separators(s[1..], inQuotes)
    else Separators(s[1..], inQuotes)
  }

  lemma {:induction false} RawFieldsCount(s: string, inQuotes: bool, current: string)
    ensures |RawFields(s, inQuotes, current)| == Separators(s, inQuotes) + 1
    decreases |s|
  {
    if s != [] {
      if s[0] == '"' {
        RawFieldsCount(s[1..], !inQuotes, current);
      } else if s[0] == ',' && !inQuotes {
        RawFieldsCount(s[1..], inQuotes, "");
      } else {
        RawFieldsCount(s[1..], inQuotes, current + [s[0]]);
      }
    }
  }

  lemma {:induction false} RawFieldsHaveNoQuote(s: string, inQuotes: bool, current: string)
    requires '"' !in current
    ensures forall k :: 0 <= k < |RawFields(s, inQuotes, current)| ==> '"' !in RawFields(s, inQuotes, current)[k]
    decreases |s|
  {
    if s != [] {
      if s[0] == '"' {
        RawFieldsHaveNoQuote(s[1..], !inQuotes, current);
      } else if s[0] == ',' && !inQuotes {
        RawFieldsHaveNoQuote(s[1..], inQuotes, "");
      } else {
        RawFieldsHaveNoQuote(s[1..], inQuotes, current + [s[0]]);
      }
    }
  }

  /** Trimming keeps a run of characters of the original string. */
  lemma TrimIsSlice(s: string)
    ensures exists a, b :: 0 <= a <= b <= |s| && Trim(s) == s[a..b]
  {
    var t := TrimStart(s);
    TrimStartDrops(s);
    TrimEndDrops(t);
    var a := |s| - |t|;
    var b := a + |Trim(s)|;
    SliceOfSlice(s, a, |Trim(s)|);
  }

  /** A prefix of a suffix is a slice. */
  lemma SliceOfSlice(s: string, a: nat, n: nat)
    requires a + n <= |s|
    ensures s[a..][..n] == s[a..a + n]
  {
  }

  /** `parseCSVLine` yields one field more than there are commas outside quotes; no
      field holds a quote character, and every field is trimmed. */
  lemma CsvFieldsShape(line: string)
    ensures |CsvFields(line)| == Separators(line, false) + 1
    ensures forall k :: 0 <= k < |CsvFields(line)| ==>
              var f := CsvFields(line)[k];
              && '"' !in f
              && (f == [] || (!IsSpace(f[0]) && !IsSpace(f[|f| - 1])))
  {
    RawFieldsCount(line, false, "");
    var raw := RawFields(line, false, "");
    RawFieldsHaveNoQuote(line, false, "");
    forall k | 0 <= k < |raw|
      ensures '"' !in Trim(raw[k])
    {
      TrimIsSlice(raw[k]);
      var a, b :| 0 <= a <= b <= |raw[k]| && Trim(raw[k]) == raw[k][a..b];
      assert forall c :: c in raw[k][a..b] ==> c in raw[k];
    }
  }

  /** Without quote characters, the fields of a line are its comma-separated parts,
      each trimmed. */
  lemma {:induction false} RawFieldsWithoutQuotes(s: string, current: string)
    requires '"' !in s
    ensures RawFields(s, false, current) == [current + Split(s, ',')[0]] + Split(s, ',')[1..]
    decreases |s|
  {
    if s == [] {
      assert current + "" == current;
    } else {
      assert s[0] in s;
      assert forall c :: c in s[1..] ==> c in s;
      var rest := Split(s[1..], ',');
      if s[0] == ',' {
        RawFieldsWithoutQuotes(s[1..], "");
        assert "" + rest[0] == rest[0];
        assert current + "" == current;
        assert [rest[0]] + rest[1..] == rest;
        assert Split(s, ',') == [""] + rest;
      } else {
        RawFieldsWithoutQuotes(s[1..], current + [s[0]]);
        assert current + [s[0]] + rest[0] == current + ([s[0]] + rest[0]);
        assert Split(s, ',') == [[s[0]] + rest[0]] + rest[1..];
      }
    }
  }

  lemma CsvFieldsWithoutQuotes(line: string)
    requires '"' !in line
    ensures CsvFields(line) == TrimAll(Split(line, ','))
  {
    RawFieldsWithoutQuotes(line, "");
    var parts := Split(line, ',');
    assert "" + parts[0] == parts[0];
    assert [parts[0]] + parts[1..] == parts;
  }

  /** A run of ordinary characters (commas included, inside quotes) is appended to
      the field being read. */
  lemma {:induction false} PlainRun(w: string, rest: string, inQuotes: bool, current: string)
    requires '"' !in w && (inQuotes || ',' !in w)
    ensures RawFields(w + rest, inQuotes, current) == RawFields(rest, inQuotes, current + w)
    decreases |w|
  {
    if w == [] {
      assert w + rest == rest;
      assert current + w == current;
    } else {
      assert w[0] in w;
      assert forall c :: c in w[1..] ==> c in w;
      assert (w + rest)[1..] == w[1..] + rest;
      PlainRun(w[1..], rest, inQuotes, current + [w[0]]);
      assert current + [w[0]] + w[1..] == current + w;
    }
  }

  lemma QuoteStep(rest: string, inQuotes: bool, current: string)
    ensures RawFields(['"'] + rest, inQuotes, current) == RawFields(rest, !inQuotes, current)
  {
    assert (['"'] + rest)[1..] == rest;
  }

  lemma CommaStep(rest: string, current: string)
    ensures RawFields([','] + rest, false, current) == [current] + RawFields(rest, false, "")
  {
    assert ([','] + rest)[1..] == rest;
  }

  lemma QuotedCommaRaw(a: string, bc: string, d: string)
    requires '"' !in a && '"' !in bc && '"' !in d && ',' !in a && ',' !in d
    ensures RawFields(a + ",\"" + bc + "\"," + d, false, "") == [a, bc, d]
  {
    var r5 := [','] + d;
    var r4 := ['"'] + r5;
    var r3 := bc + r4;
    var r2 := ['"'] + r3;
    var r1 := [','] + r2;
    assert a + ",\"" + bc + "\"," + d == a + r1;
    assert "" + a == a && "" + bc == bc && "" + d == d && d + "" == d;
    PlainRun(a, r1, false, "");
    CommaStep(r2, a);
    QuoteStep(r3, false, "");
    PlainRun(bc, r4, true, "");
    QuoteStep(r5, true, bc);
    CommaStep(d, bc);
    PlainRun(d, "", false, "");
  }

  /** A comma between quotes stays inside its field, and the quotes are dropped:
      `a,"b,c",d` gives the three fields `a`, `b,c` and `d`, each trimmed. */
  lemma QuotedCommaKept(a: string, b: string, c: string, d: string)
    requires '"' !in a + b + c + d && ',' !in a + b + c + d
    ensures CsvFields(a + ",\"" + b + "," + c + "\"," + d) == [Trim(a), Trim(b + "," + c), Trim(d)]
  {
    var bc := b + "," + c;
    assert forall ch :: ch in a ==> ch in a + b + c + d;
    assert forall ch :: ch in b ==> ch in a + b + c + d;
    assert forall ch :: ch in c ==> ch in a + b + c + d;
    assert forall ch :: ch in d ==> ch in a + b + c + d;
    assert forall ch :: ch in bc ==> ch in b || ch == ',' || ch in c;
    assert a + ",\"" + b + "," + c + "\"," + d == a + ",\"" + bc + "\"," + d;
    QuotedCommaRaw(a, bc, d);
    TrimAllCons(d, []);
    TrimAllCons(bc, [d]);
    TrimAllCons(a, [bc, d]);
  }

  // ---------------------------------------------------------------------------
  // parseSeats

  /** The seat classes of `(J|PE|PP|F|E\+|Y)`, in the order the alternation tries them. */
  const SeatClasses := ["J", "PE", "PP", "F", "E+", "Y"]

  /** The class token at the start of `s`, if any. */
  function ClassAt(s: string): (r: Option<string>)
    ensures r.Some? ==> r.value in SeatClasses && StartsWith(s, r.value)
    ensures r.None? ==> forall c :: c in SeatClasses ==> !StartsWith(s, c)
  {
    if StartsWith(s, "J") then Some("J")
    else if StartsWith(s, "PE") then Some("PE")
    else if StartsWith(s, "PP") then Some("PP")
    else if StartsWith(s, "F") then Some("F")
    else if StartsWith(s, "E+") then Some("E+")
    else if StartsWith(s, "Y") then Some("Y")
    else None
  }

  datatype SeatToken = SeatToken(count: nat, cls: string)

  /** `configStr.match(/(\d+)(J|PE|PP|F|E\+|Y)/g)`, each match split into its count
      and class: at each position, the whole run of digits there followed by a
      class token is a match and scanning resumes after it; otherwise scanning
      moves on by one character. */
  function SeatTokens(s: string): (r: seq<SeatToken>)
    ensures forall k :: 0 <= k < |r| ==> r[k].cls in SeatClasses
    decreases |s|
  {
    if s == [] then []
    else
      var digits := LeadingDigits(s);
      var cls := ClassAt(s[|digits|..]);
      if digits != [] && cls.Some? then
        [SeatToken(DecimalValue(digits), cls.value)] + SeatTokens(s[|digits| + |cls.value|..])
      else SeatTokens(s[1..])
  }

  /** The sum of the counts. */
  function TotalOf(ts: seq<SeatToken>): nat {
    if ts == [] then 0 else TotalOf(ts[..|ts| - 1]) + ts[|ts| - 1].count
  }

  /** Class to count, each class holding the count of its last token. */
  function LastCounts(ts: seq<SeatToken>): map<string, nat> {
    if ts == [] then map[] else LastCounts(ts[..|ts| - 1])[ts[|ts| - 1].cls := ts[|ts| - 1].count]
  }

  /** A class has a count exactly when some token names it, and the count is that of
      the last such token. */
  lemma {:induction false} LastCountsIsLast(ts: seq<SeatToken>, c: string)
    ensures c in LastCounts(ts) <==> exists k :: 0 <= k < |ts| && ts[k].cls == c
    ensures c in LastCounts(ts) ==>
              exists k :: 0 <= k < |ts| && ts[k].cls == c && LastCounts(ts)[c] == ts[k].count
                && forall j :: k < j < |ts| ==> ts[j].cls != c
  {
    if ts != [] {
      var init := ts[..|ts| - 1];
      LastCountsIsLast(init, c);
      assert forall k :: 0 <= k < |init| ==> init[k] == ts[k];
      if ts[|ts| - 1].cls != c {
        if c in LastCounts(ts) {
          var k :| 0 <= k < |init| && init[k].cls == c && LastCounts(init)[c] == init[k].count
                   && forall j :: k < j < |init| ==> init[j].cls != c;
          assert ts[k] == init[k];
        }
        if exists k :: 0 <= k < |ts| && ts[k].cls == c {
          var k :| 0 <= k < |ts| && ts[k].cls == c;
          assert k < |init| && init[k].cls == c;
        }
      }
    }
  }

  datatype Seats = Seats(seats: map<string, nat>, tot: nat)

  /** The value `parseSeats(configStr)` returns. */
  function SeatsOf(config: string): Seats {
    var ts := SeatTokens(config);
    Seats(LastCounts(ts), TotalOf(ts))
  }

  /** `parseSeats`: an empty string or one without a match gives no classes and a
      total of 0; otherwise each match adds its count to the total and sets its
      class's count. */
  method ParseSeats(config: string) returns (r: Seats)
    ensures r == SeatsOf(config)
    ensures r.seats.Keys <= set c | c in SeatClasses
    ensures r.seats == map[] ==> r.tot == 0
  {
    if config == "" {
      return Seats(map[], 0);
    }
    var parts := SeatTokens(config);
    if parts == [] {
      return Seats(map[], 0);
    }
    var seats: map<string, nat> := map[];
    var tot := 0;
    for k := 0 to |parts|
      invariant seats == LastCounts(parts[..k]) && tot == TotalOf(parts[..k])
      invariant seats.Keys <= set c | c in SeatClasses
      invariant k > 0 ==> seats != map[]
    {
      assert parts[..k + 1][..k] == parts[..k];
      seats := seats[parts[k].cls := parts[k].count];
      assert parts[k].cls in seats;
      tot := tot + parts[k].count;
    }
    assert parts[..|parts|] == parts;
    r := Seats(seats, tot);
  }

  /** A run of digits followed by a class token is one match, and scanning resumes
      right after it. */
  lemma SeatTokensMatch(digits: string, cls: string, rest: string)
    requires digits != [] && IsDigits(digits) && cls in SeatClasses
    ensures SeatTokens(digits + cls + rest) == [SeatToken(DecimalValue(digits), cls)] + SeatTokens(rest)
  {
    var s := digits + cls + rest;
    ClassAtToken(cls, rest);
    LeadingDigitsOf(digits, cls + rest);
    assert s == digits + (cls + rest);
    assert s[|digits|..] == cls + rest;
    assert s[|digits| + |cls|..] == rest;
  }

  /** A class token is read back as itself, whatever follows it. */
  lemma ClassAtToken(cls: string, rest: string)
    requires cls in SeatClasses
    ensures ClassAt(cls + rest) == Some(cls)
    ensures cls != [] && !IsDigit(cls[0])
  {
    var s := cls + rest;
    assert s[..|cls|] == cls;
    assert s[0] == cls[0];
    if |cls| == 2 {
      assert s[1] == cls[1];
    }
  }

  lemma {:induction false} LeadingDigitsOf(digits: string, rest: string)
    requires IsDigits(digits) && (rest == [] || !IsDigit(rest[0]))
    ensures LeadingDigits(digits + rest) == digits
  {
    if digits != [] {
      assert (digits + rest)[1..] == digits[1..] + rest;
      LeadingDigitsOf(digits[1..], rest);
    } else {
      assert digits + rest == rest;
    }
  }

  /** A character that is neither a digit nor starts a match is skipped. */
  lemma SeatTokensSkip(ch: char, rest: string)
    requires !IsDigit(ch)
    ensures SeatTokens([ch] + rest) == SeatTokens(rest)
  {
    assert ([ch] + rest)[1..] == rest;
  }

  /** A rendered count, its class and a slash make one match, and scanning resumes
      after the slash. */
  lemma SlashedClass(n: nat, cls: string, rest: string)
    requires cls in SeatClasses
    ensures SeatTokens(NatToString(n) + cls + ([('/')] + rest)) == [SeatToken(n, cls)] + SeatTokens(rest)
  {
    SeatTokensMatch(NatToString(n), cls, [('/')] + rest);
    SeatTokensSkip('/', rest);
  }

  /** A configuration `<f>F/<e>E+/<y>Y`, as `fix-fleet.cjs` writes them, has the three
      classes with those counts, and their sum as total. */
  lemma ThreeClassSeats(f: nat, e: nat, y: nat)
    ensures var config := NatToString(f) + "F/" + NatToString(e) + "E+/" + NatToString(y) + "Y";
            SeatsOf(config) == Seats(map["F" := f, "E+" := e, "Y" := y], f + e + y)
  {
    var fs, es, ys := NatToString(f), NatToString(e), NatToString(y);
    var r3 := ys + "Y" + "";
    var r2 := es + "E+" + ([('/')] + r3);
    var r1 := fs + "F" + ([('/')] + r2);
    ThreeClassText(fs, es, ys);
    var t1, t2, t3 := SeatToken(f, "F"), SeatToken(e, "E+"), SeatToken(y, "Y");
    SeatTokensMatch(ys, "Y", "");
    assert SeatTokens(r3) == [t3];
    SlashedClass(e, "E+", r3);
    SlashedClass(f, "F", r2);
    Nest3(t1, t2, t3);
    assert SeatTokens(r1) == [t1, t2, t3];
    ThreeTokens(t1, t2, t3);
    assert LastCounts([t1, t2, t3]) == map["F" := f, "E+" := e, "Y" := y];
  }

  lemma ThreeTokens(t1: SeatToken, t2: SeatToken, t3: SeatToken)
    ensures TotalOf([t1, t2, t3]) == t1.count + t2.count + t3.count
    ensures LastCounts([t1, t2, t3]) == map[t1.cls := t1.count][t2.cls := t2.count][t3.cls := t3.count]
  {
    assert [t1, t2, t3][..2] == [t1, t2];
    assert [t1, t2][..1] == [t1];
    assert [t1][..0] == [];
    assert TotalOf([t1]) == t1.count;
    assert TotalOf([t1, t2]) == t1.count + t2.count;
    assert LastCounts([t1]) == map[t1.cls := t1.count];
    assert LastCounts([t1, t2]) == map[t1.cls := t1.count][t2.cls := t2.count];
  }

  lemma FourTokens(t1: SeatToken, t2: SeatToken, t3: SeatToken, t4: SeatToken)
    ensures TotalOf([t1, t2, t3, t4]) == t1.count + t2.count + t3.count + t4.count
    ensures LastCounts([t1, t2, t3, t4])
            == map[t1.cls := t1.count][t2.cls := t2.count][t3.cls := t3.count][t4.cls := t4.count]
  {
    assert [t1, t2, t3, t4][..3] == [t1, t2, t3];
    ThreeTokens(t1, t2, t3);
  }

  lemma Nest3(t1: SeatToken, t2: SeatToken, t3: SeatToken)
    ensures [t1] + ([t2] + [t3]) == [t1, t2, t3]
  {
  }

  lemma Nest4(t1: SeatToken, t2: SeatToken, t3: SeatToken, t4: SeatToken)
    ensures [t1] + ([t2] + ([t3] + [t4])) == [t1, t2, t3, t4]
  {
  }

  /** The slashes of a three-class configuration, each split off its class. */
  lemma ThreeClassText(fs: string, es: string, ys: string)
    ensures fs + "F/" + es + "E+/" + ys + "Y" == fs + "F" + ([('/')] + (es + "E+" + ([('/')] + (ys + "Y" + ""))))
  {
    assert "F/" == "F" + [('/')] && "E+/" == "E+" + [('/')];
    assert ys + "Y" + "" == ys + "Y";
  }

  /** The slashes of a four-class configuration, each split off its class. */
  lemma FourClassText(js: string, ps: string, es: string, ys: string)
    ensures js + "J/" + ps + "PE/" + es + "E+/" + ys + "Y"
            == js + "J" + ([('/')] + (ps + "PE" + ([('/')] + (es + "E+" + ([('/')] + (ys + "Y" + ""))))))
  {
    assert "J/" == "J" + [('/')] && "PE/" == "PE" + [('/')] && "E+/" == "E+" + [('/')];
    assert ys + "Y" + "" == ys + "Y";
  }

  /** A configuration `<j>J/<pe>PE/<e>E+/<y>Y`, as `fix-fleet.cjs` writes them for
      the 787-9, has the four classes with those counts, and their sum as total. */
  lemma FourClassSeats(j: nat, pe: nat, e: nat, y: nat)
    ensures var config := NatToString(j) + "J/" + NatToString(pe) + "PE/" + NatToString(e) + "E+/"
                          + NatToString(y) + "Y";
            SeatsOf(config) == Seats(map["J" := j, "PE" := pe, "E+" := e, "Y" := y], j + pe + e + y)
  {
    var js, ps, es, ys := NatToString(j), NatToString(pe), NatToString(e), NatToString(y);
    var r4 := ys + "Y" + "";
    var r3 := es + "E+" + ([('/')] + r4);
    var r2 := ps + "PE" + ([('/')] + r3);
    var r1 := js + "J" + ([('/')] + r2);
    FourClassText(js, ps, es, ys);
    var t1, t2, t3, t4 := SeatToken(j, "J"), SeatToken(pe, "PE"), SeatToken(e, "E+"), SeatToken(y, "Y");
    SeatTokensMatch(ys, "Y", "");
    assert SeatTokens(r4) == [t4];
    SlashedClass(e, "E+", r4);
    SlashedClass(pe, "PE", r3);
    SlashedClass(j, "J", r2);
    Nest4(t1, t2, t3, t4);
    assert SeatTokens(r1) == [t1, t2, t3, t4];
    FourTokens(t1, t2, t3, t4);
    assert LastCounts([t1, t2, t3, t4]) == map["J" := j, "PE" := pe, "E+" := e, "Y" := y];
  }

  // ---------------------------------------------------------------------------
  // isValidReg

  /** `reg && /^N\d/.test(reg) && reg.length >= 4`. */
  predicate IsValidReg(reg: string) {
    reg != "" && |reg| >= 2 && reg[0] == 'N' && IsDigit(reg[1]) && |reg| >= 4
  }

  // ---------------------------------------------------------------------------
  // Header row and column map

  /** `/word\s*tail/` matches somewhere in `s`: `word`, any white space, then `tail`. */
  predicate HasSpaced(s: string, word: string, tail: string)
    decreases |s|
  {
    || (StartsWith(s, word) && StartsWith(TrimStart(s[|word|..]), tail))
    || (s != [] && HasSpaced(s[1..], word, tail))
  }

  /** The columns the script records. */
  datatype Column = Reg | Ac | Delivery | Wifi | Config | Status | Ife | Power | SeatMap

  /** The case-insensitive test that assigns header `h` to column `col`. */
  predicate Names(col: Column, h: string) {
    var l := ToLower(h);
    match col
    case Reg => HasSpaced(l, "reg", "#")
    case Ac => HasSpaced(l, "ac", "#")
    case Delivery => Contains(l, "deliver") || Contains(l, "delvr")
    case Wifi => Contains(l, "wifi")
    case Config => Contains(l, "config")
    case Status => Contains(l, "status")
    case Ife => Contains(l, "ife")
    case Power => Contains(l, "power")
    case SeatMap => HasSpaced(l, "seat", "map")
  }

  /** The test the header search applies to each field: a `Reg #` column. */
  predicate IsRegHeader(h: string) {
    Names(Reg, h)
  }

  /** `cols.findIndex(p) >= 0`: some field passes `p`. */
  predicate AnyPasses(cols: seq<string>, p: string -> bool) {
    cols != [] && (p(cols[0]) || AnyPasses(cols[1..], p))
  }

  lemma {:induction false} AnyPassesAt(cols: seq<string>, p: string -> bool)
    ensures AnyPasses(cols, p) <==> exists k :: 0 <= k < |cols| && p(cols[k])
  {
    if cols != [] {
      AnyPassesAt(cols[1..], p);
      if exists k :: 0 <= k < |cols| && p(cols[k]) {
        var k :| 0 <= k < |cols| && p(cols[k]);
        if k > 0 { assert cols[1..][k - 1] == cols[k]; }
      }
    }
  }

  /** `cols.findIndex(c => /Reg\s*#/i.test(c)) >= 0`. */
  predicate HasRegColumn(cols: seq<string>) {
    AnyPasses(cols, IsRegHeader)
  }

  /** Whether `line` is a header row: one of its fields is a `Reg #` column. */
  predicate IsHeaderLine(line: string) {
    HasRegColumn(CsvFields(line))
  }

  /** The first of lines `i..` among the first five that passes `isHeader`, or -1
      when none does. The test is a parameter so that the search can be reasoned
      about apart from it. */
  function HeaderFrom(lines: seq<string>, i: nat, isHeader: string -> bool): (h: int)
    ensures -1 <= h < |lines|
    decreases 5 - i
  {
    if i >= 5 || i >= |lines| then -1
    else if isHeader(lines[i]) then i
    else HeaderFrom(lines, i + 1, isHeader)
  }

  /** `headerIdx`: the header row of a tab, -1 when there is none. */
  function HeaderIndex(lines: seq<string>): int {
    HeaderFrom(lines, 0, IsHeaderLine)
  }

  lemma {:induction false} HeaderFromIsFirst(lines: seq<string>, i: nat, isHeader: string -> bool)
    requires i <= 5
    ensures var h := HeaderFrom(lines, i, isHeader);
            && (h >= 0 ==>
                  && i <= h < 5 && isHeader(lines[h])
                  && forall j :: i <= j < h ==> !isHeader(lines[j]))
            && (h < 0 ==> h == -1 && forall j :: i <= j < 5 && j < |lines| ==> !isHeader(lines[j]))
    decreases 5 - i
  {
    if i < 5 && i < |lines| && !isHeader(lines[i]) {
      HeaderFromIsFirst(lines, i + 1, isHeader);
    }
  }

  /** The header is the first of the first five lines holding a `Reg #` column; when
      none does, there is no header and the tab is skipped. */
  lemma HeaderIsFirst(lines: seq<string>)
    ensures var h := HeaderIndex(lines);
            && (h >= 0 ==>
                  && h < 5 && h < |lines| && IsHeaderLine(lines[h])
                  && forall j :: 0 <= j < h ==> !IsHeaderLine(lines[j]))
            && (h < 0 ==> h == -1 && forall j :: 0 <= j < 5 && j < |lines| ==> !IsHeaderLine(lines[j]))
  {
    HeaderFromIsFirst(lines, 0, IsHeaderLine);
  }

  /** `cols.findIndex(p)`, or `None` for -1: the first field that passes `p`. */
  method FindIndex(cols: seq<string>, p: string -> bool) returns (k: Option<nat>)
    ensures k.Some? ==> k.value < |cols| && p(cols[k.value])
                        && forall j :: 0 <= j < k.value ==> !p(cols[j])
    ensures k.None? <==> !AnyPasses(cols, p)
  {
    AnyPassesAt(cols, p);
    var i := 0;
    while i < |cols|
      invariant 0 <= i <= |cols|
      invariant forall j :: 0 <= j < i ==> !p(cols[j])
    {
      if p(cols[i]) {
        return Some(i);
      }
      i := i + 1;
    }
    return None;
  }

  /** The header search loop: lines `0 .. min(5, lines.length) - 1`, stopping at the
      first with a `Reg #` column. */
  method FindHeader(lines: seq<string>) returns (headerIdx: int, headers: seq<string>)
    ensures headerIdx == HeaderIndex(lines)
    ensures headerIdx >= 0 ==> headerIdx < |lines| && headers == CsvFields(lines[headerIdx])
  {
    headerIdx := -1;
    headers := [];
    var n := if |lines| < 5 then |lines| else 5;
    var i := 0;
    while i < n
      invariant 0 <= i <= n
      invariant HeaderFrom(lines, i, IsHeaderLine) == HeaderIndex(lines)
    {
      var cols := ParseCsvLine(lines[i]);
      var regCol := FindIndex(cols, IsRegHeader);
      if regCol.Some? {
        headerIdx := i;
        headers := cols;
        break;
      }
      i := i + 1;
    }
  }

  /** The `colMap` object: for each column, the index of the header naming it, when
      one does (a property never set reads as `undefined`). */
  datatype ColMap = ColMap(reg: Option<nat>, ac: Option<nat>, delivery: Option<nat>, wifi: Option<nat>,
                           config: Option<nat>, status: Option<nat>, ife: Option<nat>,
                           power: Option<nat>, seatMap: Option<nat>)

  const NoColumns := ColMap(None, None, None, None, None, None, None, None, None)

  /** The property of `colMap` that holds column `c`. */
  function Get(m: ColMap, c: Column): Option<nat> {
    match c
    case Reg => m.reg
    case Ac => m.ac
    case Delivery => m.delivery
    case Wifi => m.wifi
    case Config => m.config
    case Status => m.status
    case Ife => m.ife
    case Power => m.power
    case SeatMap => m.seatMap
  }

  /** Recording header `h` at index `i`: every column whose test `h` passes points
      at `i`; the others keep their index. The tests are a parameter, so that the
      bookkeeping is reasoned about apart from them. */
  function Mark(names: (Column, string) -> bool, m: ColMap, h: string, i: nat): ColMap {
    ColMap(if names(Reg, h) then Some(i) else m.reg,
           if names(Ac, h) then Some(i) else m.ac,
           if names(Delivery, h) then Some(i) else m.delivery,
           if names(Wifi, h) then Some(i) else m.wifi,
           if names(Config, h) then Some(i) else m.config,
           if names(Status, h) then Some(i) else m.status,
           if names(Ife, h) then Some(i) else m.ife,
           if names(Power, h) then Some(i) else m.power,
           if names(SeatMap, h) then Some(i) else m.seatMap)
  }

  /** The column map built over the first `n` of `headers`. */
  function ColumnMapUpTo(names: (Column, string) -> bool, headers: seq<string>, n: nat): ColMap
    requires n <= |headers|
  {
    if n == 0 then NoColumns else Mark(names, ColumnMapUpTo(names, headers, n - 1), headers[n - 1], n - 1)
  }

  /** The column map built over `headers`. */
  function ColumnMap(headers: seq<string>): ColMap {
    ColumnMapUpTo(Names, headers, |headers|)
  }

  /** The last of the first `n` headers that passes the test of column `c`. */
  function LastNamed(names: (Column, string) -> bool, headers: seq<string>, n: nat, c: Column): (r: Option<nat>)
    requires n <= |headers|
    ensures r.Some? ==> r.value < n
  {
    if n == 0 then None
    else if names(c, headers[n - 1]) then Some(n - 1)
    else LastNamed(names, headers, n - 1, c)
  }

  /** `LastNamed` is the last header that passes the test, and none passes when it
      finds none. */
  lemma {:induction false} LastNamedIsLast(names: (Column, string) -> bool, headers: seq<string>, n: nat, c: Column)
    requires n <= |headers|
    ensures var r := LastNamed(names, headers, n, c);
            && (r.Some? ==> names(c, headers[r.value]) && forall j :: r.value < j < n ==> !names(c, headers[j]))
            && (r.None? ==> forall j :: 0 <= j < n ==> !names(c, headers[j]))
  {
    if n > 0 && !names(c, headers[n - 1]) {
      LastNamedIsLast(names, headers, n - 1, c);
    }
  }

  /** The column map after `n` headers holds, for each column, its last header. */
  lemma {:induction false} ColumnMapUpToLast(names: (Column, string) -> bool, headers: seq<string>, n: nat, c: Column)
    requires n <= |headers|
    ensures Get(ColumnMapUpTo(names, headers, n), c) == LastNamed(names, headers, n, c)
  {
    if n > 0 {
      ColumnMapUpToLast(names, headers, n - 1, c);
    }
  }

  /** A column is mapped exactly when some header names it, and it is mapped to the
      last such header. */
  lemma ColumnMapIsLast(headers: seq<string>, c: Column)
    ensures Get(ColumnMap(headers), c).Some? <==> exists i :: 0 <= i < |headers| && Names(c, headers[i])
    ensures Get(ColumnMap(headers), c).Some? ==>
              var i := Get(ColumnMap(headers), c).value;
              && i < |headers| && Names(c, headers[i])
              && forall j :: i < j < |headers| ==> !Names(c, headers[j])
  {
    ColumnMapUpToLast(Names, headers, |headers|, c);
    LastNamedIsLast(Names, headers, |headers|, c);
  }

  /** `headers.forEach((h, i) => { if (/reg\s*#/i.test(h)) colMap.reg = i; ... })`. */
  method MapColumns(headers: seq<string>) returns (colMap: ColMap)
    ensures colMap == ColumnMap(headers)
  {
    colMap := NoColumns;
    for i := 0 to |headers|
      invariant colMap == ColumnMapUpTo(Names, headers, i)
    {
      colMap := Mark(Names, colMap, headers[i], i);
    }
  }

  /** `cols[colMap.x] || ''`: an unmapped column or a missing cell reads as `''`. */
  function Cell(cols: seq<string>, colMap: ColMap, col: Column): string {
    match Get(colMap, col)
    case None => ""
    case Some(k) => if k < |cols| then cols[k] else ""
  }

  // ---------------------------------------------------------------------------
  // Type refinement

  /** A lookup in one of the model-code tables. */
  function Lookup(table: seq<(string, string)>, key: string): (r: Option<string>)
    ensures r.Some? ==> exists k :: 0 <= k < |table| && table[k] == (key, r.value)
    ensures r.None? ==> forall k :: 0 <= k < |table| ==> table[k].0 != key
  {
    if table == [] then None
    else if table[0].0 == key then Some(table[0].1)
    else Lookup(table[1..], key)
  }

  const Model767 := [("763ER", "767-300ER"), ("76A", "767-300ER"), ("76Q", "767-300ER"),
                     ("764ER", "767-400ER"), ("764", "767-400ER")]

  const Model777 := [("77G", "777-200"), ("77M", "777-200"),
                     ("772ER", "777-200ER"), ("77U", "777-200ER"), ("77N", "777-200ER"),
                     ("77O", "777-200ER"), ("77E", "777-200ER")]

  const Model739 := [("739", "737-900"), ("73C", "737-900"),
                     ("739ER", "737-900ER"), ("73W", "737-900ER")]

  /** `yr && yr >= 2008` for `yr = parseInt(delivery)`. */
  predicate DeliveredFrom2008(delivery: string) {
    var yr := ParseIntAuto(delivery);
    yr.Some? && yr.value != 0 && yr.value >= 2008
  }

  /** The type of a row of the tab with base type `baseType`, from its model code
      (first column) and its delivery field. */
  function RefineType(baseType: string, model: string, delivery: string): string {
    if baseType == "767" then
      match Lookup(Model767, model)
      case Some(t) => t
      case None => if Contains(model, "764") then "767-400ER" else "767-300ER"
    else if baseType == "777-200" then
      match Lookup(Model777, model)
      case Some(t) => t
      case None => if Contains(model, "ER") then "777-200ER" else "777-200"
    else if baseType == "787-8/10" then
      if model == "787-10" || model == "78J" then "787-10" else "787-8"
    else if baseType == "737-900/900ER" then
      match Lookup(Model739, model)
      case Some(t) => t
      case None => if DeliveredFrom2008(delivery) then "737-900ER" else "737-900"
    else baseType
  }

  /** What each split decides: the 767 and 777-200 tabs split into their two
      variants, the 787-8/10 tab yields `787-10` exactly for the model codes
      `787-10` and `78J`, a 737-900 without a table entry is an ER exactly when
      delivered in 2008 or later, and every other tab keeps its base type. */
  lemma RefineTypeCases(baseType: string, model: string, delivery: string)
    ensures var t := RefineType(baseType, model, delivery);
            && (baseType == "767" ==> t in {"767-300ER", "767-400ER"})
            && (baseType == "767" && Lookup(Model767, model).None? ==> (t == "767-400ER" <==> Contains(model, "764")))
            && (baseType == "777-200" ==> t in {"777-200", "777-200ER"})
            && (baseType == "777-200" && Lookup(Model777, model).None? ==> (t == "777-200ER" <==> Contains(model, "ER")))
            && (baseType == "787-8/10" ==> (t == "787-10" <==> model in {"787-10", "78J"}) && t in {"787-8", "787-10"})
            && (baseType == "737-900/900ER" ==> t in {"737-900", "737-900ER"})
            && (baseType == "737-900/900ER" && Lookup(Model739, model).None? ==>
                  (t == "737-900ER" <==> DeliveredFrom2008(delivery)))
            && (baseType !in {"767", "777-200", "787-8/10", "737-900/900ER"} ==> t == baseType)
  {
    var t := RefineType(baseType, model, delivery);
    if baseType == "767" && Lookup(Model767, model).Some? {
      var k :| 0 <= k < |Model767| && Model767[k] == (model, t);
    }
    if baseType == "777-200" && Lookup(Model777, model).Some? {
      var k :| 0 <= k < |Model777| && Model777[k] == (model, t);
    }
    if baseType == "737-900/900ER" && Lookup(Model739, model).Some? {
      var k :| 0 <= k < |Model739| && Model739[k] == (model, t);
    }
  }

  /** Four digits in a row start at `j`. */
  predicate FourDigitsAt(s: string, j: int) {
    0 <= j && j + 4 <= |s| && IsDigits(s[j..j + 4])
  }

  /** `delivery.match(/(\d{4})/)`: the first four digits in a row, or `''`. */
  function FirstYear(s: string): (y: string)
    ensures y == "" || (|y| == 4 && IsDigits(y))
    decreases |s|
  {
    if |s| < 4 then ""
    else if FourDigitsAt(s, 0) then s[..4]
    else FirstYear(s[1..])
  }

  /** The year is the leftmost run of four digits; `''` means there is none. */
  lemma {:induction false} FirstYearIsLeftmost(s: string)
    ensures FirstYear(s) != "" ==>
              exists i :: FourDigitsAt(s, i) && s[i..i + 4] == FirstYear(s)
                && forall j :: 0 <= j < i ==> !FourDigitsAt(s, j)
    ensures FirstYear(s) == "" ==> forall j :: !FourDigitsAt(s, j)
    decreases |s|
  {
    if |s| >= 4 && !FourDigitsAt(s, 0) {
      FirstYearIsLeftmost(s[1..]);
      forall j | 1 <= j
        ensures FourDigitsAt(s, j) == FourDigitsAt(s[1..], j - 1)
      {
        if j + 4 <= |s| { assert s[j..j + 4] == s[1..][j - 1..j + 3]; }
      }
      if FirstYear(s) != "" {
        var i :| FourDigitsAt(s[1..], i) && s[1..][i..i + 4] == FirstYear(s)
                 && forall j :: 0 <= j < i ==> !FourDigitsAt(s[1..], j);
        assert FourDigitsAt(s, i + 1) && s[i + 1..i + 5] == FirstYear(s);
      } else {
        forall j ensures !FourDigitsAt(s, j) {
          if j >= 1 { assert !FourDigitsAt(s[1..], j - 1); }
        }
      }
    } else if |s| >= 4 {
      assert s[0..4] == s[..4];
    }
  }

  // ---------------------------------------------------------------------------
  // Fleet entries

  /** A fleet entry: registration, type, aircraft number, WiFi, configuration,
      status, delivery year, IFE, power, and the parsed seats when at least one
      class was found. */
  datatype Entry = Entry(r: string, t: string, a: string, w: string, c: string, s: string,
                         d: string, i: string, p: string, seats: Option<Seats>)

  /** The entry a data row of a tab with base type `baseType` becomes. */
  function MakeEntry(baseType: string, cols: seq<string>, colMap: ColMap): Entry
    requires |cols| > 0
  {
    var delivery := RemoveSpaces(Cell(cols, colMap, Delivery));
    var config := Cell(cols, colMap, Config);
    var parsed := SeatsOf(config);
    Entry(RemoveSpaces(Cell(cols, colMap, Reg)), RefineType(baseType, Trim(cols[0]), delivery),
          RemoveSpaces(Cell(cols, colMap, Ac)), Cell(cols, colMap, Wifi), config,
          Cell(cols, colMap, Status), FirstYear(delivery), Cell(cols, colMap, Ife),
          Cell(cols, colMap, Power), if parsed.seats != map[] then Some(parsed) else None)
  }

  /** The entry construction of the row loop. */
  method BuildEntry(baseType: string, cols: seq<string>, colMap: ColMap, reg: string)
    returns (entry: Entry)
    requires |cols| > 0 && reg == RemoveSpaces(Cell(cols, colMap, Reg))
    ensures entry == MakeEntry(baseType, cols, colMap)
    ensures entry.r == reg
    ensures entry.seats.Some? ==> entry.seats.value.seats != map[] && entry.seats.value == SeatsOf(entry.c)
    ensures entry.d == "" || (|entry.d| == 4 && IsDigits(entry.d))
  {
    var ac := RemoveSpaces(Cell(cols, colMap, Ac));
    var delivery := RemoveSpaces(Cell(cols, colMap, Delivery));
    var config := Cell(cols, colMap, Config);
    var model := Trim(cols[0]);
    var year := FirstYear(delivery);
    var parsed := ParseSeats(config);
    entry := Entry(reg, RefineType(baseType, model, delivery), ac, Cell(cols, colMap, Wifi), config,
                   Cell(cols, colMap, Status), year, Cell(cols, colMap, Ife), Cell(cols, colMap, Power), None);
    if parsed.seats != map[] {
      entry := entry.(seats := Some(parsed));
    }
  }

  /** Some entry of the fleet has registration `reg`. */
  predicate HasReg(fleet: seq<Entry>, reg: string) {
    exists k :: 0 <= k < |fleet| && fleet[k].r == reg
  }

  predicate UniqueRegs(fleet: seq<Entry>) {
    forall j, k :: 0 <= j < k < |fleet| ==> fleet[j].r != fleet[k].r
  }

  predicate AllValid(fleet: seq<Entry>) {
    forall k :: 0 <= k < |fleet| ==> IsValidReg(fleet[k].r)
  }

  /** `fleet.findIndex(e => e.r === reg)` followed by `splice(oldIdx, 1)`: the
      first entry with that registration is removed. */
  function RemoveReg(fleet: seq<Entry>, reg: string): (r: seq<Entry>)
    ensures !HasReg(fleet, reg) ==> r == fleet
  {
    if fleet == [] then []
    else if fleet[0].r == reg then fleet[1..]
    else
      assert !HasReg(fleet, reg) ==> !HasReg(fleet[1..], reg) by {
        if HasReg(fleet[1..], reg) {
          var k :| 0 <= k < |fleet[1..]| && fleet[1..][k].r == reg;
          assert fleet[k + 1].r == reg;
        }
      }
      [fleet[0]] + RemoveReg(fleet[1..], reg)
  }

  /** Removal takes out exactly the first entry with the registration. */
  lemma {:induction false} RemoveRegAt(fleet: seq<Entry>, reg: string, k: nat)
    requires k < |fleet| && fleet[k].r == reg && forall j :: 0 <= j < k ==> fleet[j].r != reg
    ensures RemoveReg(fleet, reg) == fleet[..k] + fleet[k + 1..]
  {
    if k > 0 {
      RemoveRegAt(fleet[1..], reg, k - 1);
      assert fleet[1..][..k - 1] == fleet[1..k];
      assert fleet[1..][k..] == fleet[k + 1..];
      assert [fleet[0]] + fleet[1..k] == fleet[..k];
    }
  }

  /** The name of the tab whose rows replace an earlier entry with the same
      registration (the newer 737 MAX 9 deliveries). */
  const ReplacingGid := "1855629492"

  /** The bookkeeping for one valid row: a new registration is appended; a repeat is
      moved to the end with the new data when the tab is `ReplacingGid`, and dropped
      otherwise. */
  function AddEntry(fleet: seq<Entry>, gid: string, e: Entry): seq<Entry> {
    if HasReg(fleet, e.r) then
      if gid == ReplacingGid then RemoveReg(fleet, e.r) + [e] else fleet
    else fleet + [e]
  }

  /** Cutting out entry `k` shifts the later entries down by one. */
  lemma Splice(fleet: seq<Entry>, k: nat)
    requires k < |fleet|
    ensures var r := fleet[..k] + fleet[k + 1..];
            && |r| == |fleet| - 1
            && (forall j :: 0 <= j < k ==> r[j] == fleet[j])
            && (forall j :: k <= j < |r| ==> r[j] == fleet[j + 1])
  {
  }

  /** Cutting out entry `k` keeps unique registrations unique and drops the only
      entry with `fleet[k].r`. */
  lemma SpliceRegs(fleet: seq<Entry>, k: nat)
    requires k < |fleet| && UniqueRegs(fleet)
    ensures UniqueRegs(fleet[..k] + fleet[k + 1..])
    ensures !HasReg(fleet[..k] + fleet[k + 1..], fleet[k].r)
  {
    Splice(fleet, k);
    var r := fleet[..k] + fleet[k + 1..];
    forall a, b | 0 <= a < b < |r| ensures r[a].r != r[b].r {
      var a', b' := if a < k then a else a + 1, if b < k then b else b + 1;
      assert r[a] == fleet[a'] && r[b] == fleet[b'];
    }
    forall j | 0 <= j < |r| ensures r[j].r != fleet[k].r {
      var j' := if j < k then j else j + 1;
      assert r[j] == fleet[j'];
    }
  }

  /** Cutting out entry `k` keeps exactly the entries other than `fleet[k]`'s
      registration, when registrations are unique. */
  lemma SpliceMembers(fleet: seq<Entry>, k: nat)
    requires k < |fleet| && UniqueRegs(fleet)
    ensures forall x :: x in fleet[..k] + fleet[k + 1..] <==> x in fleet && x.r != fleet[k].r
  {
    Splice(fleet, k);
    SpliceRegs(fleet, k);
    var r := fleet[..k] + fleet[k + 1..];
    forall x ensures x in r <==> x in fleet && x.r != fleet[k].r {
      if x in r {
        var j :| 0 <= j < |r| && r[j] == x;
        var j' := if j < k then j else j + 1;
        assert fleet[j'] == x;
      }
      if x in fleet && x.r != fleet[k].r {
        var j :| 0 <= j < |fleet| && fleet[j] == x;
        if j < k { assert r[j] == x; } else { assert r[j - 1] == x; }
      }
    }
  }

  /** In a fleet with unique registrations, removing one registration's entry keeps
      every other entry and leaves no entry with that registration. */
  lemma RemoveRegKeepsOthers(fleet: seq<Entry>, reg: string)
    requires UniqueRegs(fleet)
    ensures var r := RemoveReg(fleet, reg);
            && UniqueRegs(r)
            && !HasReg(r, reg)
            && (forall x :: x in r <==> x in fleet && x.r != reg)
  {
    if HasReg(fleet, reg) {
      var k :| 0 <= k < |fleet| && fleet[k].r == reg;
      RemoveRegAt(fleet, reg, k);
      SpliceRegs(fleet, k);
      SpliceMembers(fleet, k);
    } else {
      forall x | x in fleet ensures x.r != reg {
        var j :| 0 <= j < |fleet| && fleet[j] == x;
      }
    }
  }

  /** One valid row keeps the registrations unique and valid, and never loses
      another registration's entry. A repeat from `ReplacingGid` replaces the
      earlier entry; a repeat from any other tab leaves the fleet as it was. */
  lemma AddEntryKeepsUnique(fleet: seq<Entry>, gid: string, e: Entry)
    requires UniqueRegs(fleet) && AllValid(fleet) && IsValidReg(e.r)
    ensures var r := AddEntry(fleet, gid, e);
            && UniqueRegs(r) && AllValid(r)
            && HasReg(r, e.r)
            && (forall x :: x in fleet && x.r != e.r ==> x in r)
            && (forall x :: x in r ==> x in fleet || x == e)
            && (HasReg(fleet, e.r) && gid != ReplacingGid ==> r == fleet)
            && (!HasReg(fleet, e.r) || gid == ReplacingGid ==> r[|r| - 1] == e)
  {
    var r := AddEntry(fleet, gid, e);
    if HasReg(fleet, e.r) {
      if gid == ReplacingGid {
        RemoveRegKeepsOthers(fleet, e.r);
        var rest := RemoveReg(fleet, e.r);
        assert forall k :: 0 <= k < |rest| ==> rest[k] in rest;
        forall k | 0 <= k < |rest| ensures IsValidReg(rest[k].r) {
          assert rest[k] in fleet;
          var j :| 0 <= j < |fleet| && fleet[j] == rest[k];
        }
        assert r[|r| - 1].r == e.r;
      }
    } else {
      assert forall k :: 0 <= k < |fleet| ==> fleet[k].r != e.r;
      assert r[|r| - 1].r == e.r;
    }
  }

  /** The registrations after one valid row are those before, plus the row's. */
  lemma AddEntryRegs(fleet: seq<Entry>, gid: string, e: Entry, x: string)
    requires UniqueRegs(fleet)
    ensures HasReg(AddEntry(fleet, gid, e), x) <==> HasReg(fleet, x) || x == e.r
  {
    var r := AddEntry(fleet, gid, e);
    if HasReg(fleet, e.r) && gid == ReplacingGid {
      RemoveRegKeepsOthers(fleet, e.r);
      var rest := RemoveReg(fleet, e.r);
      if HasReg(fleet, x) && x != e.r {
        var k :| 0 <= k < |fleet| && fleet[k].r == x;
        assert fleet[k] in rest;
        var j :| 0 <= j < |rest| && rest[j] == fleet[k];
        assert r[j].r == x;
      }
      if HasReg(r, x) && x != e.r {
        var k :| 0 <= k < |r| && r[k].r == x;
        assert k < |rest| && r[k] == rest[k] && rest[k] in rest;
        var j :| 0 <= j < |fleet| && fleet[j] == rest[k];
      }
      assert r[|r| - 1].r == e.r;
    } else if !HasReg(fleet, e.r) {
      assert r[|r| - 1].r == e.r;
      if HasReg(fleet, x) {
        var k :| 0 <= k < |fleet| && fleet[k].r == x;
        assert r[k].r == x;
      }
      if HasReg(r, x) && x != e.r {
        var k :| 0 <= k < |r| && r[k].r == x;
        assert k < |fleet| && fleet[k].r == x;
      }
    }
  }

  // ---------------------------------------------------------------------------
  // The row loop and the tab loop

  /** The types the fleet is sorted by, in order. */
  const TypeOrder := ["A319", "A320", "A321neo",
                      "737-700", "737-800", "737-900", "737-900ER", "737 MAX 8", "737 MAX 9",
                      "757-200", "757-300",
                      "767-300ER", "767-400ER",
                      "777-200", "777-200ER", "777-300ER",
                      "787-8", "787-9", "787-10"]

  /** Every registration is valid and none repeats. */
  predicate RegsOk(fleet: seq<Entry>) {
    UniqueRegs(fleet) && AllValid(fleet)
  }

  /** Every entry has one of the listed types. */
  predicate TypesListed(fleet: seq<Entry>) {
    forall k :: 0 <= k < |fleet| ==> fleet[k].t in TypeOrder
  }

  /** Every entry has a valid, unique registration and one of the listed types. */
  predicate WellFormed(fleet: seq<Entry>) {
    RegsOk(fleet) && TypesListed(fleet)
  }

  /** A tab of the spreadsheet: its GID and the aircraft type of its rows. */
  datatype Sheet = Sheet(gid: string, baseType: string)

  /** The tabs in the order they are read (the integer-like keys of the GID map,
      ascending; the tab of future orders is not among them). */
  const GidTypeMap := [
    Sheet("0", "A319"), Sheet("1", "A320"), Sheet("3", "737-700"), Sheet("4", "737-800"),
    Sheet("5", "737-900/900ER"), Sheet("6", "737 MAX 8"), Sheet("7", "757-200"),
    Sheet("8", "757-300"), Sheet("10", "767"), Sheet("12", "777-200"), Sheet("13", "787-8/10"),
    Sheet("15", "777-300ER"), Sheet("70572532", "737 MAX 9"), Sheet("948315825", "A321neo"),
    Sheet("1855629492", "737 MAX 9"), Sheet("2098141434", "787-9")]

  predicate IsBaseType(baseType: string) {
    exists k :: 0 <= k < |GidTypeMap| && GidTypeMap[k].baseType == baseType
  }

  /** Every row of every tab gets one of the listed types. */
  lemma RefinedTypeListed(baseType: string, model: string, delivery: string)
    requires IsBaseType(baseType)
    ensures RefineType(baseType, model, delivery) in TypeOrder
  {
    RefineTypeCases(baseType, model, delivery);
  }

  /** One line after the header: a blank line or a row without a valid
      registration is skipped, any other row goes through `AddEntry`. */
  function RowStep(fleet: seq<Entry>, gid: string, baseType: string, colMap: ColMap,
                   line: string): seq<Entry>
  {
    var l := Trim(line);
    if l == "" then fleet
    else
      var cols := CsvFields(l);
      if !IsValidReg(RemoveSpaces(Cell(cols, colMap, Reg))) then fleet
      else AddEntry(fleet, gid, MakeEntry(baseType, cols, colMap))
  }

  /** The lines of a tab from index `i` on, one after the other. */
  function Rows(fleet: seq<Entry>, gid: string, baseType: string, colMap: ColMap,
                lines: seq<string>, i: nat): seq<Entry>
    decreases |lines| - i
  {
    if i >= |lines| then fleet
    else Rows(RowStep(fleet, gid, baseType, colMap, lines[i]), gid, baseType, colMap, lines, i + 1)
  }

  /** The lines after the header at `h`, read through the columns it names. */
  function RowsAfter(fleet: seq<Entry>, gid: string, baseType: string, lines: seq<string>, h: nat): seq<Entry> {
    if h < |lines| then Rows(fleet, gid, baseType, ColumnMap(CsvFields(lines[h])), lines, h + 1)
    else fleet
  }

  /** The rows of a tab, given its header index: nothing when no header was found
      (`if (headerIdx < 0) continue`). */
  function TabRows(fleet: seq<Entry>, gid: string, baseType: string,
                   lines: seq<string>, header: int): seq<Entry>
  {
    if header < 0 then fleet else RowsAfter(fleet, gid, baseType, lines, header)
  }

  /** One tab: a missing file or a tab without a header row adds nothing; otherwise
      the lines after the header go through the row loop. */
  function SheetStep(fleet: seq<Entry>, sheet: Sheet, files: map<string, string>): seq<Entry> {
    if sheet.gid !in files then fleet
    else
      var lines := Split(files[sheet.gid], '\n');
      TabRows(fleet, sheet.gid, sheet.baseType, lines, HeaderIndex(lines))
  }

  /** The tabs `sheets`, one after the other. */
  function Sheets(fleet: seq<Entry>, sheets: seq<Sheet>, files: map<string, string>): seq<Entry>
    decreases |sheets|
  {
    if sheets == [] then fleet
    else Sheets(SheetStep(fleet, sheets[0], files), sheets[1..], files)
  }

  /** The fleet before sorting; `files` maps a GID to the text of its CSV file. */
  function UnsortedFleet(files: map<string, string>): seq<Entry> {
    Sheets([], GidTypeMap, files)
  }

  /** A row keeps the registrations valid and unique and never loses one; the only
      registration it can add is its own. */
  lemma RowStepKeepsRegs(fleet: seq<Entry>, gid: string, baseType: string, colMap: ColMap,
                         line: string)
    requires RegsOk(fleet)
    ensures RegsOk(RowStep(fleet, gid, baseType, colMap, line))
    ensures forall x :: HasReg(fleet, x) ==> HasReg(RowStep(fleet, gid, baseType, colMap, line), x)
    ensures forall x :: HasReg(RowStep(fleet, gid, baseType, colMap, line), x) && !HasReg(fleet, x) ==>
              x == RemoveSpaces(Cell(CsvFields(Trim(line)), colMap, Reg))
  {
    var l := Trim(line);
    if l != "" {
      var cols := CsvFields(l);
      if IsValidReg(RemoveSpaces(Cell(cols, colMap, Reg))) {
        var e := MakeEntry(baseType, cols, colMap);
        AddEntryKeepsUnique(fleet, gid, e);
        forall x ensures HasReg(AddEntry(fleet, gid, e), x) <==> HasReg(fleet, x) || x == e.r {
          AddEntryRegs(fleet, gid, e, x);
        }
      }
    }
  }

  /** Every entry's type passes `listed`. The test is a parameter, so that the row
      and tab loops are reasoned about apart from the list of types. */
  predicate TypesIn(fleet: seq<Entry>, listed: string -> bool) {
    forall k :: 0 <= k < |fleet| ==> listed(fleet[k].t)
  }

  /** Every type a row of a tab with base type `baseType` can get passes `listed`. */
  ghost predicate RefinesInto(baseType: string, listed: string -> bool) {
    forall model, delivery :: listed(RefineType(baseType, model, delivery))
  }

  /** Removing a registration keeps only entries that were there. */
  lemma {:induction false} RemoveRegFrom(fleet: seq<Entry>, reg: string)
    ensures forall x :: x in RemoveReg(fleet, reg) ==> x in fleet
  {
    if fleet != [] && fleet[0].r != reg {
      RemoveRegFrom(fleet[1..], reg);
      forall x | x in RemoveReg(fleet, reg) ensures x in fleet {
        if x != fleet[0] {
          assert x in RemoveReg(fleet[1..], reg);
          assert x in fleet[1..];
        }
      }
    }
  }

  /** A row adds no entry but its own. */
  lemma AddEntryFrom(fleet: seq<Entry>, gid: string, e: Entry)
    ensures forall x :: x in AddEntry(fleet, gid, e) ==> x in fleet || x == e
  {
    RemoveRegFrom(fleet, e.r);
  }

  /** A row gives its entry a type its tab refines into. */
  lemma RowStepTypes(fleet: seq<Entry>, gid: string, baseType: string, colMap: ColMap,
                     line: string, listed: string -> bool)
    requires TypesIn(fleet, listed) && RefinesInto(baseType, listed)
    ensures TypesIn(RowStep(fleet, gid, baseType, colMap, line), listed)
  {
    var l := Trim(line);
    if l != "" {
      var cols := CsvFields(l);
      if IsValidReg(RemoveSpaces(Cell(cols, colMap, Reg))) {
        var e := MakeEntry(baseType, cols, colMap);
        var r := AddEntry(fleet, gid, e);
        AddEntryFrom(fleet, gid, e);
        assert listed(e.t);
        forall k | 0 <= k < |r| ensures listed(r[k].t) {
          assert r[k] in r;
          if r[k] != e {
            var j :| 0 <= j < |fleet| && fleet[j] == r[k];
          }
        }
      }
    }
  }

  /** The row loop keeps every type listed. */
  lemma {:induction false} RowsTypes(fleet: seq<Entry>, gid: string, baseType: string,
                                     colMap: ColMap, lines: seq<string>, i: nat, listed: string -> bool)
    requires TypesIn(fleet, listed) && RefinesInto(baseType, listed)
    ensures TypesIn(Rows(fleet, gid, baseType, colMap, lines, i), listed)
    decreases |lines| - i
  {
    if i < |lines| {
      RowStepTypes(fleet, gid, baseType, colMap, lines[i], listed);
      RowsTypes(RowStep(fleet, gid, baseType, colMap, lines[i]), gid, baseType, colMap, lines, i + 1, listed);
    }
  }

  /** One tab keeps every type listed. */
  lemma SheetStepTypes(fleet: seq<Entry>, sheet: Sheet, files: map<string, string>, listed: string -> bool)
    requires TypesIn(fleet, listed) && RefinesInto(sheet.baseType, listed)
    ensures TypesIn(SheetStep(fleet, sheet, files), listed)
  {
    if sheet.gid in files {
      var lines := Split(files[sheet.gid], '\n');
      var h := HeaderIndex(lines);
      if 0 <= h < |lines| {
        RowsTypes(fleet, sheet.gid, sheet.baseType, ColumnMap(CsvFields(lines[h])), lines, h + 1, listed);
      }
    }
  }

  /** The tab loop keeps every type listed. */
  lemma {:induction false} SheetsTypes(fleet: seq<Entry>, sheets: seq<Sheet>, files: map<string, string>,
                                       listed: string -> bool)
    requires TypesIn(fleet, listed)
    requires forall k :: 0 <= k < |sheets| ==> RefinesInto(sheets[k].baseType, listed)
    ensures TypesIn(Sheets(fleet, sheets, files), listed)
    decreases |sheets|
  {
    if sheets != [] {
      SheetStepTypes(fleet, sheets[0], files, listed);
      assert forall k :: 0 <= k < |sheets[1..]| ==> sheets[1..][k] == sheets[k + 1];
      SheetsTypes(SheetStep(fleet, sheets[0], files), sheets[1..], files, listed);
    }
  }

  /** One of the types the fleet is sorted by. */
  predicate IsListedType(t: string) {
    t in TypeOrder
  }

  /** Whatever the files hold, every entry read from the tabs has a listed type. */
  lemma UnsortedFleetTypes(files: map<string, string>)
    ensures TypesListed(UnsortedFleet(files))
  {
    forall k | 0 <= k < |GidTypeMap| ensures RefinesInto(GidTypeMap[k].baseType, IsListedType) {
      forall model, delivery ensures IsListedType(RefineType(GidTypeMap[k].baseType, model, delivery)) {
        RefinedTypeListed(GidTypeMap[k].baseType, model, delivery);
      }
    }
    SheetsTypes([], GidTypeMap, files, IsListedType);
  }

  /** `fleet.findIndex(e => e.r === reg)`: the first index, or -1. */
  method FindReg(fleet: seq<Entry>, reg: string) returns (idx: int)
    ensures idx == -1 <==> !HasReg(fleet, reg)
    ensures idx != -1 ==> 0 <= idx < |fleet| && fleet[idx].r == reg
                          && forall j :: 0 <= j < idx ==> fleet[j].r != reg
  {
    for k := 0 to |fleet|
      invariant forall j :: 0 <= j < k ==> fleet[j].r != reg
    {
      if fleet[k].r == reg {
        return k;
      }
    }
    return -1;
  }

  /** The bookkeeping of the row loop for a row with a valid registration: a
      repeat is spliced out and re-appended from `ReplacingGid` and skipped from any
      other tab; a new registration is appended and recorded as seen. */
  method AddRow(fleet: seq<Entry>, seenRegs: set<string>, gid: string, entry: Entry)
    returns (fleet': seq<Entry>, seenRegs': set<string>)
    requires UniqueRegs(fleet)
    requires forall x :: x in seenRegs <==> HasReg(fleet, x)
    ensures fleet' == AddEntry(fleet, gid, entry)
    ensures forall x :: x in seenRegs' <==> HasReg(fleet', x)
  {
    fleet', seenRegs' := fleet, seenRegs;
    if entry.r in seenRegs' {
      if gid == ReplacingGid {
        var oldIdx := FindReg(fleet', entry.r);
        if oldIdx >= 0 {
          RemoveRegAt(fleet', entry.r, oldIdx);
          fleet' := fleet'[..oldIdx] + fleet'[oldIdx + 1..];
        }
        seenRegs' := seenRegs' - {entry.r};
      } else {
        return;
      }
    }
    fleet' := fleet' + [entry];
    seenRegs' := seenRegs' + {entry.r};
    forall x ensures x in seenRegs' <==> HasReg(fleet', x) {
      AddEntryRegs(fleet, gid, entry, x);
    }
  }

  /** The body of the row loop, with the set of registrations seen so far kept
      beside the fleet. */
  method ProcessRow(fleet: seq<Entry>, seenRegs: set<string>, gid: string, baseType: string,
                    colMap: ColMap, line: string)
    returns (fleet': seq<Entry>, seenRegs': set<string>)
    requires RegsOk(fleet)
    requires forall x :: x in seenRegs <==> HasReg(fleet, x)
    ensures fleet' == RowStep(fleet, gid, baseType, colMap, line)
    ensures RegsOk(fleet')
    ensures forall x :: x in seenRegs' <==> HasReg(fleet', x)
  {
    RowStepKeepsRegs(fleet, gid, baseType, colMap, line);
    fleet', seenRegs' := fleet, seenRegs;
    var l := Trim(line);
    if l != "" {
      var cols := ParseCsvLine(l);
      var reg := RemoveSpaces(Cell(cols, colMap, Reg));
      if IsValidReg(reg) {
        var entry := BuildEntry(baseType, cols, colMap, reg);
        fleet', seenRegs' := AddRow(fleet, seenRegs, gid, entry);
      }
    }
  }

  /** The row loop `for (let i = headerIdx + 1; i < lines.length; i++)`. */
  method ProcessRows(fleet: seq<Entry>, seenRegs: set<string>, gid: string, baseType: string,
                     colMap: ColMap, lines: seq<string>, start: nat)
    returns (fleet': seq<Entry>, seenRegs': set<string>)
    requires start <= |lines|
    requires RegsOk(fleet)
    requires forall x :: x in seenRegs <==> HasReg(fleet, x)
    ensures fleet' == Rows(fleet, gid, baseType, colMap, lines, start)
    ensures RegsOk(fleet')
    ensures forall x :: x in seenRegs' <==> HasReg(fleet', x)
  {
    fleet', seenRegs' := fleet, seenRegs;
    var i := start;
    while i < |lines|
      invariant start <= i <= |lines|
      invariant Rows(fleet', gid, baseType, colMap, lines, i) == Rows(fleet, gid, baseType, colMap, lines, start)
      invariant RegsOk(fleet')
      invariant forall x :: x in seenRegs' <==> HasReg(fleet', x)
    {
      fleet', seenRegs' := ProcessRow(fleet', seenRegs', gid, baseType, colMap, lines[i]);
      i := i + 1;
    }
  }

  /** The rows of a tab once its header is known: map the columns the header names,
      then run the rows after it. */
  method ProcessTab(fleet: seq<Entry>, seenRegs: set<string>, gid: string, baseType: string,
                    lines: seq<string>, headerIdx: int, headers: seq<string>)
    returns (fleet': seq<Entry>, seenRegs': set<string>)
    requires headerIdx >= 0 ==> headerIdx < |lines| && headers == CsvFields(lines[headerIdx])
    requires RegsOk(fleet)
    requires forall x :: x in seenRegs <==> HasReg(fleet, x)
    ensures fleet' == TabRows(fleet, gid, baseType, lines, headerIdx)
    ensures RegsOk(fleet')
    ensures forall x :: x in seenRegs' <==> HasReg(fleet', x)
  {
    fleet', seenRegs' := fleet, seenRegs;
    if headerIdx >= 0 {
      var colMap := MapColumns(headers);
      fleet', seenRegs' := ProcessRows(fleet, seenRegs, gid, baseType, colMap, lines, headerIdx + 1);
    }
  }

  /** The lines of one tab: find the header, then run the rows after it. */
  method ProcessLines(fleet: seq<Entry>, seenRegs: set<string>, gid: string, baseType: string,
                      lines: seq<string>)
    returns (fleet': seq<Entry>, seenRegs': set<string>)
    requires RegsOk(fleet)
    requires forall x :: x in seenRegs <==> HasReg(fleet, x)
    ensures fleet' == TabRows(fleet, gid, baseType, lines, HeaderIndex(lines))
    ensures RegsOk(fleet')
    ensures forall x :: x in seenRegs' <==> HasReg(fleet', x)
  {
    var headerIdx, headers := FindHeader(lines);
    fleet', seenRegs' := ProcessTab(fleet, seenRegs, gid, baseType, lines, headerIdx, headers);
  }

  /** The body of the tab loop: a missing file is skipped, the text of any other is
      split into lines. */
  method ProcessSheet(fleet: seq<Entry>, seenRegs: set<string>, sheet: Sheet, files: map<string, string>)
    returns (fleet': seq<Entry>, seenRegs': set<string>)
    requires RegsOk(fleet)
    requires forall x :: x in seenRegs <==> HasReg(fleet, x)
    ensures fleet' == SheetStep(fleet, sheet, files)
    ensures RegsOk(fleet')
    ensures forall x :: x in seenRegs' <==> HasReg(fleet', x)
  {
    fleet', seenRegs' := fleet, seenRegs;
    if sheet.gid in files {
      var lines := Split(files[sheet.gid], '\n');
      fleet', seenRegs' := ProcessLines(fleet, seenRegs, sheet.gid, sheet.baseType, lines);
    }
  }

  /** The tabs from `k` are tab `k` followed by the tabs from `k + 1`. */
  lemma SheetsCons(fleet: seq<Entry>, sheets: seq<Sheet>, k: nat, files: map<string, string>)
    requires k < |sheets|
    ensures Sheets(fleet, sheets[k..], files) == Sheets(SheetStep(fleet, sheets[k], files), sheets[k + 1..], files)
  {
    assert sheets[k..][1..] == sheets[k + 1..];
  }

  /** The tab loop over `GidTypeMap`. */
  method ReadSheets(files: map<string, string>) returns (fleet: seq<Entry>)
    ensures fleet == UnsortedFleet(files)
    ensures RegsOk(fleet)
  {
    fleet := [];
    var seenRegs: set<string> := {};
    for k := 0 to |GidTypeMap|
      invariant Sheets(fleet, GidTypeMap[k..], files) == UnsortedFleet(files)
      invariant RegsOk(fleet)
      invariant forall x :: x in seenRegs <==> HasReg(fleet, x)
    {
      SheetsCons(fleet, GidTypeMap, k, files);
      fleet, seenRegs := ProcessSheet(fleet, seenRegs, GidTypeMap[k], files);
    }
  }

  // ---------------------------------------------------------------------------
  // Sorting by type, then registration

  /** `order.indexOf(t)`: the first position of `t`, or -1. */
  function IndexOf(order: seq<string>, t: string): (i: int)
    ensures -1 <= i < |order|
    ensures i == -1 <==> t !in order
    ensures i >= 0 ==> order[i] == t
  {
    if order == [] then -1
    else if order[0] == t then 0
    else
      var i := IndexOf(order[1..], t);
      if i == -1 then -1 else i + 1
  }

  /** A type's sort key: its position, unlisted types (-1) last. */
  function Rank(index: int): int {
    if index == -1 then 999 else index
  }

  /** Code-unit lexicographic order on strings (`a` is not after `b`). */
  predicate LexLeq(a: string, b: string) {
    if a == [] then true
    else if b == [] then false
    else if a[0] != b[0] then a[0] < b[0]
    else LexLeq(a[1..], b[1..])
  }

  /** `a.localeCompare(b)`, on code units: -1, 0 or 1. */
  function LocaleCompare(a: string, b: string): int {
    if a == b then 0 else if LexLeq(a, b) then -1 else 1
  }

  /** The sort comparator: by position in `order` (unlisted types last), then by
      registration. The script sorts with `order == TypeOrder`. */
  function Compare(order: seq<string>, x: Entry, y: Entry): int {
    var ta := IndexOf(order, x.t);
    var tb := IndexOf(order, y.t);
    if ta != tb then Rank(ta) - Rank(tb) else LocaleCompare(x.r, y.r)
  }

  lemma {:induction false} LexLeqTotal(a: string, b: string)
    ensures LexLeq(a, b) || LexLeq(b, a)
  {
    if a != [] && b != [] && a[0] == b[0] {
      LexLeqTotal(a[1..], b[1..]);
    }
  }

  lemma {:induction false} LexLeqAntisymmetric(a: string, b: string)
    requires LexLeq(a, b) && LexLeq(b, a)
    ensures a == b
  {
    if a != [] && b != [] {
      LexLeqAntisymmetric(a[1..], b[1..]);
      assert a == [a[0]] + a[1..] && b == [b[0]] + b[1..];
    }
  }

  lemma {:induction false} LexLeqTransitive(a: string, b: string, c: string)
    requires LexLeq(a, b) && LexLeq(b, c)
    ensures LexLeq(a, c)
  {
    if a != [] && b != [] && c != [] && a[0] == b[0] && b[0] == c[0] {
      LexLeqTransitive(a[1..], b[1..], c[1..]);
    }
  }

  /** The registration comparison is a consistent three-way comparison: 0 exactly
      for equal registrations, and swapping the arguments flips the sign. */
  lemma LocaleCompareConsistent(a: string, b: string)
    ensures LocaleCompare(a, b) == 0 <==> a == b
    ensures LocaleCompare(a, b) == -LocaleCompare(b, a)
  {
    LexLeqTotal(a, b);
    if LexLeq(a, b) && LexLeq(b, a) {
      LexLeqAntisymmetric(a, b);
    }
  }

  /** The comparator is consistent when the order has fewer than 999 types:
      swapping the arguments flips the sign, and two entries compare equal exactly
      when they share their type position and their registration. */
  lemma CompareAntisymmetric(order: seq<string>, x: Entry, y: Entry)
    requires |order| < 999
    ensures Compare(order, x, y) < 0 <==> Compare(order, y, x) > 0
    ensures Compare(order, x, y) == 0 <==> IndexOf(order, x.t) == IndexOf(order, y.t) && x.r == y.r
    ensures Compare(order, x, y) <= 0 || Compare(order, y, x) <= 0
  {
    LexLeqTotal(x.r, y.r);
    if LexLeq(x.r, y.r) && LexLeq(y.r, x.r) {
      LexLeqAntisymmetric(x.r, y.r);
    }
  }

  /** The comparator is transitive. */
  lemma CompareTransitive(order: seq<string>, x: Entry, y: Entry, z: Entry)
    requires |order| < 999
    requires Compare(order, x, y) <= 0 && Compare(order, y, z) <= 0
    ensures Compare(order, x, z) <= 0
  {
    var ta, tb, tc := IndexOf(order, x.t), IndexOf(order, y.t), IndexOf(order, z.t);
    if ta == tb && tb == tc && x.r != y.r && y.r != z.r {
      LexLeqTransitive(x.r, y.r, z.r);
    }
  }

  /** Every neighbour pair is in comparator order. */
  predicate Sorted(order: seq<string>, s: seq<Entry>) {
    forall i :: 0 <= i && i + 1 < |s| ==> Compare(order, s[i], s[i + 1]) <= 0
  }

  /** Inserting `x` before the first entry it does not come after. */
  function Insert(order: seq<string>, x: Entry, s: seq<Entry>): (r: seq<Entry>)
    ensures |r| == |s| + 1
    ensures r[0] == x || (s != [] && r[0] == s[0])
  {
    if s == [] then [x]
    else if Compare(order, x, s[0]) <= 0 then [x] + s
    else [s[0]] + Insert(order, x, s[1..])
  }

  /** `fleet.sort(compare)`, as an insertion sort. */
  function SortFleet(order: seq<string>, s: seq<Entry>): (r: seq<Entry>)
    ensures |r| == |s|
  {
    if s == [] then [] else Insert(order, s[0], SortFleet(order, s[1..]))
  }

  lemma {:induction false} InsertPermutes(order: seq<string>, x: Entry, s: seq<Entry>)
    ensures multiset(Insert(order, x, s)) == multiset(s) + multiset{x}
  {
    if s != [] && Compare(order, x, s[0]) > 0 {
      InsertPermutes(order, x, s[1..]);
      assert s == [s[0]] + s[1..];
    }
  }

  lemma SortedTail(order: seq<string>, s: seq<Entry>)
    requires Sorted(order, s) && s != []
    ensures Sorted(order, s[1..])
  {
    forall i | 0 <= i && i + 1 < |s[1..]| ensures Compare(order, s[1..][i], s[1..][i + 1]) <= 0 {
      assert s[1..][i] == s[i + 1] && s[1..][i + 1] == s[i + 2];
    }
  }

  lemma SortedCons(order: seq<string>, e: Entry, s: seq<Entry>)
    requires Sorted(order, s) && (s != [] ==> Compare(order, e, s[0]) <= 0)
    ensures Sorted(order, [e] + s)
  {
    var r := [e] + s;
    forall i | 0 <= i && i + 1 < |r| ensures Compare(order, r[i], r[i + 1]) <= 0 {
      if i > 0 {
        assert r[i] == s[i - 1] && r[i + 1] == s[i];
      }
    }
  }

  lemma {:induction false} InsertSorted(order: seq<string>, x: Entry, s: seq<Entry>)
    requires |order| < 999 && Sorted(order, s)
    ensures Sorted(order, Insert(order, x, s))
  {
    if s == [] {
      SortedCons(order, x, []);
    } else if Compare(order, x, s[0]) <= 0 {
      SortedCons(order, x, s);
    } else {
      SortedTail(order, s);
      InsertSorted(order, x, s[1..]);
      CompareAntisymmetric(order, x, s[0]);
      SortedCons(order, s[0], Insert(order, x, s[1..]));
    }
  }

  /** The sort yields a sorted permutation of its input. */
  lemma {:induction false} SortFleetSorted(order: seq<string>, s: seq<Entry>)
    requires |order| < 999
    ensures Sorted(order, SortFleet(order, s))
    ensures multiset(SortFleet(order, s)) == multiset(s)
  {
    if s != [] {
      SortFleetSorted(order, s[1..]);
      InsertSorted(order, s[0], SortFleet(order, s[1..]));
      InsertPermutes(order, s[0], SortFleet(order, s[1..]));
      assert s == [s[0]] + s[1..];
    }
  }

  /** Sorted by neighbours means sorted by every pair. */
  lemma {:induction false} SortedPairwise(order: seq<string>, s: seq<Entry>, i: nat, j: nat)
    requires |order| < 999 && Sorted(order, s) && i <= j < |s|
    ensures Compare(order, s[i], s[j]) <= 0
    decreases j - i
  {
    if i == j {
      CompareAntisymmetric(order, s[i], s[i]);
    } else {
      SortedPairwise(order, s, i + 1, j);
      CompareTransitive(order, s[i], s[i + 1], s[j]);
    }
  }

  lemma HasRegCons(e: Entry, s: seq<Entry>, reg: string)
    ensures HasReg([e] + s, reg) <==> e.r == reg || HasReg(s, reg)
  {
    var r := [e] + s;
    if HasReg(s, reg) {
      var k :| 0 <= k < |s| && s[k].r == reg;
      assert r[k + 1].r == reg;
    }
    if HasReg(r, reg) && e.r != reg {
      var k :| 0 <= k < |r| && r[k].r == reg;
      assert r[0] == e;
      assert k > 0 && r[k] == s[k - 1];
    }
    if e.r == reg {
      assert r[0].r == reg;
    }
  }

  lemma UniqueRegsCons(e: Entry, s: seq<Entry>)
    ensures UniqueRegs([e] + s) <==> !HasReg(s, e.r) && UniqueRegs(s)
  {
    var r := [e] + s;
    if UniqueRegs(r) {
      forall k | 0 <= k < |s| ensures s[k].r != e.r { assert r[0] == e && r[k + 1] == s[k]; }
      forall j, k | 0 <= j < k < |s| ensures s[j].r != s[k].r { assert r[j + 1] == s[j] && r[k + 1] == s[k]; }
    }
    if !HasReg(s, e.r) && UniqueRegs(s) {
      forall j, k | 0 <= j < k < |r| ensures r[j].r != r[k].r {
        if j == 0 { assert r[0] == e && r[k] == s[k - 1]; } else { assert r[j] == s[j - 1] && r[k] == s[k - 1]; }
      }
    }
  }

  lemma {:induction false} InsertRegs(order: seq<string>, x: Entry, s: seq<Entry>)
    ensures forall reg :: HasReg(Insert(order, x, s), reg) <==> HasReg(s, reg) || reg == x.r
    ensures UniqueRegs(s) && !HasReg(s, x.r) ==> UniqueRegs(Insert(order, x, s))
  {
    if s == [] {
      forall reg ensures HasReg([x] + [], reg) <==> HasReg([], reg) || reg == x.r { HasRegCons(x, [], reg); }
      assert [x] + [] == [x];
      UniqueRegsCons(x, []);
    } else if Compare(order, x, s[0]) <= 0 {
      forall reg ensures HasReg([x] + s, reg) <==> HasReg(s, reg) || reg == x.r { HasRegCons(x, s, reg); }
      UniqueRegsCons(x, s);
    } else {
      var t := Insert(order, x, s[1..]);
      InsertRegs(order, x, s[1..]);
      assert s == [s[0]] + s[1..];
      forall reg ensures HasReg([s[0]] + t, reg) <==> HasReg(s, reg) || reg == x.r {
        HasRegCons(s[0], t, reg);
        HasRegCons(s[0], s[1..], reg);
      }
      UniqueRegsCons(s[0], t);
      UniqueRegsCons(s[0], s[1..]);
      HasRegCons(s[0], s[1..], x.r);
    }
  }

  /** Sorting keeps the registrations, and keeps them unique. */
  lemma {:induction false} SortFleetRegs(order: seq<string>, s: seq<Entry>)
    ensures forall reg :: HasReg(SortFleet(order, s), reg) <==> HasReg(s, reg)
    ensures UniqueRegs(s) ==> UniqueRegs(SortFleet(order, s))
  {
    if s != [] {
      SortFleetRegs(order, s[1..]);
      InsertRegs(order, s[0], SortFleet(order, s[1..]));
      assert s == [s[0]] + s[1..];
      forall reg ensures HasReg(s, reg) <==> s[0].r == reg || HasReg(s[1..], reg) {
        HasRegCons(s[0], s[1..], reg);
      }
      UniqueRegsCons(s[0], s[1..]);
    }
  }

  /** Sorting a well-formed fleet gives a well-formed fleet. */
  lemma SortFleetWellFormed(order: seq<string>, s: seq<Entry>)
    requires |order| < 999 && WellFormed(s)
    ensures WellFormed(SortFleet(order, s))
  {
    var r := SortFleet(order, s);
    SortFleetSorted(order, s);
    SortFleetRegs(order, s);
    forall k | 0 <= k < |r| ensures IsValidReg(r[k].r) && r[k].t in TypeOrder {
      assert r[k] in multiset(r);
      var j :| 0 <= j < |s| && s[j] == r[k];
    }
  }

  /** Two sorted permutations of a fleet with unique registrations start alike. */
  lemma SortedHeads(order: seq<string>, s: seq<Entry>, t: seq<Entry>)
    requires |order| < 999 && s != []
    requires Sorted(order, s) && Sorted(order, t) && multiset(s) == multiset(t) && UniqueRegs(s)
    ensures t != [] && t[0] == s[0]
  {
    assert s[0] in multiset(t);
    var j :| 0 <= j < |t| && t[j] == s[0];
    assert t[0] in multiset(s);
    var i :| 0 <= i < |s| && s[i] == t[0];
    SortedPairwise(order, t, 0, j);
    SortedPairwise(order, s, 0, i);
    CompareAntisymmetric(order, s[0], t[0]);
  }

  lemma MultisetTails(s: seq<Entry>, t: seq<Entry>)
    requires s != [] && t != [] && s[0] == t[0] && multiset(s) == multiset(t)
    ensures multiset(s[1..]) == multiset(t[1..])
  {
    assert s == [s[0]] + s[1..] && t == [t[0]] + t[1..];
    assert multiset(s[1..]) == multiset(s) - multiset{s[0]};
    assert multiset(t[1..]) == multiset(t) - multiset{t[0]};
  }

  /** With unique registrations the comparator is a total order on the fleet, so
      its sorted permutation is unique: any sort with this comparator gives the
      same fleet as `SortFleet`. */
  lemma {:induction false} SortedPermutationUnique(order: seq<string>, s: seq<Entry>, t: seq<Entry>)
    requires |order| < 999
    requires Sorted(order, s) && Sorted(order, t) && multiset(s) == multiset(t) && UniqueRegs(s)
    ensures s == t
    decreases |s|
  {
    if s == [] {
      assert |t| == |multiset(t)| == 0;
    } else {
      SortedHeads(order, s, t);
      MultisetTails(s, t);
      SortedTail(order, s);
      SortedTail(order, t);
      UniqueRegsCons(s[0], s[1..]);
      assert s == [s[0]] + s[1..];
      SortedPermutationUnique(order, s[1..], t[1..]);
      assert t == [t[0]] + t[1..];
    }
  }

  /** The whole script: read every tab, then sort by `TypeOrder`. */
  method BuildFleet(files: map<string, string>) returns (fleet: seq<Entry>)
    ensures fleet == SortFleet(TypeOrder, UnsortedFleet(files))
    ensures WellFormed(fleet) && Sorted(TypeOrder, fleet)
    ensures multiset(fleet) == multiset(UnsortedFleet(files))
  {
    fleet := ReadSheets(files);
    UnsortedFleetTypes(files);
    SortFleetSorted(TypeOrder, fleet);
    SortFleetWellFormed(TypeOrder, fleet);
    fleet := SortFleet(TypeOrder, fleet);
  }
}
