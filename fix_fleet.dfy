/** `fix-fleet.cjs`: a one-off correction of the fleet database. Eight passes over
    the fleet reassign the type field of legacy entries in place, one rule per pass
    and in a fixed order; then generated entries for three types the database
    lacked (A321neo, 737 MAX 9, 787-9) are appended.

    Reading and rewriting `index.html` is not modelled: the fleet comes in as an
    array and the appended fleet goes out as a sequence. */
module FixFleet {
  import opened Common
  import opened RebuildFleet

  // ---------------------------------------------------------------------------
  // Reclassification passes

  /** `a.tot`, absent when the entry has no parsed seats. */
  function Tot(e: Entry): Option<nat> {
    if e.seats.Some? then Some(e.seats.value.tot) else None
  }

  /** The aircraft numbers of the twelve 737-900s delivered as plain -900s. */
  const Plain900 := {"3401", "3402", "3403", "3404", "3405", "3406",
                     "3407", "3408", "3409", "3410", "3411", "3412"}

  /** The type after pass `pass` (1 to 8) of an entry with type `t`, seat total
      `tot` and aircraft number `a`. */
  function PassOn(pass: nat, t: string, tot: Option<nat>, a: string): string
    requires 1 <= pass <= 8
  {
    if pass == 1 then (if t == "767" then "757-300" else t)
    else if pass == 2 then (if t == "787-8" && tot == Some(318) then "787-10" else t)
    else if pass == 3 then (if t == "777" && tot == Some(231) then "767-400ER" else t)
    else if pass == 4 then (if t == "777" then "767-300ER" else t)
    else if pass == 5 then (if t == "737-900" && a !in Plain900 then "737-900ER" else t)
    else if pass == 6 then
      (if t == "777-200" && (tot == Some(276) || tot == Some(362)) then "777-200ER" else t)
    else if pass == 7 then (if t == "737 MAX" then "737 MAX 8" else t)
    else (if t == "757" then "757-200" else t)
  }

  /** The type an entry has after pass `pass` (1 to 8), given the entry before. */
  function PassType(pass: nat, e: Entry): string
    requires 1 <= pass <= 8
  {
    PassOn(pass, e.t, Tot(e), e.a)
  }

  /** An entry after passes `1..n`. */
  function AfterPasses(e: Entry, n: nat): Entry
    requires n <= 8
  {
    if n == 0 then e
    else
      var before := AfterPasses(e, n - 1);
      before.(t := PassType(n, before))
  }

  /** An entry after all eight passes. */
  function Reclassify(e: Entry): Entry {
    AfterPasses(e, 8)
  }

  /** One `fleet.forEach(a => { if (...) a.t = ...; })` pass. */
  method RunPass(a: array<Entry>, pass: nat)
    requires 1 <= pass <= 8
    modifies a
    ensures forall k :: 0 <= k < a.Length ==> a[k] == old(a[k]).(t := PassType(pass, old(a[k])))
  {
    for k := 0 to a.Length
      invariant forall j :: 0 <= j < k ==> a[j] == old(a[j]).(t := PassType(pass, old(a[j])))
      invariant forall j :: k <= j < a.Length ==> a[j] == old(a[j])
    {
      a[k] := a[k].(t := PassType(pass, a[k]));
    }
  }

  /** The eight passes, in their order. */
  method ReclassifyAll(a: array<Entry>)
    modifies a
    ensures forall k :: 0 <= k < a.Length ==> a[k] == Reclassify(old(a[k]))
  {
    ghost var original := a[..];
    for pass := 1 to 9
      invariant forall k :: 0 <= k < a.Length ==> a[k] == AfterPasses(original[k], pass - 1)
    {
      RunPass(a, pass);
    }
  }

  /** The passes change nothing but the type. */
  lemma {:induction false} PassesKeepOtherFields(e: Entry, n: nat)
    requires n <= 8
    ensures AfterPasses(e, n) == e.(t := AfterPasses(e, n).t)
  {
    if n > 0 {
      PassesKeepOtherFields(e, n - 1);
    }
  }

  /** What the eight passes do to each type: the legacy `767`, `777`, `737 MAX`
      and `757` are all renamed; because the passes run in order, a former `767`
      ends as `757-300` (pass 8 renames only the exact type `757`) and a `777` with
      231 seats ends as `767-400ER` (pass 4 sees it no longer as a `777`). */
  lemma ReclassifyRules(e: Entry)
    ensures var t := Reclassify(e).t;
            && (e.t == "767" ==> t == "757-300")
            && (e.t == "787-8" ==> (t == "787-10" <==> Tot(e) == Some(318)) && t in {"787-8", "787-10"})
            && (e.t == "777" && Tot(e) == Some(231) ==> t == "767-400ER")
            && (e.t == "777" && Tot(e) != Some(231) ==> t == "767-300ER")
            && (e.t == "737-900" ==> (t == "737-900" <==> e.a in Plain900) && t in {"737-900", "737-900ER"})
            && (e.t == "777-200" ==>
                  (t == "777-200ER" <==> Tot(e) in {Some(276), Some(362)}) && t in {"777-200", "777-200ER"})
            && (e.t == "737 MAX" ==> t == "737 MAX 8")
            && (e.t == "757" ==> t == "757-200")
            && (e.t !in {"767", "787-8", "777", "737-900", "777-200", "737 MAX", "757"} ==> t == e.t)
  {
    ReclassifyChain(e);
  }

  /** The type after all eight passes, pass by pass on the type alone. */
  lemma ReclassifyChain(e: Entry)
    ensures var tot, a := Tot(e), e.a;
            Reclassify(e).t
              == PassOn(8, PassOn(7, PassOn(6, PassOn(5, PassOn(4, PassOn(3, PassOn(2, PassOn(1,
                   e.t, tot, a), tot, a), tot, a), tot, a), tot, a), tot, a), tot, a), tot, a)
  {
    PassesKeepOtherFields(e, 1);
    PassesKeepOtherFields(e, 2);
    PassesKeepOtherFields(e, 3);
    PassesKeepOtherFields(e, 4);
    PassesKeepOtherFields(e, 5);
    PassesKeepOtherFields(e, 6);
    PassesKeepOtherFields(e, 7);
  }

  /** No legacy type survives the passes. */
  lemma NoLegacyTypes(e: Entry)
    ensures Reclassify(e).t !in {"767", "777", "737 MAX", "757"}
  {
    ReclassifyRules(e);
  }

  // ---------------------------------------------------------------------------
  // Generated entries

  /** A registration and aircraft number pair `{ r, a }`. */
  datatype Slot = Slot(r: string, a: string)

  /** Iteration `i` (1-based) of the A321neo loop: `N445xx` for the first 30,
      `N145xx` after. */
  function A321neoSlot(i: nat): Slot {
    Slot("N" + NatToString(A321neoNumber(i)), NatToString(5000 + i))
  }

  /** The number in the registration of iteration `i` of the A321neo loop. */
  function A321neoNumber(i: nat): nat {
    if i <= 30 then 44500 + i else 14500 + (i - 30)
  }

  /** The 51 A321neo slots, with index 1 overridden by the confirmed `N14502`. */
  function A321neoSlots(): (r: seq<Slot>)
    ensures |r| == 51
  {
    seq(51, k requires 0 <= k < 51 => A321neoSlot(k + 1))[1 := Slot("N14502", "5002")]
  }

  /** Iteration `i` (1-based) of the 737 MAX 9 loop. */
  function Max9Slot(i: nat): Slot {
    Slot("N" + NatToString(37500 + i), NatToString(7500 + i))
  }

  /** The 113 737 MAX 9 slots, with index 21 overridden by the confirmed `N37522`. */
  function Max9Slots(): (r: seq<Slot>)
    ensures |r| == 113
  {
    seq(113, k requires 0 <= k < 113 => Max9Slot(k + 1))[21 := Slot("N37522", "7522")]
  }

  /** Iteration `i` (1-based) of the 787-9 loop. */
  function B789Slot(i: nat): Slot {
    Slot("N" + NatToString(24950 + i), NatToString(3950 + i))
  }

  /** The 47 787-9 slots, with index 25 overridden by the confirmed `N24976`. */
  function B789Slots(): (r: seq<Slot>)
    ensures |r| == 47
  {
    seq(47, k requires 0 <= k < 47 => B789Slot(k + 1))[25 := Slot("N24976", "3976")]
  }

  /** The A321neo registration loop. */
  method BuildA321neoSlots() returns (slots: seq<Slot>)
    ensures slots == A321neoSlots()
  {
    slots := [];
    for i := 1 to 52
      invariant |slots| == i - 1
      invariant forall k :: 0 <= k < i - 1 ==> slots[k] == A321neoSlot(k + 1)
    {
      var num := 44500 + i;
      var reg := if i <= 30 then num else 14500 + (i - 30);
      assert reg == A321neoNumber(i);
      slots := slots + [Slot("N" + NatToString(reg), NatToString(5000 + i))];
    }
    slots := slots[1 := Slot("N14502", "5002")];
  }

  /** The 737 MAX 9 registration loop. */
  method BuildMax9Slots() returns (slots: seq<Slot>)
    ensures slots == Max9Slots()
  {
    slots := [];
    for i := 1 to 114
      invariant |slots| == i - 1
      invariant forall k :: 0 <= k < i - 1 ==> slots[k] == Max9Slot(k + 1)
    {
      var num := 37500 + i;
      slots := slots + [Slot("N" + NatToString(num), NatToString(7500 + i))];
    }
    slots := slots[21 := Slot("N37522", "7522")];
  }

  /** The 787-9 registration loop. */
  method BuildB789Slots() returns (slots: seq<Slot>)
    ensures slots == B789Slots()
  {
    slots := [];
    for i := 1 to 48
      invariant |slots| == i - 1
      invariant forall k :: 0 <= k < i - 1 ==> slots[k] == B789Slot(k + 1)
    {
      var num := 24950 + i;
      slots := slots + [Slot("N" + NatToString(num), NatToString(3950 + i))];
    }
    slots := slots[25 := Slot("N24976", "3976")];
  }

  /** A generated A321neo entry. */
  function A321neoEntry(s: Slot): Entry {
    Entry(s.r, "A321neo", s.a, "Starlink", "20F/57E+/123Y", "est", "2023", "AVOD", "110/USB",
          Some(Seats(map["F" := 20, "E+" := 57, "Y" := 123], 200)))
  }

  /** A generated 737 MAX 9 entry. */
  function Max9Entry(s: Slot): Entry {
    Entry(s.r, "737 MAX 9", s.a, "Starlink", "20F/45E+/114Y", "est", "2024", "AVOD", "110 V",
          Some(Seats(map["F" := 20, "E+" := 45, "Y" := 114], 179)))
  }

  /** A generated 787-9 entry: the first 38 get the 257-seat configuration, the
      rest the 222-seat one. */
  function B789Entry(s: Slot, idx: nat): Entry {
    if idx < 38 then
      Entry(s.r, "787-9", s.a, "Satl Ku", "48J/21PE/39E+/149Y", "est", "2016", "AVOD/PDE", "110 V",
            Some(Seats(map["J" := 48, "PE" := 21, "E+" := 39, "Y" := 149], 257)))
    else
      Entry(s.r, "787-9", s.a, "Satl Ku", "64J/35PE/33E+/90Y", "est", "2020", "AVOD/PDE", "110 V",
            Some(Seats(map["J" := 64, "PE" := 35, "E+" := 33, "Y" := 90], 222)))
  }

  /** All appended entries, in push order. */
  function Added(): (r: seq<Entry>)
    ensures |r| == 51 + 113 + 47
  {
    seq(51, k requires 0 <= k < 51 => A321neoEntry(A321neoSlots()[k]))
    + seq(113, k requires 0 <= k < 113 => Max9Entry(Max9Slots()[k]))
    + seq(47, k requires 0 <= k < 47 => B789Entry(B789Slots()[k], k))
  }

  /** `slots.forEach(... fleet.push(...))` for the A321neo and 737 MAX 9 lists. */
  method PushA321neo(fleet: seq<Entry>, slots: seq<Slot>) returns (fleet': seq<Entry>)
    ensures fleet' == fleet + seq(|slots|, k requires 0 <= k < |slots| => A321neoEntry(slots[k]))
  {
    fleet' := fleet;
    for k := 0 to |slots|
      invariant fleet' == fleet + seq(k, j requires 0 <= j < k => A321neoEntry(slots[j]))
    {
      fleet' := fleet' + [A321neoEntry(slots[k])];
    }
  }

  method PushMax9(fleet: seq<Entry>, slots: seq<Slot>) returns (fleet': seq<Entry>)
    ensures fleet' == fleet + seq(|slots|, k requires 0 <= k < |slots| => Max9Entry(slots[k]))
  {
    fleet' := fleet;
    for k := 0 to |slots|
      invariant fleet' == fleet + seq(k, j requires 0 <= j < k => Max9Entry(slots[j]))
    {
      fleet' := fleet' + [Max9Entry(slots[k])];
    }
  }

  /** `b789Regs.forEach(({ r, a }, idx) => ...)`. */
  method PushB789(fleet: seq<Entry>, slots: seq<Slot>) returns (fleet': seq<Entry>)
    ensures fleet' == fleet + seq(|slots|, k requires 0 <= k < |slots| => B789Entry(slots[k], k))
  {
    fleet' := fleet;
    for k := 0 to |slots|
      invariant fleet' == fleet + seq(k, j requires 0 <= j < k => B789Entry(slots[j], j))
    {
      fleet' := fleet' + [B789Entry(slots[k], k)];
    }
  }

  /** The whole script: reclassify in place, then append the generated entries. */
  method FixFleetDb(a: array<Entry>) returns (fleet: seq<Entry>)
    modifies a
    ensures forall k :: 0 <= k < a.Length ==> a[k] == Reclassify(old(a[k]))
    ensures fleet == a[..] + Added()
  {
    ReclassifyAll(a);
    fleet := a[..];
    var slots := BuildA321neoSlots();
    fleet := PushA321neo(fleet, slots);
    slots := BuildMax9Slots();
    fleet := PushMax9(fleet, slots);
    slots := BuildB789Slots();
    fleet := PushB789(fleet, slots);
  }

  // ---------------------------------------------------------------------------
  // Properties of the generated entries

  /** The appended entries are 51 A321neos, then 113 737 MAX 9s, then 47 787-9s;
      the first 38 787-9s have 257 seats and the other nine 222. */
  lemma AddedLayout()
    ensures forall k :: 0 <= k < 51 ==> Added()[k].t == "A321neo" && Tot(Added()[k]) == Some(200)
    ensures forall k :: 51 <= k < 164 ==> Added()[k].t == "737 MAX 9" && Tot(Added()[k]) == Some(179)
    ensures forall k :: 164 <= k < 211 ==> Added()[k].t == "787-9"
    ensures forall k :: 164 <= k < 211 ==> (Tot(Added()[k]) == Some(257) <==> k < 164 + 38)
    ensures forall k :: 164 <= k < 211 ==> (Tot(Added()[k]) == Some(222) <==> k >= 164 + 38)
  {
  }

  lemma A321neoSlotsAt(k: nat)
    requires k < 51
    ensures A321neoSlots()[k] == if k == 1 then Slot("N14502", "5002") else A321neoSlot(k + 1)
  {
  }

  lemma Max9SlotsAt(k: nat)
    requires k < 113
    ensures Max9Slots()[k] == if k == 21 then Slot("N37522", "7522") else Max9Slot(k + 1)
  {
  }

  lemma B789SlotsAt(k: nat)
    requires k < 47
    ensures B789Slots()[k] == if k == 25 then Slot("N24976", "3976") else B789Slot(k + 1)
  {
  }

  /** The renderings of the numbers in the overrides and their neighbours. */
  lemma Rendered14502()
    ensures NatToString(14502) == "14502"
  {
    AppendDigit(1, 4); AppendDigit(14, 5); AppendDigit(145, 0); AppendDigit(1450, 2);
  }

  lemma Rendered44502()
    ensures NatToString(44502) == "44502"
  {
    AppendDigit(4, 4); AppendDigit(44, 5); AppendDigit(445, 0); AppendDigit(4450, 2);
  }

  lemma Rendered5002And5032()
    ensures NatToString(5002) == "5002" && NatToString(5032) == "5032"
  {
    AppendDigit(5, 0); AppendDigit(50, 0); AppendDigit(500, 2);
    AppendDigit(50, 3); AppendDigit(503, 2);
  }

  /** The override at index 1 puts `N14502` where `N44502` was, and iteration 32
      of the same loop also yields `N14502`: the registration appears twice. */
  lemma A321neoDuplicate()
    ensures A321neoSlots()[1] == Slot("N14502", "5002")
    ensures A321neoSlots()[31] == Slot("N14502", "5032")
    ensures A321neoSlot(2) == Slot("N44502", "5002")
  {
    A321neoSlotsAt(1);
    A321neoSlotsAt(31);
    Rendered14502();
    Rendered44502();
    Rendered5002And5032();
  }

  /** Iteration 22 of the 737 MAX 9 loop already yields the override's value. */
  lemma Max9OverrideNoOp()
    ensures Max9Slot(22) == Slot("N37522", "7522")
  {
    AppendDigit(3, 7); AppendDigit(37, 5); AppendDigit(375, 2); AppendDigit(3752, 2);
    AppendDigit(7, 5); AppendDigit(75, 2); AppendDigit(752, 2);
  }

  /** Iteration 26 of the 787-9 loop already yields the override's value. */
  lemma B789OverrideNoOp()
    ensures B789Slot(26) == Slot("N24976", "3976")
  {
    AppendDigit(2, 4); AppendDigit(24, 9); AppendDigit(249, 7); AppendDigit(2497, 6);
    AppendDigit(3, 9); AppendDigit(39, 7); AppendDigit(397, 6);
  }

  /** The overrides of the 737 MAX 9 and 787-9 lists write back what the loop
      already produced there. */
  lemma OverridesUnchanged()
    ensures forall k :: 0 <= k < 113 ==> Max9Slots()[k] == Max9Slot(k + 1)
    ensures forall k :: 0 <= k < 47 ==> B789Slots()[k] == B789Slot(k + 1)
  {
    Max9OverrideNoOp();
    B789OverrideNoOp();
    forall k | 0 <= k < 113 ensures Max9Slots()[k] == Max9Slot(k + 1) {
      Max9SlotsAt(k);
    }
    forall k | 0 <= k < 47 ensures B789Slots()[k] == B789Slot(k + 1) {
      B789SlotsAt(k);
    }
  }

  /** Different numbers render differently. */
  lemma NatToStringInjective(m: nat, n: nat)
    requires m != n
    ensures NatToString(m) != NatToString(n)
    ensures "N" + NatToString(m) != "N" + NatToString(n)
  {
    assert DecimalValue(NatToString(m)) == m && DecimalValue(NatToString(n)) == n;
    assert ("N" + NatToString(m))[1..] == NatToString(m);
    assert ("N" + NatToString(n))[1..] == NatToString(n);
  }

  /** Within the 737 MAX 9 and 787-9 lists the registrations are all different. */
  lemma GeneratedRegsDistinct()
    ensures forall j, k :: 0 <= j < k < 113 ==> Max9Slots()[j].r != Max9Slots()[k].r
    ensures forall j, k :: 0 <= j < k < 47 ==> B789Slots()[j].r != B789Slots()[k].r
  {
    OverridesUnchanged();
    forall j, k | 0 <= j < k < 113 ensures Max9Slots()[j].r != Max9Slots()[k].r {
      NatToStringInjective(37501 + j, 37501 + k);
    }
    forall j, k | 0 <= j < k < 47 ensures B789Slots()[j].r != B789Slots()[k].r {
      NatToStringInjective(24951 + j, 24951 + k);
    }
  }

  lemma {:induction false} NatToStringLength(n: nat)
    requires n >= 100
    ensures |NatToString(n)| >= 3
  {
    if n >= 1000 {
      NatToStringLength(n / 10);
    } else {
      assert NatToString(n) == NatToString(n / 10) + [DigitChar(n % 10)];
      assert NatToString(n / 10) == NatToString(n / 100) + [DigitChar((n / 10) % 10)];
    }
  }

  /** `N` followed by a number of at least three digits is a valid registration. */
  lemma RenderedRegValid(n: nat)
    requires n >= 100
    ensures IsValidReg("N" + NatToString(n))
  {
    NatToStringLength(n);
    var s := "N" + NatToString(n);
    assert s[1] == NatToString(n)[0];
  }

  /** Every generated registration passes the registration check of the fleet
      rebuild. */
  lemma GeneratedRegsValid()
    ensures forall k :: 0 <= k < 211 ==> IsValidReg(Added()[k].r)
  {
    OverridesUnchanged();
    forall k | 0 <= k < 211 ensures IsValidReg(Added()[k].r) {
      AddedAt(k);
      if k < 51 {
        A321neoSlotsAt(k);
        if k != 1 {
          if k < 30 { RenderedRegValid(44501 + k); } else { RenderedRegValid(14500 + (k - 29)); }
        }
      } else if k < 164 {
        RenderedRegValid(37501 + (k - 51));
      } else {
        RenderedRegValid(24951 + (k - 164));
      }
    }
  }

  /** The configuration strings are the renderings of their class counts. */
  lemma A321neoConfigText()
    ensures NatToString(20) + "F/" + NatToString(57) + "E+/" + NatToString(123) + "Y" == "20F/57E+/123Y"
  {
    AppendDigit(2, 0); AppendDigit(5, 7); AppendDigit(1, 2); AppendDigit(12, 3);
  }

  lemma Max9ConfigText()
    ensures NatToString(20) + "F/" + NatToString(45) + "E+/" + NatToString(114) + "Y" == "20F/45E+/114Y"
  {
    AppendDigit(2, 0); AppendDigit(4, 5); AppendDigit(1, 1); AppendDigit(11, 4);
  }

  lemma B789ConfigText257()
    ensures NatToString(48) + "J/" + NatToString(21) + "PE/" + NatToString(39) + "E+/" + NatToString(149) + "Y"
            == "48J/21PE/39E+/149Y"
  {
    AppendDigit(4, 8); AppendDigit(2, 1); AppendDigit(3, 9); AppendDigit(1, 4); AppendDigit(14, 9);
  }

  lemma B789ConfigText222()
    ensures NatToString(64) + "J/" + NatToString(35) + "PE/" + NatToString(33) + "E+/" + NatToString(90) + "Y"
            == "64J/35PE/33E+/90Y"
  {
    AppendDigit(6, 4); AppendDigit(3, 5); AppendDigit(3, 3); AppendDigit(9, 0);
  }

  /** Each configuration string parses to the seats written beside it. */
  lemma A321neoConfigSeats()
    ensures SeatsOf("20F/57E+/123Y") == Seats(map["F" := 20, "E+" := 57, "Y" := 123], 200)
  {
    ThreeClassSeats(20, 57, 123);
    A321neoConfigText();
  }

  lemma Max9ConfigSeats()
    ensures SeatsOf("20F/45E+/114Y") == Seats(map["F" := 20, "E+" := 45, "Y" := 114], 179)
  {
    ThreeClassSeats(20, 45, 114);
    Max9ConfigText();
  }

  lemma B789ConfigSeats257()
    ensures SeatsOf("48J/21PE/39E+/149Y") == Seats(map["J" := 48, "PE" := 21, "E+" := 39, "Y" := 149], 257)
  {
    FourClassSeats(48, 21, 39, 149);
    B789ConfigText257();
  }

  lemma B789ConfigSeats222()
    ensures SeatsOf("64J/35PE/33E+/90Y") == Seats(map["J" := 64, "PE" := 35, "E+" := 33, "Y" := 90], 222)
  {
    FourClassSeats(64, 35, 33, 90);
    B789ConfigText222();
  }

  /** Entry `k` of the appended list. */
  lemma AddedAt(k: nat)
    requires k < 211
    ensures k < 51 ==> Added()[k] == A321neoEntry(A321neoSlots()[k])
    ensures 51 <= k < 164 ==> Added()[k] == Max9Entry(Max9Slots()[k - 51])
    ensures 164 <= k ==> Added()[k] == B789Entry(B789Slots()[k - 164], k - 164)
  {
  }

  /** The seats written into each generated entry are exactly what parsing its
      configuration string gives, so its total is the sum of its class counts. */
  lemma GeneratedSeatsMatchConfig()
    ensures forall k :: 0 <= k < 211 ==> Added()[k].seats == Some(SeatsOf(Added()[k].c))
  {
    A321neoConfigSeats();
    Max9ConfigSeats();
    B789ConfigSeats257();
    B789ConfigSeats222();
    forall k | 0 <= k < 211 ensures Added()[k].seats == Some(SeatsOf(Added()[k].c)) {
      AddedAt(k);
    }
  }
}
