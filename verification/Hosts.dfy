/** How the hosts of the platform get their addresses, and the two lookups between hosts and
    addresses (src/data_utils.c:244-259 and 427-487). */
module Hosts {
  import opened Common
  import opened Decimal

  const WORD := 0x1_0000_0000

  /** The ip property of a host: its text and what inet_addr makes of it. */
  datatype Prop = Prop(text: string, value: nat)

  /** The hosts in the platform's order; some carry no ip property. */
  type Platform = seq<Option<Prop>>

  predicate Explicit(p: Platform, h: nat) {
    h < |p| && p[h].Some?
  }

  predicate Missing(p: Platform, h: nat) {
    h < |p| && p[h].None?
  }

  /** The values are 32-bit numbers, and those of decimal quads are what the quads say. Other spellings
      may stand for any value. */
  ghost predicate Parsed(p: Platform) {
    forall h: nat {:trigger ParsedAt(p, h)} :: Explicit(p, h) ==> ParsedAt(p, h)
  }

  ghost predicate ParsedAt(p: Platform, h: nat)
    requires Explicit(p, h)
  {
    var Prop(text, value) := p[h].value;
    value < WORD && (Aton(text) != -1 ==> value == Aton(text))
  }

  /** A property in the form inet_ntoa prints has the value it prints. */
  lemma ParsedPrinted(p: Platform, h: nat, ip: nat)
    requires Parsed(p) && Explicit(p, h) && ip < WORD && p[h].value.text == Ntoa(ip)
    ensures p[h].value.value == ip
  {
    assert ParsedAt(p, h);
    AtonOfNtoa(ip);
  }

  /** The addresses and the hosts without one, in the order they are collected. */
  function Values(p: Platform): seq<nat> {
    if p == [] then [] else Values(p[..|p| - 1]) + (if p[|p| - 1].Some? then [p[|p| - 1].value.value] else [])
  }

  function Unset(p: Platform): seq<nat> {
    if p == [] then [] else Unset(p[..|p| - 1]) + (if p[|p| - 1].None? then [|p| - 1] else [])
  }

  lemma CollectNext(p: Platform, i: nat)
    requires i < |p|
    ensures Values(p[..i + 1]) == if p[i].Some? then Values(p[..i]) + [p[i].value.value] else Values(p[..i])
    ensures Unset(p[..i + 1]) == if p[i].None? then Unset(p[..i]) + [i] else Unset(p[..i])
  {
    assert p[..i + 1][..i] == p[..i];
  }

  /** Some host carries the address v. */
  ghost predicate Given(p: Platform, v: int) {
    exists h: nat :: Explicit(p, h) && p[h].value.value == v
  }

  lemma {:induction false} ValuesOf(p: Platform)
    ensures |Values(p)| + |Unset(p)| == |p|
    ensures forall v: int :: v in Values(p) <==> Given(p, v)
  {
    if p != [] {
      var q, last := p[..|p| - 1], |p| - 1;
      ValuesOf(q);
      forall v: int ensures v in Values(p) <==> Given(p, v) {
        if Given(q, v) {
          var h: nat :| Explicit(q, h) && q[h].value.value == v;
          assert Explicit(p, h) && p[h].value.value == v;
        }
        if Given(p, v) && !(p[last].Some? && p[last].value.value == v) {
          var h: nat :| Explicit(p, h) && p[h].value.value == v;
          assert Explicit(q, h) && q[h].value.value == v;
        }
        if p[last].Some? && p[last].value.value == v { assert Explicit(p, last); }
      }
    }
  }

  lemma {:induction false} UnsetOf(p: Platform)
    ensures forall h: nat :: h in Unset(p) <==> Missing(p, h)
    ensures forall i, j :: 0 <= i < j < |Unset(p)| ==> Unset(p)[i] < Unset(p)[j]
  {
    if p != [] {
      var q, last := p[..|p| - 1], |p| - 1;
      UnsetOf(q);
      assert forall h: nat :: Missing(p, h) <==> Missing(q, h) || (h == last && p[last].None?);
      assert forall i :: 0 <= i < |Unset(q)| ==> Unset(q)[i] in Unset(q) && Missing(q, Unset(q)[i]);
    }
  }

  // ----- what the two tables hold

  /** The text a host is filed under. */
  function Key(p: Platform, ips: map<nat, nat>, h: nat): string
    requires h in ips && h < |p|
  {
    if p[h].Some? then p[h].value.text else Ntoa(ips[h])
  }

  /** The text table files every host that has an address; of several explicit hosts with one text
      the last stays. */
  ghost predicate Filed(p: Platform, ips: map<nat, nat>, byText: map<string, nat>) {
    && (forall h: nat {:trigger InTable(p, ips, byText, h)} :: h in ips ==> InTable(p, ips, byText, h))
    && (forall t {:trigger LastOf(p, ips, byText, t)} :: t in byText ==> LastOf(p, ips, byText, t))
  }

  ghost predicate InTable(p: Platform, ips: map<nat, nat>, byText: map<string, nat>, h: nat)
    requires h in ips
  {
    h < |p| && (p[h].Some? ==> ips[h] == p[h].value.value) && Key(p, ips, h) in byText
  }

  ghost predicate LastOf(p: Platform, ips: map<nat, nat>, byText: map<string, nat>, t: string)
    requires t in byText
  {
    var h := byText[t];
    && h in ips && h < |p| && Key(p, ips, h) == t
    && forall g: nat :: g in ips && Explicit(p, g) && p[g].value.text == t && Explicit(p, h) ==> g <= h
  }

  /** Exactly the explicit hosts before i are in the table. */
  ghost predicate Read(p: Platform, ips: map<nat, nat>, i: nat) {
    forall h: nat :: h in ips <==> h < i && Explicit(p, h)
  }

  lemma ReadNext(p: Platform, ips: map<nat, nat>, i: nat)
    requires Read(p, ips, i) && i < |p|
    ensures Read(p, if p[i].Some? then ips[i := p[i].value.value] else ips, i + 1)
  {
    var next := if p[i].Some? then ips[i := p[i].value.value] else ips;
    forall h: nat ensures h in next <==> h < i + 1 && Explicit(p, h) { assert h in ips <==> h < i && Explicit(p, h); }
  }

  lemma ReadBefore(p: Platform, ips: map<nat, nat>, i: nat)
    requires Read(p, ips, i)
    ensures i !in ips && forall h: nat :: h in ips ==> h < i
  {
    forall h: nat | h in ips ensures h < i { assert h in ips <==> h < i && Explicit(p, h); }
  }

  /** Filing one more host, under its text or under its fresh address. */
  lemma FiledNext(p: Platform, ips: map<nat, nat>, byText: map<string, nat>, h: nat, ip: nat)
    requires Filed(p, ips, byText) && h < |p| && h !in ips
    requires p[h].Some? ==> ip == p[h].value.value && forall g: nat :: g in ips ==> g < h
    requires p[h].None? ==> Ntoa(ip) !in byText
    ensures Filed(p, ips[h := ip], byText[Key(p, ips[h := ip], h) := h])
  {
    var ips', key := ips[h := ip], Key(p, ips[h := ip], h);
    var byText' := byText[key := h];
    forall g: nat | g in ips' ensures InTable(p, ips', byText', g) {
      if g != h { assert InTable(p, ips, byText, g); }
    }
    forall t | t in byText' ensures LastOf(p, ips', byText', t) {
      if t != key { assert LastOf(p, ips, byText, t); }
    }
  }

  /** The chosen addresses, in host order: increasing, none of them given to another host, and no
      free positive number skipped. */
  ghost predicate Chosen(given: seq<nat>, chosen: seq<nat>) {
    && (forall i :: 0 <= i < |chosen| ==> 0 < chosen[i] && chosen[i] !in given)
    && (forall i, j :: 0 <= i < j < |chosen| ==> chosen[i] < chosen[j])
    && (forall i, v :: 0 <= i < |chosen| && 0 < v < chosen[i] ==> v in given || v in chosen)
  }

  ghost function UpTo(n: nat): set<int>
    ensures |UpTo(n)| == n && forall v: int :: v in UpTo(n) <==> 0 < v <= n
  {
    if n == 0 then {} else UpTo(n - 1) + {n}
  }

  lemma {:induction false} NoMoreValues(s: seq<nat>)
    ensures |(set v: int | v in s)| <= |s|
  {
    if s != [] {
      NoMoreValues(s[1..]);
      assert (set v: int | v in s) == (set v: int | v in s[1..]) + {s[0]};
    }
  }

  /** If every positive number below n is used, there are at least n - 1 used numbers. */
  lemma UsedBelow(n: nat, used: seq<nat>)
    requires 0 < n && forall v :: 0 < v < n ==> v in used
    ensures n <= |used| + 1
  {
    NoMoreValues(used);
    SubsetCount(UpTo(n - 1), set v: int | v in used);
  }

  // ----- the assignment, host by host

  /** Some host without ip property was given v. */
  ghost predicate Taken(p: Platform, ips: map<nat, nat>, v: int) {
    exists h: nat :: Missing(p, h) && h in ips && ips[h] == v
  }

  /** Every host has an address: its own if it carries one, and otherwise the hosts receive, in
      order, the smallest positive numbers that no host carries. */
  ghost predicate Assigned(p: Platform, ips: map<nat, nat>) {
    && (forall h: nat :: h in ips <==> h < |p|)
    && (forall h: nat :: Explicit(p, h) ==> ips[h] == p[h].value.value)
    && (forall h: nat :: Missing(p, h) ==> 0 < ips[h] <= |p| && !Given(p, ips[h]))
    && (forall g: nat, h: nat :: Missing(p, g) && Missing(p, h) && g < h ==> ips[g] < ips[h])
    && (forall h: nat, v: nat {:trigger Missing(p, h), Given(p, v)} {:trigger Missing(p, h), Taken(p, ips, v)} ::
          Missing(p, h) && 0 < v < ips[h] ==> Given(p, v) || Taken(p, ips, v))
  }

  /** The queue and the numbers chosen for it so far. */
  ghost predicate Dealt(p: Platform, ips: map<nat, nat>, chosen: seq<nat>) {
    && |chosen| <= |Unset(p)|
    && (forall h: nat :: h in ips <==> Explicit(p, h) || h in Unset(p)[..|chosen|])
    && (forall i :: 0 <= i < |chosen| ==> Unset(p)[i] in ips && ips[Unset(p)[i]] == chosen[i])
  }

  lemma DealtNext(p: Platform, ips: map<nat, nat>, chosen: seq<nat>, ip: nat)
    requires Dealt(p, ips, chosen) && |chosen| < |Unset(p)|
    ensures Unset(p)[|chosen|] !in ips && Missing(p, Unset(p)[|chosen|])
    ensures Dealt(p, ips[Unset(p)[|chosen|] := ip], chosen + [ip])
  {
    UnsetOf(p);
    var k, u := |chosen|, Unset(p);
    assert u[k] in u;
    assert u[..k + 1] == u[..k] + [u[k]];
  }

  lemma ChosenNext(given: seq<nat>, chosen: seq<nat>, ip: nat)
    requires Chosen(given, chosen) && 0 < ip && ip !in given && ip !in chosen
    requires forall v :: 0 < v < ip ==> v in given || v in chosen
    requires forall i :: 0 <= i < |chosen| ==> chosen[i] <= ip
    ensures Chosen(given, chosen + [ip])
  {
    var next := chosen + [ip];
    assert forall i :: 0 <= i < |chosen| ==> chosen[i] in chosen && next[i] == chosen[i];
    forall i, v | 0 <= i < |next| && 0 < v < next[i] ensures v in given || v in next {
      assert v in given || v in chosen;
    }
  }

  /** A fresh number files under a fresh text. */
  lemma FreshText(p: Platform, ips: map<nat, nat>, byText: map<string, nat>, used: seq<nat>, ip: nat)
    requires Parsed(p) && Filed(p, ips, byText) && ip !in used && ip < WORD
    requires forall h: nat :: h in ips ==> ips[h] in used
    ensures Ntoa(ip) !in byText
  {
    if Ntoa(ip) in byText {
      assert LastOf(p, ips, byText, Ntoa(ip));
      var h := byText[Ntoa(ip)];
      assert InTable(p, ips, byText, h);
      if p[h].Some? { ParsedPrinted(p, h, ip); } else { NtoaInjective(ips[h], ip); }
    }
  }

  ghost predicate AllDealt(p: Platform, ips: map<nat, nat>, chosen: seq<nat>) {
    && Dealt(p, ips, chosen) && |chosen| == |Unset(p)| && Chosen(Values(p), chosen)
    && forall i :: 0 <= i < |chosen| ==> chosen[i] <= |p|
  }

  /** The place of a host in the queue. */
  lemma Place(p: Platform, ips: map<nat, nat>, chosen: seq<nat>, h: nat) returns (i: nat)
    requires AllDealt(p, ips, chosen) && Missing(p, h)
    ensures i < |chosen| && Unset(p)[i] == h && h in ips && ips[h] == chosen[i]
  {
    UnsetOf(p);
    assert h in Unset(p);
    i :| 0 <= i < |Unset(p)| && Unset(p)[i] == h;
  }

  lemma DealtOutside(p: Platform, ips: map<nat, nat>, chosen: seq<nat>, h: nat)
    requires AllDealt(p, ips, chosen) && Missing(p, h)
    ensures h in ips && 0 < ips[h] <= |p| && !Given(p, ips[h])
  {
    var i := Place(p, ips, chosen, h);
    ValuesOf(p);
  }

  lemma DealtRising(p: Platform, ips: map<nat, nat>, chosen: seq<nat>, g: nat, h: nat)
    requires AllDealt(p, ips, chosen) && Missing(p, g) && Missing(p, h) && g < h
    ensures g in ips && h in ips && ips[g] < ips[h]
  {
    var i := Place(p, ips, chosen, g);
    var j := Place(p, ips, chosen, h);
    UnsetOf(p);
    assert i < j;
  }

  lemma DealtNoGap(p: Platform, ips: map<nat, nat>, chosen: seq<nat>, h: nat, v: nat)
    requires AllDealt(p, ips, chosen) && Missing(p, h) && h in ips && 0 < v < ips[h]
    ensures Given(p, v) || Taken(p, ips, v)
  {
    var i := Place(p, ips, chosen, h);
    ValuesOf(p);
    if v in chosen {
      var j :| 0 <= j < |chosen| && chosen[j] == v;
      UnsetOf(p);
      assert Unset(p)[j] in Unset(p);
      assert Missing(p, Unset(p)[j]);
    }
  }

  lemma DealtAssigned(p: Platform, ips: map<nat, nat>, byText: map<string, nat>, chosen: seq<nat>)
    requires Filed(p, ips, byText) && AllDealt(p, ips, chosen)
    ensures Assigned(p, ips)
  {
    UnsetOf(p);
    assert Unset(p)[..|chosen|] == Unset(p);
    forall h: nat ensures h in ips <==> h < |p| { assert h < |p| <==> Explicit(p, h) || Missing(p, h); }
    forall h: nat | Explicit(p, h) ensures ips[h] == p[h].value.value { assert InTable(p, ips, byText, h); }
    forall h: nat | Missing(p, h) ensures 0 < ips[h] <= |p| && !Given(p, ips[h]) { DealtOutside(p, ips, chosen, h); }
    forall g: nat, h: nat | Missing(p, g) && Missing(p, h) && g < h ensures ips[g] < ips[h] {
      DealtRising(p, ips, chosen, g, h);
    }
    forall h: nat, v: nat | Missing(p, h) && 0 < v < ips[h] ensures Given(p, v) || Taken(p, ips, v) {
      DealtNoGap(p, ips, chosen, h, v);
    }
  }

  lemma Collected(p: Platform, ips: map<nat, nat>, byText: map<string, nat>)
    requires Filed(p, ips, byText) && forall h: nat :: h in ips <==> Explicit(p, h)
    ensures forall h: nat :: h in ips ==> ips[h] in Values(p)
    ensures Dealt(p, ips, [])
  {
    ValuesOf(p);
    forall h: nat | h in ips ensures ips[h] in Values(p) {
      assert InTable(p, ips, byText, h) && Explicit(p, h);
      assert Given(p, ips[h]);
    }
  }

  /** The second pass at work: what is queued, in use and chosen, and where the search stands. */
  ghost predicate Dealing(p: Platform, ips: map<nat, nat>, byText: map<string, nat>,
                          queue: seq<nat>, used: seq<nat>, temp: nat, chosen: seq<nat>) {
    && |chosen| <= |Unset(p)| && queue == Unset(p)[|chosen|..] && used == Values(p) + chosen
    && Filed(p, ips, byText) && Dealt(p, ips, chosen) && Chosen(Values(p), chosen)
    && (forall h: nat :: h in ips ==> ips[h] in used)
    && 0 < temp && (forall v :: 0 < v < temp ==> v in used)
    && (forall i :: 0 <= i < |chosen| ==> chosen[i] <= temp && chosen[i] <= |p|)
  }

  lemma DealtStep(p: Platform, ips: map<nat, nat>, byText: map<string, nat>,
                  queue: seq<nat>, used: seq<nat>, temp: nat, chosen: seq<nat>)
    requires Parsed(p) && queue != [] && temp <= |p| < WORD && temp !in used
    requires Dealing(p, ips, byText, queue, used, temp, chosen)
    ensures Dealing(p, ips[queue[0] := temp], byText[Ntoa(temp) := queue[0]],
                    queue[1..], used + [temp], temp, chosen + [temp])
  {
    assert queue[0] == Unset(p)[|chosen|];
    DealtNext(p, ips, chosen, temp);
    forall v | 0 < v < temp ensures v in Values(p) || v in chosen { assert v in used; }
    ChosenNext(Values(p), chosen, temp);
    FreshText(p, ips, byText, used, temp);
    FiledNext(p, ips, byText, queue[0], temp);
    assert queue[1..] == Unset(p)[|chosen| + 1..];
    assert used + [temp] == Values(p) + (chosen + [temp]);
  }

  // ----- the lookups

  function HostOf(byText: map<string, nat>, ip: nat): Option<nat> {
    if Ntoa(ip) in byText then Some(byText[Ntoa(ip)]) else None
  }

  /** All addresses differ, except that two hosts may carry the same one. */
  lemma AddressesDiffer(p: Platform, ips: map<nat, nat>, g: nat, h: nat)
    requires Assigned(p, ips) && g < |p| && h < |p| && g != h && Missing(p, h)
    ensures ips[g] != ips[h]
  {
    if Explicit(p, g) {
      assert Given(p, ips[g]);
    } else {
      assert Missing(p, g);
    }
  }

  /** Looking an address up never yields a host with another one, and an address of no host is
      refused. */
  lemma LookupSound(p: Platform, ips: map<nat, nat>, byText: map<string, nat>, ip: nat)
    requires Parsed(p) && Filed(p, ips, byText) && Assigned(p, ips) && ip < WORD
    ensures HostOf(byText, ip).Some? ==> HostOf(byText, ip).value in ips && ips[HostOf(byText, ip).value] == ip
  {
    if HostOf(byText, ip).Some? {
      assert LastOf(p, ips, byText, Ntoa(ip));
      var h := byText[Ntoa(ip)];
      assert Explicit(p, h) || Missing(p, h);
      if Explicit(p, h) { ParsedPrinted(p, h, ip); } else { NtoaInjective(ips[h], ip); }
    }
  }

  /** The address of host h leads back to it. */
  ghost predicate Inverts(ips: map<nat, nat>, byText: map<string, nat>, h: nat) {
    h in ips && HostOf(byText, ips[h]) == Some(h)
  }

  predicate Canonical(p: Platform, h: nat)
    requires Explicit(p, h)
  {
    p[h].value.text == Ntoa(p[h].value.value)
  }

  /** The property of host h is in the form inet_ntoa prints and no later host carries the same. */
  ghost predicate Findable(p: Platform, h: nat)
    requires Explicit(p, h)
  {
    Canonical(p, h) && forall g: nat :: h < g && Explicit(p, g) ==> p[g].value.text != p[h].value.text
  }

  /** The address of a host leads back to it if and only if the address was chosen for it or its
      property makes it findable. */
  lemma LookupInverts(p: Platform, ips: map<nat, nat>, byText: map<string, nat>, h: nat)
    requires Parsed(p) && Filed(p, ips, byText) && Assigned(p, ips) && h < |p| < WORD
    ensures Inverts(ips, byText, h) <==> Missing(p, h) || Findable(p, h)
  {
    var key := Ntoa(ips[h]);
    assert InTable(p, ips, byText, h);
    assert Explicit(p, h) || Missing(p, h);
    if Explicit(p, h) { assert ParsedAt(p, h); }
    if key in byText {
      var k := byText[key];
      assert LastOf(p, ips, byText, key);
      LookupSound(p, ips, byText, ips[h]);
      if Missing(p, h) && k != h { AddressesDiffer(p, ips, k, h); }
      if Missing(p, k) && k != h { AddressesDiffer(p, ips, h, k); }
    }
  }

  ghost predicate Apart(p: Platform, g: nat, h: nat)
    requires Explicit(p, g) && Explicit(p, h)
  {
    p[g].value.value != p[h].value.value
  }

  /** The lookups are inverse on the whole platform if and only if the explicit addresses are
      written as inet_ntoa prints them and are pairwise distinct. */
  lemma LookupsInverse(p: Platform, ips: map<nat, nat>, byText: map<string, nat>)
    requires Parsed(p) && Filed(p, ips, byText) && Assigned(p, ips) && |p| < WORD
    ensures (forall h: nat :: h < |p| ==> Inverts(ips, byText, h)) <==>
      && (forall h: nat :: Explicit(p, h) ==> Canonical(p, h))
      && (forall g: nat, h: nat {:trigger Apart(p, g, h)} :: Explicit(p, g) && Explicit(p, h) && g < h ==> Apart(p, g, h))
  {
    if forall h: nat :: h < |p| ==> Inverts(ips, byText, h) {
      forall h: nat | Explicit(p, h) ensures Findable(p, h) {
        assert Inverts(ips, byText, h);
        LookupInverts(p, ips, byText, h);
      }
      forall g: nat, h: nat | Explicit(p, g) && Explicit(p, h) && g < h ensures Apart(p, g, h) {
        assert Findable(p, g) && Findable(p, h);
      }
    } else {
      var h: nat :| h < |p| && !Inverts(ips, byText, h);
      LookupInverts(p, ips, byText, h);
      assert Explicit(p, h);
      if Canonical(p, h) {
        var g: nat :| h < g && Explicit(p, g) && p[g].value.text == p[h].value.text;
        assert ParsedAt(p, h);
        ParsedPrinted(p, g, p[h].value.value);
        assert !Apart(p, h, g);
      }
    }
  }

  class HostList {
    var ips: map<nat, nat>
    var byText: map<string, nat>

    constructor ()
      ensures ips == map[] && byText == map[]
    {
      ips, byText := map[], map[];
    }

    /** The first pass: hosts with an ip property are entered, the others are queued. */
    method ReadExplicit(p: Platform) returns (used: seq<nat>, queue: seq<nat>)
      requires ips == map[] && byText == map[]
      modifies this
      ensures used == Values(p) && queue == Unset(p)
      ensures Filed(p, ips, byText) && forall h: nat :: h in ips <==> Explicit(p, h)
    {
      used, queue := [], [];
      var i := 0;
      while i < |p|
        invariant 0 <= i <= |p|
        invariant used == Values(p[..i]) && queue == Unset(p[..i])
        invariant Filed(p, ips, byText) && Read(p, ips, i)
      {
        CollectNext(p, i);
        ReadNext(p, ips, i);
        ReadBefore(p, ips, i);
        if p[i].None? {
          queue := queue + [i];
        } else {
          FiledNext(p, ips, byText, i, p[i].value.value);
          ips := ips[i := p[i].value.value];
          byText := byText[p[i].value.text := i];
          used := used + [p[i].value.value];
        }
        i := i + 1;
      }
      assert p[..|p|] == p;
    }

    /** The inner search, in 32-bit arithmetic: it stops at the first unused number, before it can
        wrap around, after at most one probe more than numbers are in use. */
    method NextFree(start: nat, used: seq<nat>) returns (ip: nat)
      requires 0 < start && |used| < WORD - 1 && forall v :: 0 < v < start ==> v in used
      ensures start <= ip <= |used| + 1 && ip !in used
      ensures forall v :: 0 < v < ip ==> v in used
    {
      ip := start;
      UsedBelow(ip, used);
      while ip in used
        invariant start <= ip <= |used| + 1
        invariant forall v :: 0 < v < ip ==> v in used
        decreases |used| + 1 - ip
      {
        UsedBelow(ip + 1, used);
        ip := (ip + 1) % WORD;
      }
    }

    /** The second pass: the queued hosts get the free numbers. */
    method AssignMissing(p: Platform, given: seq<nat>, unset: seq<nat>)
      requires Parsed(p) && |p| < WORD / 2 && given == Values(p) && unset == Unset(p)
      requires Filed(p, ips, byText) && forall h: nat :: h in ips <==> Explicit(p, h)
      modifies this
      ensures Filed(p, ips, byText) && Assigned(p, ips)
    {
      var used, queue, temp := given, unset, 1;
      ghost var chosen: seq<nat> := [];
      Collected(p, ips, byText);
      while queue != []
        invariant Dealing(p, ips, byText, queue, used, temp, chosen)
        decreases |queue|
      {
        var i := queue[0];
        queue := queue[1..];
        ValuesOf(p);
        temp := NextFree(temp, used);
        DealtStep(p, ips, byText, [i] + queue, used, temp, chosen);
        ips := ips[i := temp];
        byText := byText[Ntoa(temp) := i];
        used := used + [temp];
        chosen := chosen + [temp];
      }
      DealtAssigned(p, ips, byText, chosen);
    }

    /** init_host_list. */
    method Init(p: Platform)
      requires Parsed(p) && |p| < WORD / 2 && ips == map[] && byText == map[]
      modifies this
      ensures Filed(p, ips, byText) && Assigned(p, ips)
    {
      var used, queue := ReadExplicit(p);
      AssignMissing(p, used, queue);
    }

    /** get_host_by_ip. */
    method GetHostByIp(ip: nat) returns (h: Option<nat>)
      ensures h == HostOf(byText, ip)
    {
      if Ntoa(ip) !in byText {
        return None;
      }
      return Some(byText[Ntoa(ip)]);
    }
  }
}
