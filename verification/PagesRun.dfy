/** Every sequence of opens, loads, unloads, splits and live events keeps the loaded segments a run of slices of the
    whole log's fold. */
module PagesRun {
  import opened Options
  import opened FoldSpec
  import opened FoldSim
  import opened FoldSplit
  import opened PagesSpec
  import opened Pages

  // ---- what the server answers ----

  /** The tail page of a log of p.next events. */
  predicate TailPage(l: seq<Event>, p: Page) {
    && |p.events| <= p.next <= |l|
    && var cut := p.next + 1 - |p.events|;
       && p.events == l[cut - 1..p.next] && CleanCut(l, cut) && SeedFits(l, cut, p.seed)
       && p.hasOlder == (cut > 1) && p.nextBefore == (if p.events != [] then cut else 0)
  }

  /** The page before `first`. */
  predicate OlderPage(l: seq<Event>, first: nat, p: Page) {
    && 1 <= first <= |l| + 1 && |p.events| < first
    && var cut := first - |p.events|;
       p.events == l[cut - 1..first - 1] && CleanCut(l, cut) && p.hasOlder == (cut > 1)
         && (first > 1 ==> p.events != [])
  }

  /** What fetches back a dropped segment: a page ending where the next one starts, reaching back at least to where it
      started; or, for the old tail, everything since. */
  predicate NewerPage(l: seq<Event>, t: View, p: Page)
    requires t.below != []
  {
    var from := t.below[0];
    if |t.below| > 1 then
      var until := t.below[1];
      1 <= from <= until <= |l| + 1 && until - from <= |p.events| < until
        && p.events == l[until - |p.events| - 1..until - 1]
    else
      1 <= from && t.lastSeq <= from - 1 + |p.events| <= |l| && p.events == l[from - 1..from - 1 + |p.events|]
  }

  // ---- the invariant ----

  predicate Shape(t: View) {
    && t.segs != [] && (t.detached <==> t.below != [])
    && (forall i, j :: 0 <= i < j < |t.segs| ==> t.segs[i].first < t.segs[j].first)
    && (forall i, j :: 0 <= i < j < |t.below| ==> t.below[i] < t.below[j])
    && (t.below != [] ==> t.segs[|t.segs| - 1].first < t.below[0])
  }

  function Hi(t: View, i: nat): nat
    requires i < |t.segs|
  {
    if i < |t.segs| - 1 then t.segs[i + 1].first else if t.below != [] then t.below[0] else t.lastSeq + 1
  }

  ghost predicate SegOK(l: seq<Event>, s: Seg, hi: nat) {
    && 1 <= s.first <= hi <= |l| + 1 && CleanCut(l, s.first) && SeedFits(l, s.first, s.seed)
    && s.events == l[s.first - 1..hi - 1] && Shows(l, s.first, hi, s.fold)
  }

  /** The live tail's fold goes on as a piece of the whole. */
  ghost predicate TailOK(l: seq<Event>, n: nat, s: Seg) {
    && 1 <= s.first <= n + 1 && n <= |l|
    && Sim(s.first, |Whole(l, s.first - 1).blocks|, Whole(l, n), s.fold) && TurnsRise(s.fold.turn, l[n..])
  }

  ghost predicate CutsOK(l: seq<Event>, below: seq<nat>, n: nat) {
    forall i :: 0 <= i < |below| ==> CleanCut(l, below[i]) && below[i] <= n + 1
  }

  ghost predicate SeenOK(t: View)
    requires t.segs != []
  {
    && (forall n :: n in t.seen ==> t.segs[0].first <= n <= t.lastSeq)
    && (forall n :: t.segs[0].first <= n < Hi(t, |t.segs| - 1) ==> n in t.seen)
  }

  ghost predicate SegsOK(l: seq<Event>, t: View) { forall i :: 0 <= i < |t.segs| ==> SegOK(l, t.segs[i], Hi(t, i)) }

  ghost predicate Inv(l: seq<Event>, t: View) {
    && Shape(t) && t.lastSeq <= |l|
    && SegsOK(l, t)
    && CutsOK(l, t.below, t.lastSeq) && SeenOK(t)
    && (!t.detached ==> TailOK(l, t.lastSeq, t.segs[|t.segs| - 1]))
    && (t.hasOlder <==> t.segs[0].first > 1)
  }

  // ---- opening ----

  lemma FreshTurn(l: seq<Event>, c: nat, n: nat, seed: nat)
    requires 1 <= c <= n + 1 && n <= |l| && SeedFits(l, c, seed)
    ensures TurnsRise(FoldFrom(Seeded(seed), l[c - 1..n]).turn, l[n..])
  {
    SuffixStillRises(Seeded(seed).turn, l[c - 1..], l[c - 1..n], l[n..]);
    FoldTurn(Seeded(seed), l[c - 1..n]);
  }

  lemma FreshTail(l: seq<Event>, n: nat, s: Seg)
    requires Log(l) && CleanCut(l, s.first) && SeedFits(l, s.first, s.seed) && s.first <= n + 1 && n <= |l|
    requires s == MakeSeg(l[s.first - 1..n], s.seed, s.first)
    ensures TailOK(l, n, s) && SegOK(l, s, n + 1)
  {
    hide TurnsRise, Sim, Shows, FoldFrom, CleanRun;
    FreshHolds(l, s.first, n, s.seed);
    FetchedShows(l, s.first, n + 1, s.seed);
    FreshTurn(l, s.first, n, s.seed);
  }

  lemma SuffixStillRises(turn: int, all: seq<Event>, a: seq<Event>, b: seq<Event>)
    requires TurnsRise(turn, all) && all == a + b
    ensures TurnsRise(TurnAfter(turn, a), b)
  {
    SuffixRises(turn, a, b);
  }

  /** A set holds exactly the numbers in [a, b). */
  ghost predicate Exactly(ns: set<nat>, a: nat, b: nat) { forall n :: n in ns <==> a <= n < b }

  lemma NumbersOfSlice(l: seq<Event>, a: nat, b: nat)
    requires Numbered(l) && 1 <= a <= b <= |l| + 1
    ensures Exactly(Numbers(l[a - 1..b - 1]), a, b)
  {
    var evs := l[a - 1..b - 1];
    forall n | a <= n < b ensures n in Numbers(evs) { assert evs[n - a].sn == n; }
  }

  predicate Numbered(l: seq<Event>) { forall i :: 0 <= i < |l| ==> l[i].sn == i + 1 }

  lemma OpenTailIs(l: seq<Event>, p: Page, cut: nat)
    requires Numbered(l) && 1 <= cut <= p.next + 1 && p.next <= |l| && p.events == l[cut - 1..p.next]
    ensures OpenTail(p) ==
      View([MakeSeg(l[cut - 1..p.next], p.seed, cut)], Numbers(l[cut - 1..p.next]), p.hasOlder, false, [], p.next)
  {
    hide FoldFrom;
    if p.events != [] {
      assert p.events[0] == l[cut - 1] && p.events[|p.events| - 1] == l[p.next - 1];
    }
  }

  /** A view of one segment that ends at the newest event. */
  lemma OneSegment(l: seq<Event>, t: View)
    requires |t.segs| == 1 && !t.detached && t.below == [] && t.lastSeq <= |l| && (t.hasOlder <==> t.segs[0].first > 1)
    requires SegOK(l, t.segs[0], t.lastSeq + 1) && TailOK(l, t.lastSeq, t.segs[0])
    requires Exactly(t.seen, t.segs[0].first, t.lastSeq + 1)
    ensures Inv(l, t)
  {
    hide SegOK, TailOK;
  }

  lemma OpenedKeeps(l: seq<Event>, t: View, s: Seg)
    requires Log(l) && 1 <= s.first <= t.lastSeq + 1 && t.lastSeq <= |l| && CleanCut(l, s.first)
      && SeedFits(l, s.first, s.seed)
    requires s == MakeSeg(l[s.first - 1..t.lastSeq], s.seed, s.first)
    requires t.segs == [s] && t.seen == Numbers(s.events) && !t.detached && t.below == []
      && (t.hasOlder <==> s.first > 1)
    ensures Inv(l, t)
  {
    hide CleanCut, SeedFits, Log, Inv, FoldFrom, SegOK, TailOK, Numbers;
    LogNumbered(l);
    assert s.events == l[s.first - 1..t.lastSeq];
    NumbersOfSlice(l, s.first, t.lastSeq + 1);
    FreshTail(l, t.lastSeq, s);
    OneSegment(l, t);
  }

  lemma OpenTailKeeps(l: seq<Event>, p: Page)
    requires Log(l) && TailPage(l, p)
    ensures Inv(l, OpenTail(p))
  {
    hide OpenTail, TailPage, CleanCut, SeedFits, Log, Inv, FoldFrom, Numbered, Numbers;
    TailPageIs(l, p);
    LogNumbered(l);
    OpenTailIs(l, p, p.next + 1 - |p.events|);
    OpenedKeeps(l, OpenTail(p), MakeSeg(p.events, p.seed, p.next + 1 - |p.events|));
  }

  lemma TailPageIs(l: seq<Event>, p: Page)
    requires TailPage(l, p)
    ensures var cut := p.next + 1 - |p.events|;
      && 1 <= cut <= p.next + 1 <= |l| + 1 && p.events == l[cut - 1..p.next]
      && CleanCut(l, cut) && SeedFits(l, cut, p.seed)
      && p.hasOlder == (cut > 1)
  {
    hide CleanCut, SeedFits;
  }

  // ---- loading ----

  lemma {:induction false} AllUnseen(events: seq<Event>, first: nat, seen: set<nat>)
    requires forall i :: 0 <= i < |events| ==> events[i].sn < first && events[i].sn !in seen
    ensures Unseen(events, first, seen) == events
  {
    if events != [] { AllUnseen(events[..|events| - 1], first, seen); }
  }

  /** Of a page in order, what starts at the n-th event. */
  lemma {:induction false} WithinSuffix(events: seq<Event>, from: nat, until: Option<nat>, n: nat)
    requires n <= |events| && forall i :: 0 <= i < |events| ==>
      (events[i].sn >= from <==> i >= n) && (until.Some? ==> events[i].sn < until.value)
    ensures Within(events, from, until) == events[n..]
  {
    if |events| > n {
      WithinSuffix(events[..|events| - 1], from, until, n);
      assert events[..|events| - 1][n..] + [events[|events| - 1]] == events[n..];
    } else if events != [] {
      WithinSuffix(events[..|events| - 1], from, until, |events| - 1);
    }
  }

  lemma LoadOlderIs(l: seq<Event>, t: View, p: Page, cut: nat)
    requires Numbered(l) && t.segs != [] && t.hasOlder && 1 <= cut < t.segs[0].first <= |l| + 1
      && p.events == l[cut - 1..t.segs[0].first - 1]
    requires forall n :: n in t.seen ==> t.segs[0].first <= n
    ensures LoadOlder(t, p) ==
      t.(hasOlder := p.hasOlder, seen := t.seen + Numbers(p.events), segs := [MakeSeg(p.events, 0, cut)] + t.segs)
  {
    var first := t.segs[0].first;
    AllUnseen(p.events, first, t.seen);
    assert p.events[0] == l[cut - 1];
  }

  /** One more segment in front. */
  function InFront(t: View, s: Seg, hasOlder: bool): View {
    t.(hasOlder := hasOlder, seen := t.seen + Numbers(s.events), segs := [s] + t.segs)
  }

  lemma InFrontIndexes(t: View, s: Seg, hasOlder: bool)
    requires t.segs != []
    ensures var t' := InFront(t, s, hasOlder);
      && (forall i :: 0 < i < |t'.segs| ==> t'.segs[i] == t.segs[i - 1] && Hi(t', i) == Hi(t, i - 1))
      && Hi(t', 0) == t.segs[0].first
  {
  }

  lemma InFrontShape(t: View, s: Seg, hasOlder: bool)
    requires Shape(t) && SeenOK(t) && s.first < t.segs[0].first && Exactly(Numbers(s.events), s.first, t.segs[0].first)
    requires t.segs[0].first <= t.lastSeq + 1
    ensures Shape(InFront(t, s, hasOlder)) && SeenOK(InFront(t, s, hasOlder))
  {
    hide Numbers;
    InFrontIndexes(t, s, hasOlder);
    var t' := InFront(t, s, hasOlder);
    FrontRises(t, s, t');
    FrontSeen(t, s, t');
  }

  lemma FrontRises(t: View, s: Seg, t': View)
    requires Shape(t) && s.first < t.segs[0].first && t'.segs == [s] + t.segs && t'.below == t.below
    requires t'.detached == t.detached
    ensures Shape(t')
  {
    forall i | 0 < i < |t'.segs| ensures t'.segs[i] == t.segs[i - 1] {}
  }

  lemma FrontSeen(t: View, s: Seg, t': View)
    requires t.segs != [] && SeenOK(t) && t'.segs == [s] + t.segs && t'.seen == t.seen + Numbers(s.events)
    requires s.first < t.segs[0].first <= t.lastSeq + 1 && Exactly(Numbers(s.events), s.first, t.segs[0].first)
    requires t'.lastSeq == t.lastSeq && t'.below == t.below
    ensures SeenOK(t')
  {
    hide Numbers;
    assert t'.segs[|t'.segs| - 1] == t.segs[|t.segs| - 1] && Hi(t', |t'.segs| - 1) == Hi(t, |t.segs| - 1);
  }

  lemma Prepended(l: seq<Event>, t: View, s: Seg, hasOlder: bool)
    requires Inv(l, t) && SegOK(l, s, t.segs[0].first) && s.first < t.segs[0].first && (hasOlder <==> s.first > 1)
    requires Exactly(Numbers(s.events), s.first, t.segs[0].first) && t.segs[0].first <= t.lastSeq + 1
    ensures Inv(l, InFront(t, s, hasOlder))
  {
    hide SegOK, TailOK, CutsOK;
    InFrontIndexes(t, s, hasOlder);
    InFrontShape(t, s, hasOlder);
  }

  lemma FetchedOK(l: seq<Event>, cut: nat, hi: nat)
    requires Log(l) && CleanCut(l, cut) && cut <= hi <= |l| + 1
    ensures SegOK(l, MakeSeg(l[cut - 1..hi - 1], 0, cut), hi)
  {
    NoSeedFits(l, cut);
    hide CleanCut, TurnsRise, Sim, Shows, FoldFrom;
    FetchedShows(l, cut, hi, 0);
  }

  /** Every loaded segment ends at or before the newest event. */
  lemma EndsInLog(l: seq<Event>, t: View)
    requires Inv(l, t)
    ensures Hi(t, |t.segs| - 1) <= t.lastSeq + 1 && t.segs[0].first <= t.lastSeq + 1
  {
  }

  lemma LoadOlderKeeps(l: seq<Event>, t: View, p: Page)
    requires Log(l) && Inv(l, t) && OlderPage(l, t.segs[0].first, p)
    ensures Inv(l, LoadOlder(t, p))
  {
    hide CleanCut, Log, Inv, FoldFrom, Numbered, Numbers, LoadOlder;
    LogNumbered(l);
    EndsInLog(l, t);
    FirstIsSeen(l, t);
    if t.hasOlder {
      var first := t.segs[0].first;
      var cut := first - |p.events|;
      LoadOlderIs(l, t, p, cut);
      FetchedOK(l, cut, first);
      NumbersOfSlice(l, cut, first);
      Prepended(l, t, MakeSeg(p.events, 0, cut), p.hasOlder);
    } else {
      NothingOlder(t, p);
    }
  }

  lemma NothingOlder(t: View, p: Page)
    requires !t.hasOlder
    ensures LoadOlder(t, p) == t
  {
  }

  lemma FirstIsSeen(l: seq<Event>, t: View)
    requires Inv(l, t)
    ensures t.segs != [] && t.segs[0].first <= |l| + 1 && (t.hasOlder ==> t.segs[0].first > 1)
    ensures forall n :: n in t.seen ==> t.segs[0].first <= n
  {
    hide SegsOK, TailOK, CutsOK;
    EndsInLog(l, t);
  }

  // ---- fetching back ----

  /** One more segment behind the last loaded one. */
  function Behind(t: View, s: Seg): View { t.(segs := t.segs + [s], seen := t.seen + Numbers(s.events)) }

  lemma LoadNewerIs(l: seq<Event>, t: View, p: Page, from: nat, until: nat)
    requires Numbered(l) && t.segs != [] && |t.below| > 1 && from == t.below[0] && until == t.below[1]
    requires 1 <= from <= until <= |l| + 1 && until - from <= |p.events| < until
      && p.events == l[until - |p.events| - 1..until - 1]
    ensures LoadNewer(t, p) == Behind(t, MakeSeg(l[from - 1..until - 1], 0, from)).(below := t.below[1..])
  {
    hide Within, FoldFrom, Numbers, Numbered;
    SliceWithin(l, p.events, until - |p.events|, until, from, Some(until));
  }

  /** Of a slice of the log ending before `hi`, the events from `from` on. */
  lemma SliceWithin(l: seq<Event>, events: seq<Event>, lo: nat, hi: nat, from: nat, until: Option<nat>)
    requires Numbered(l) && 1 <= lo <= from <= hi <= |l| + 1 && events == l[lo - 1..hi - 1]
      && (until.Some? ==> until.value == hi)
    ensures Within(events, from, until) == l[from - 1..hi - 1]
  {
    WithinSuffix(events, from, until, from - lo);
    assert events[from - lo..] == l[from - 1..hi - 1];
  }

  lemma LoadNewestIs(l: seq<Event>, t: View, p: Page)
    requires Numbered(l) && t.segs != [] && |t.below| == 1 && NewerPage(l, t, p) && t.below[0] <= t.lastSeq + 1
    ensures var from, n := t.below[0], t.below[0] - 1 + |p.events|;
      1 <= from <= n + 1 && t.lastSeq <= n <= |l|
        && LoadNewer(t, p) == Behind(t, MakeSeg(l[from - 1..n], 0, from)).(below := [], detached := false, lastSeq := n)
  {
    hide Within, FoldFrom;
    var from, n := t.below[0], t.below[0] - 1 + |p.events|;
    SliceWithin(l, p.events, from, n + 1, from, None);
    if p.events != [] { assert p.events[|p.events| - 1] == l[n - 1]; }
  }

  lemma BehindShape(t: View, s: Seg, t': View)
    requires Shape(t) && SeenOK(t) && t.below != [] && s.first == t.below[0] <= t.lastSeq + 1
    requires t' == Behind(t, s).(below := t.below[1..], detached := |t.below| > 1, lastSeq := t'.lastSeq)
      && t'.lastSeq >= t.lastSeq
    requires Exactly(Numbers(s.events), s.first, if |t.below| > 1 then t.below[1] else t'.lastSeq + 1)
    requires |t.below| > 1 ==> t.below[1] <= t.lastSeq + 1
    ensures Shape(t') && SeenOK(t')
    ensures forall i :: 0 <= i < |t.segs| ==> t'.segs[i] == t.segs[i] && Hi(t', i) == Hi(t, i)
    ensures Hi(t', |t.segs|) == if |t.below| > 1 then t.below[1] else t'.lastSeq + 1
  {
  }

  lemma Appended(l: seq<Event>, t: View, s: Seg, t': View)
    requires Inv(l, t) && t.below != [] && s.first == t.below[0] <= t.lastSeq + 1
    requires t' == Behind(t, s).(below := t.below[1..], detached := |t.below| > 1, lastSeq := t'.lastSeq)
      && t.lastSeq <= t'.lastSeq <= |l|
    requires |t.below| > 1 ==> t.below[1] <= t.lastSeq + 1
    requires var hi := if |t.below| > 1 then t.below[1] else t'.lastSeq + 1;
      SegOK(l, s, hi) && Exactly(Numbers(s.events), s.first, hi)
    requires |t.below| == 1 ==> TailOK(l, t'.lastSeq, s)
    requires CutsOK(l, t.below[1..], t'.lastSeq)
    ensures Inv(l, t')
  {
    hide SegOK, TailOK, CutsOK;
    BehindShape(t, s, t');
  }

  lemma CutsTail(l: seq<Event>, below: seq<nat>, n: nat, n': nat)
    requires CutsOK(l, below, n) && below != [] && n <= n'
    ensures CleanCut(l, below[0]) && below[0] <= n + 1 && CutsOK(l, below[1..], n')
    ensures |below| > 1 ==> below[1] <= n + 1
  {
  }

  lemma PageBack(l: seq<Event>, t: View, from: nat, until: nat)
    requires Log(l) && Inv(l, t) && |t.below| > 1 && from == t.below[0] && until == t.below[1]
      && 1 <= from <= until <= |l| + 1
    ensures Inv(l, Behind(t, MakeSeg(l[from - 1..until - 1], 0, from)).(below := t.below[1..]))
  {
    hide SegOK, TailOK, CutsOK, CleanCut, TurnsRise, SeenOK;
    var s := MakeSeg(l[from - 1..until - 1], 0, from);
    CutsTail(l, t.below, t.lastSeq, t.lastSeq);
    FetchedOK(l, from, until);
    NumbersOfSlice(l, from, until);
    Appended(l, t, s, Behind(t, s).(below := t.below[1..]));
  }

  lemma TailBack(l: seq<Event>, t: View, from: nat, n: nat)
    requires Log(l) && Inv(l, t) && |t.below| == 1 && from == t.below[0] && 1 <= from <= n + 1 && t.lastSeq <= n <= |l|
    ensures Inv(l, Behind(t, MakeSeg(l[from - 1..n], 0, from)).(below := [], detached := false, lastSeq := n))
  {
    hide SegOK, TailOK, CutsOK, CleanCut, TurnsRise, SeenOK;
    var s := MakeSeg(l[from - 1..n], 0, from);
    CutsTail(l, t.below, t.lastSeq, n);
    NoSeedFits(l, from);
    FreshTail(l, n, s);
    NumbersOfSlice(l, from, n + 1);
    Appended(l, t, s, Behind(t, s).(below := [], detached := false, lastSeq := n));
  }

  lemma BelowFacts(l: seq<Event>, t: View)
    requires Inv(l, t) && t.below != []
    ensures t.segs != [] && t.below[0] <= t.lastSeq + 1
  {
  }

  lemma LogNumbered(l: seq<Event>)
    requires Log(l)
    ensures Numbered(l)
  {
  }

  lemma LoadNewerKeeps(l: seq<Event>, t: View, p: Page)
    requires Log(l) && Inv(l, t) && t.below != [] && NewerPage(l, t, p)
    ensures Inv(l, LoadNewer(t, p))
  {
    hide Inv, Log, LoadNewer, Behind, Numbered, FoldFrom;
    BelowFacts(l, t);
    LogNumbered(l);
    if |t.below| > 1 {
      LoadNewerIs(l, t, p, t.below[0], t.below[1]);
      PageBack(l, t, t.below[0], t.below[1]);
    } else {
      LoadNewestIs(l, t, p);
      TailBack(l, t, t.below[0], t.below[0] - 1 + |p.events|);
    }
  }

  // ---- splitting the tail ----

  lemma {:induction false} FirstFromIs(events: seq<Event>, cut: nat, i: nat)
    requires i <= |events| && (forall j :: 0 <= j < |events| ==> (events[j].sn < cut <==> j < i))
    ensures FirstFrom(events, cut) == i
  {
    if events != [] && i > 0 { FirstFromIs(events[1..], cut, i - 1); }
  }

  /** At a clean cut the tail's fold falls into the page before it and a live tail from there. */
  lemma PartsHold(l: seq<Event>, n: nat, s: Seg, cut: nat)
    requires Log(l) && TailOK(l, n, s) && CleanCut(l, s.first) && CleanCut(l, cut) && s.first < cut <= n + 1
    ensures Shows(l, s.first, cut, OldPart(s.fold, cut))
    ensures Sim(cut, |Whole(l, cut - 1).blocks|, Whole(l, n), NewPart(s.fold, cut))
  {
    hide CleanRun, TurnsRise, FoldFrom, Sim, Below;
    NoSeedFits(l, cut);
    FreshHolds(l, cut, n, 0);
    CutKept(l, cut, n);
    CutKept(l, s.first, cut - 1);
    WholeBelow(l, cut - 1);
    PartsOfFold(s.first, cut, Whole(l, s.first - 1), Whole(l, cut - 1), Whole(l, n), s.fold,
      FoldFrom(Seeded(0), l[cut - 1..n]));
  }

  lemma PartsOfFold(lo: nat, cut: nat, a: Fold, b: Fold, g: Fold, f: Fold, h: Fold)
    requires lo < cut && a.blocks <= b.blocks <= g.blocks && Below(cut, b) && SameOld(cut, b.heap, g.heap)
    requires Sim(lo, |a.blocks|, g, f) && Sim(cut, |b.blocks|, g, h)
    ensures OldPart(f, cut).blocks == b.blocks[|a.blocks|..]
    ensures forall k :: lo <= k < cut ==> (k in f.heap <==> k in b.heap) && (k in f.heap ==> f.heap[k] == b.heap[k])
    ensures Sim(cut, |b.blocks|, g, NewPart(f, cut))
  {
    assert forall i :: 0 <= i < |b.blocks| ==> g.blocks[i] == b.blocks[i];
    assert Closed(cut, g.heap);
    NewPartHolds(lo, cut, |a.blocks|, |b.blocks|, g, f);
    assert g.blocks[|a.blocks|..|b.blocks|] == b.blocks[|a.blocks|..];
  }

  /** The tail's events up to a cut, and from it. */
  lemma EventsSplit(l: seq<Event>, first: nat, cut: nat, n: nat)
    requires Numbered(l) && 1 <= first < cut <= n && n <= |l|
    ensures var evs := l[first - 1..n];
      && FirstFrom(evs, cut) == cut - first < |evs|
      && evs[..cut - first] == l[first - 1..cut - 1] && evs[cut - first..] == l[cut - 1..n]
  {
    FirstFromIs(l[first - 1..n], cut, cut - first);
  }

  lemma OldPartOK(l: seq<Event>, n: nat, s: Seg, cut: nat)
    requires Log(l) && SegOK(l, s, n + 1) && TailOK(l, n, s) && CleanCut(l, cut) && s.first < cut <= n
    ensures SegOK(l, Seg(s.first, l[s.first - 1..cut - 1], OldPart(s.fold, cut), s.seed), cut)
  {
    hide CleanCut, TurnsRise, Sim, Shows, Log;
    PartsHold(l, n, s, cut);
  }

  lemma NewPartOK(l: seq<Event>, n: nat, s: Seg, cut: nat, seed: nat)
    requires Log(l) && TailOK(l, n, s) && CleanCut(l, s.first) && CleanCut(l, cut) && SeedFits(l, cut, seed)
      && s.first < cut <= n
    ensures var tail := Seg(cut, l[cut - 1..n], NewPart(s.fold, cut), seed);
      SegOK(l, tail, n + 1) && TailOK(l, n, tail)
  {
    hide CleanCut, TurnsRise, Sim, Shows, Log, Whole, NewPart, SeedFits;
    PartsHold(l, n, s, cut);
    NewPartTurn(s.fold, cut);
    SimShows(l, cut, n + 1, NewPart(s.fold, cut));
  }

  lemma NewPartTurn(f: Fold, cut: nat)
    ensures NewPart(f, cut).turn == f.turn
  {
  }

  function SplitAt(t: View, a: Seg, b: Seg): View
    requires t.segs != []
  {
    t.(segs := t.segs[..|t.segs| - 1] + [a, b])
  }

  lemma SplitShape(t: View, a: Seg, b: Seg)
    requires Shape(t) && SeenOK(t) && !t.detached
    requires a.first == t.segs[|t.segs| - 1].first < b.first <= t.lastSeq
    ensures var t', n := SplitAt(t, a, b), |t.segs| - 1;
      && Shape(t') && SeenOK(t')
      && (forall i :: 0 <= i < n ==> t'.segs[i] == t.segs[i] && Hi(t', i) == Hi(t, i))
      && t'.segs[n] == a && Hi(t', n) == b.first && t'.segs[n + 1] == b && Hi(t', n + 1) == Hi(t, n) == t.lastSeq + 1
      && t'.segs[0].first == t.segs[0].first
  {
    var t', n := SplitAt(t, a, b), |t.segs| - 1;
    assert forall i :: 0 <= i < n ==> t'.segs[i] == t.segs[i];
    assert t'.segs[n] == a && t'.segs[n + 1] == b && |t'.segs| == n + 2;
  }

  lemma TailSplit(l: seq<Event>, t: View, a: Seg, b: Seg)
    requires Inv(l, t) && !t.detached && a.first == t.segs[|t.segs| - 1].first < b.first <= t.lastSeq
    requires SegOK(l, a, b.first) && SegOK(l, b, t.lastSeq + 1) && TailOK(l, t.lastSeq, b)
    ensures Inv(l, SplitAt(t, a, b))
  {
    hide SegOK, TailOK, CutsOK, SeenOK;
    SplitShape(t, a, b);
    var t' := SplitAt(t, a, b);
    forall i | 0 <= i < |t'.segs| ensures SegOK(l, t'.segs[i], Hi(t', i)) {
      if i < |t.segs| - 1 { assert SegOK(l, t.segs[i], Hi(t, i)); }
    }
  }

  lemma TailFacts(l: seq<Event>, t: View)
    requires Inv(l, t) && !t.detached
    ensures t.segs != [] && t.lastSeq <= |l|
    ensures var s := t.segs[|t.segs| - 1];
      SegOK(l, s, t.lastSeq + 1) && TailOK(l, t.lastSeq, s) && 1 <= s.first <= t.lastSeq + 1
        && s.events == l[s.first - 1..t.lastSeq]
  {
    hide CleanCut, TurnsRise, Sim, Shows, CutsOK, SeenOK, SegsOK;
    LastSegOK(l, t);
  }

  lemma LastSegOK(l: seq<Event>, t: View)
    requires SegsOK(l, t) && t.segs != []
    ensures SegOK(l, t.segs[|t.segs| - 1], Hi(t, |t.segs| - 1))
  {
  }

  lemma PageCut(l: seq<Event>, p: Page)
    requires TailPage(l, p) && p.events != []
    ensures CleanCut(l, p.nextBefore) && SeedFits(l, p.nextBefore, p.seed)
  {
  }

  lemma SplitTailIs(l: seq<Event>, t: View, p: Page, limit: nat)
    requires Numbered(l) && t.segs != [] && t.lastSeq <= |l| && SplitTail(t, p, limit) != t
    requires var s := t.segs[|t.segs| - 1]; 1 <= s.first <= t.lastSeq + 1 && s.events == l[s.first - 1..t.lastSeq]
    ensures var s, cut := t.segs[|t.segs| - 1], p.nextBefore;
      && !t.detached && 1 <= s.first < cut <= t.lastSeq
      && SplitTail(t, p, limit) == SplitAt(t, Seg(s.first, l[s.first - 1..cut - 1], OldPart(s.fold, cut), s.seed),
                                           Seg(cut, l[cut - 1..t.lastSeq], NewPart(s.fold, cut), p.seed))
  {
    hide FirstFrom, OldPart, NewPart;
    var s, cut := t.segs[|t.segs| - 1], p.nextBefore;
    CutIsLoaded(l, s.first, cut, t.lastSeq);
    EventsSplit(l, s.first, cut, t.lastSeq);
  }

  lemma SplitTailKeeps(l: seq<Event>, t: View, p: Page, limit: nat)
    requires Log(l) && Inv(l, t) && TailPage(l, p)
    ensures Inv(l, SplitTail(t, p, limit))
  {
    hide Inv, Log, TailPage, TailOK, CleanCut, TurnsRise, Shows, SplitTail;
    if SplitTail(t, p, limit) != t {
      SplitIsAttached(t, p, limit);
      TailFacts(l, t);
      LogNumbered(l);
      SplitTailIs(l, t, p, limit);
      NoCutInEmptyPage(l, p);
      PageCut(l, p);
      var s, cut := t.segs[|t.segs| - 1], p.nextBefore;
      OldPartOK(l, t.lastSeq, s, cut);
      NewPartOK(l, t.lastSeq, s, cut, p.seed);
      TailSplit(l, t, Seg(s.first, l[s.first - 1..cut - 1], OldPart(s.fold, cut), s.seed),
                Seg(cut, l[cut - 1..t.lastSeq], NewPart(s.fold, cut), p.seed));
    }
  }

  lemma SplitIsAttached(t: View, p: Page, limit: nat)
    requires SplitTail(t, p, limit) != t
    ensures !t.detached
  {
  }

  lemma NoCutInEmptyPage(l: seq<Event>, p: Page)
    requires TailPage(l, p) && p.nextBefore > 0
    ensures p.events != []
  {
  }

  lemma CutIsLoaded(l: seq<Event>, first: nat, cut: nat, n: nat)
    requires Numbered(l) && 1 <= first <= n + 1 && n <= |l| && FirstFrom(l[first - 1..n], cut) < |l[first - 1..n]|
    ensures cut <= n
  {
    var evs := l[first - 1..n];
    assert evs[FirstFrom(evs, cut)].sn >= cut;
  }

  // ---- live events ----

  lemma CleanAt(l: seq<Event>, c: nat, n: nat)
    requires CleanCut(l, c) && c - 1 <= n < |l|
    ensures Clean(c, Whole(l, n), l[n])
  {
    var suffix, i := l[c - 1..], n - c + 1;
    assert suffix[i] == l[n] && suffix[..i] == l[c - 1..n];
    WholeAfter(l, c, n);
    assert Clean(c, FoldFrom(Whole(l, c - 1), suffix[..i]), suffix[i]);
  }

  lemma RisesNext(turn: int, l: seq<Event>, n: nat, f: Fold)
    requires n < |l| && TurnsRise(turn, l[n..]) && f.turn == turn
    ensures TurnRises(f, l[n]) && TurnsRise(Push(f, l[n]).turn, l[n + 1..])
  {
    assert l[n..][0] == l[n] && l[n..][..0] == [];
    assert l[n..] == [l[n]] + l[n + 1..];
    SuffixRises(turn, [l[n]], l[n + 1..]);
    assert [l[n]][..0] == [];
    PushShape(f, l[n]);
  }

  lemma WholeNext(l: seq<Event>, n: nat)
    requires n < |l|
    ensures Whole(l, n + 1) == Push(Whole(l, n), l[n])
  {
    assert l[..n + 1][..n] == l[..n];
  }

  lemma WholeRises(l: seq<Event>, n: nat)
    requires Log(l) && n <= |l|
    ensures TurnsRise(Whole(l, n).turn, l[n..])
  {
    RisesFrom(l, n + 1, |l|);
    assert l[n..|l|] == l[n..];
  }

  lemma TailPushed(l: seq<Event>, n: nat, s: Seg)
    requires Log(l) && TailOK(l, n, s) && CleanCut(l, s.first) && n < |l|
    ensures TailOK(l, n + 1, s.(events := s.events + [l[n]], fold := Push(s.fold, l[n])))
  {
    hide CleanCut, Sim, TurnsRise, Log, Push, TurnRises, Clean;
    LogNumbered(l);
    CleanAt(l, s.first, n);
    WholeRises(l, n);
    RisesNext(Whole(l, n).turn, l, n, Whole(l, n));
    RisesNext(s.fold.turn, l, n, s.fold);
    WholeNext(l, n);
    PushSim(s.first, |Whole(l, s.first - 1).blocks|, Whole(l, n), s.fold, l[n]);
  }

  lemma SegPushed(l: seq<Event>, n: nat, s: Seg, f: Fold)
    requires Log(l) && SegOK(l, s, n + 1) && n < |l| && TailOK(l, n + 1, s.(events := s.events + [l[n]], fold := f))
    ensures SegOK(l, s.(events := s.events + [l[n]], fold := f), n + 2)
  {
    hide CleanCut, SeedFits, TurnsRise, Sim, Shows, Log, FoldFrom;
    SimShows(l, s.first, n + 2, f);
    assert s.events + [l[n]] == l[s.first - 1..n + 1];
  }

  function Followed(t: View, e: Event): View
    requires t.segs != []
  {
    var n := |t.segs| - 1;
    var s := t.segs[n];
    t.(seen := t.seen + {e.sn}, lastSeq := e.sn,
      segs := t.segs[..n] + [s.(events := s.events + [e], fold := Push(s.fold, e))])
  }

  lemma FollowedIs(t: View, e: Event)
    requires t.segs != []
    ensures var t', n := Followed(t, e), |t.segs| - 1;
      && |t'.segs| == |t.segs| && (forall i :: 0 <= i < n ==> t'.segs[i] == t.segs[i])
      && t'.segs[n] == t.segs[n].(events := t.segs[n].events + [e], fold := Push(t.segs[n].fold, e))
      && t'.below == t.below && t'.detached == t.detached && t'.seen == t.seen + {e.sn} && t'.lastSeq == e.sn
  {
    hide Push;
  }

  lemma FollowedShape(t: View, e: Event)
    requires Shape(t) && SeenOK(t) && !t.detached && e.sn == t.lastSeq + 1 && t.segs[0].first <= e.sn
    ensures var t', n := Followed(t, e), |t.segs| - 1;
      && Shape(t') && SeenOK(t') && |t'.segs| == |t.segs| && t'.segs[0].first == t.segs[0].first
      && (forall i :: 0 <= i < n ==> t'.segs[i] == t.segs[i] && Hi(t', i) == Hi(t, i))
      && t'.segs[n] == t.segs[n].(events := t.segs[n].events + [e], fold := Push(t.segs[n].fold, e))
      && Hi(t', n) == e.sn + 1
  {
    var t', n := Followed(t, e), |t.segs| - 1;
    FollowedIs(t, e);
    hide Followed, Push;
  }

  lemma SegsFollowed(l: seq<Event>, t: View, t': View)
    requires SegsOK(l, t) && t.segs != [] && |t'.segs| == |t.segs|
    requires forall i :: 0 <= i < |t.segs| - 1 ==> t'.segs[i] == t.segs[i] && Hi(t', i) == Hi(t, i)
    requires SegOK(l, t'.segs[|t.segs| - 1], Hi(t', |t.segs| - 1))
    ensures SegsOK(l, t')
  {
    hide SegOK;
    forall i | 0 <= i < |t'.segs| ensures SegOK(l, t'.segs[i], Hi(t', i)) {
      if i < |t.segs| - 1 { assert SegOK(l, t.segs[i], Hi(t, i)); }
    }
  }

  lemma FollowedSeg(l: seq<Event>, n: nat, s: Seg)
    requires Log(l) && SegOK(l, s, n + 1) && TailOK(l, n, s) && n < |l|
    ensures var s' := s.(events := s.events + [l[n]], fold := Push(s.fold, l[n]));
      SegOK(l, s', n + 2) && TailOK(l, n + 1, s')
  {
    hide Log, SegOK, TailOK, Push;
    SegIsCut(l, s, n + 1);
    TailPushed(l, n, s);
    SegPushed(l, n, s, Push(s.fold, l[n]));
  }

  lemma FollowedKeeps(l: seq<Event>, t: View, e: Event)
    requires Log(l) && Inv(l, t) && !t.detached && t.lastSeq < |l| && e == l[t.lastSeq] && e.sn == t.lastSeq + 1
    ensures Inv(l, Followed(t, e))
  {
    hide Log, SegsOK, SegOK, TailOK, CutsOK, SeenOK, Push, Shape, Hi, Followed;
    TailFacts(l, t);
    EndsInLog(l, t);
    FollowedSeg(l, t.lastSeq, t.segs[|t.segs| - 1]);
    FollowedShape(t, e);
    SegsFollowed(l, t, Followed(t, e));
    CutsNone(l, t.lastSeq + 1);
    FollowedEnds(t, e);
  }

  lemma FollowedEnds(t: View, e: Event)
    requires Shape(t) && !t.detached
    ensures var t' := Followed(t, e);
      t'.below == [] && !t'.detached && t'.hasOlder == t.hasOlder && t'.lastSeq == e.sn
  {
    hide Push;
  }

  lemma SegIsCut(l: seq<Event>, s: Seg, hi: nat)
    requires SegOK(l, s, hi)
    ensures CleanCut(l, s.first)
  {
  }

  lemma CutsNone(l: seq<Event>, n: nat)
    ensures CutsOK(l, [], n)
  {
  }

  lemma CutsLater(l: seq<Event>, below: seq<nat>, n: nat)
    requires CutsOK(l, below, n)
    ensures CutsOK(l, below, n + 1)
  {
  }

  function Noticed(t: View): View { t.(seen := t.seen + {t.lastSeq + 1}, lastSeq := t.lastSeq + 1) }

  /** Detached, a newer event only moves the cursor. */
  lemma DetachedKeeps(l: seq<Event>, t: View)
    requires Log(l) && Inv(l, t) && t.detached && t.lastSeq < |l|
    ensures Inv(l, Noticed(t))
  {
    hide Log, SegOK, TailOK, CutsOK;
    EndsInLog(l, t);
    CutsLater(l, t.below, t.lastSeq);
    var t' := Noticed(t);
    forall i | 0 <= i < |t.segs| ensures Hi(t', i) == Hi(t, i) {}
  }

  /** What is loaded has been seen. */
  lemma LoadedIsSeen(t: View, sn: nat)
    requires Shape(t) && SeenOK(t) && sn <= t.lastSeq && SegOf(t, sn, |t.segs|).Some?
    ensures sn in t.seen
  {
    var i := SegOf(t, sn, |t.segs|).value;
    assert t.segs[0].first <= t.segs[i].first;
  }

  lemma DeliverKeeps(l: seq<Event>, t: View, e: Event)
    requires Log(l) && Inv(l, t) && 1 <= e.sn <= |l| && e == l[e.sn - 1] && e.sn <= t.lastSeq + 1
    ensures Inv(l, Deliver(t, e).0) && Deliver(t, e).1.None?
    ensures Deliver(t, e).0.lastSeq == if e.sn > t.lastSeq then e.sn else t.lastSeq
  {
    hide Inv, Log;
    ShapeFacts(l, t);
    if e.sn in t.seen {
    } else if e.sn > t.lastSeq {
      if t.detached { DetachedKeeps(l, t); } else { FollowedKeeps(l, t, e); }
    } else if SegOf(t, e.sn, |t.segs|).Some? {
      LoadedIsSeen(t, e.sn);
    }
  }

  lemma ShapeFacts(l: seq<Event>, t: View)
    requires Inv(l, t)
    ensures Shape(t) && SeenOK(t) && forall n :: n in t.seen ==> n <= t.lastSeq
  {
  }

  function Cursor(n: nat, events: seq<Event>): nat {
    if events == [] then n
    else
      var m, sn := Cursor(n, events[..|events| - 1]), events[|events| - 1].sn;
      if sn > m then sn else m
  }

  /** Events of the log, none skipped: each is known or the next one. */
  predicate InStep(l: seq<Event>, n: nat, events: seq<Event>) {
    forall i :: 0 <= i < |events| ==>
      1 <= events[i].sn <= |l| && events[i] == l[events[i].sn - 1] && events[i].sn <= Cursor(n, events[..i]) + 1
  }

  lemma {:induction false} DeliverAllKeeps(l: seq<Event>, t: View, events: seq<Event>)
    requires Log(l) && Inv(l, t) && InStep(l, t.lastSeq, events)
    ensures Inv(l, DeliverAll(t, events).0) && DeliverAll(t, events).1 == {}
    ensures DeliverAll(t, events).0.lastSeq == Cursor(t.lastSeq, events)
  {
    hide Inv, Log, Deliver;
    if events != [] {
      var n := |events| - 1;
      forall i | 0 <= i < n ensures events[..n][..i] == events[..i] {}
      DeliverAllKeeps(l, t, events[..n]);
      DeliverKeeps(l, DeliverAll(t, events[..n]).0, events[n]);
    }
  }

  lemma ApplyKeeps(l: seq<Event>, t: View, events: seq<Event>)
    requires Log(l) && Inv(l, t) && InStep(l, t.lastSeq, events)
    ensures Inv(l, Apply(t, events))
  {
    hide Inv, Log, InStep;
    DeliverAllKeeps(l, t, events);
    var t' := DeliverAll(t, events).0;
    assert RefoldSegs(t'.segs, {}) == t'.segs;
  }

  // ---- unloading ----

  function Window(t: View, top: nat, bottom: nat): View
    requires top < bottom <= |t.segs|
  {
    View(t.segs[top..bottom], t.seen - NumbersOf(t.segs[..top] + t.segs[bottom..]), top > 0 || t.hasOlder,
         t.detached || bottom < |t.segs|, Firsts(t.segs[bottom..]) + t.below, t.lastSeq)
  }

  /** Each segment holds exactly its numbers. */
  ghost predicate Filled(t: View) {
    forall i :: 0 <= i < |t.segs| ==> Exactly(Numbers(t.segs[i].events), t.segs[i].first, Hi(t, i))
  }

  lemma SegFilled(l: seq<Event>, s: Seg, hi: nat)
    requires Numbered(l) && SegOK(l, s, hi)
    ensures Exactly(Numbers(s.events), s.first, hi)
  {
    hide CleanCut, TurnsRise, Shows;
    NumbersOfSlice(l, s.first, hi);
  }

  lemma AllFilled(l: seq<Event>, t: View)
    requires Numbered(l) && SegsOK(l, t)
    ensures Filled(t)
  {
    hide SegOK;
    forall i | 0 <= i < |t.segs| ensures Exactly(Numbers(t.segs[i].events), t.segs[i].first, Hi(t, i)) {
      SegFilled(l, t.segs[i], Hi(t, i));
    }
  }

  /** A loaded number belongs to one of the segments it lies between. */
  lemma {:induction false} InSomeSeg(t: View, a: nat, b: nat, n: nat) returns (i: nat)
    requires Shape(t) && a < b <= |t.segs| && t.segs[a].first <= n < Hi(t, b - 1)
    ensures a <= i < b && t.segs[i].first <= n < Hi(t, i)
  {
    if n >= t.segs[b - 1].first { i := b - 1; } else { i := InSomeSeg(t, a, b - 1, n); }
  }

  /** Dropping segments takes none of the kept ones' numbers... */
  lemma KeptNumbers(t: View, top: nat, bottom: nat, n: nat)
    requires Shape(t) && Filled(t) && top < bottom <= |t.segs| && t.segs[top].first <= n < Hi(t, bottom - 1)
    ensures n !in NumbersOf(t.segs[..top] + t.segs[bottom..])
  {
    hide Shape, Filled, Hi;
    var gone := t.segs[..top] + t.segs[bottom..];
    forall s, e | s in gone && e in s.events ensures e.sn != n {
      var j :| 0 <= j < |gone| && gone[j] == s;
      var i := if j < top then j else bottom + (j - top);
      assert t.segs[i] == s;
      NotInOther(t, top, bottom, i, n);
      assert e.sn in Numbers(s.events);
    }
  }

  lemma NotInOther(t: View, top: nat, bottom: nat, i: nat, n: nat)
    requires Shape(t) && Filled(t) && top < bottom <= |t.segs| && t.segs[top].first <= n < Hi(t, bottom - 1)
    requires i < |t.segs| && (i < top || i >= bottom)
    ensures n !in Numbers(t.segs[i].events)
  {
    hide Numbers, Shape;
    HiBefore(t, i, top);
    HiBefore(t, bottom - 1, i);
    assert Exactly(Numbers(t.segs[i].events), t.segs[i].first, Hi(t, i));
  }

  /** ...and all of those before them. */
  lemma GoneNumbers(t: View, top: nat, bottom: nat, n: nat)
    requires Shape(t) && Filled(t) && top < bottom <= |t.segs| && t.segs[0].first <= n < t.segs[top].first
    ensures n in NumbersOf(t.segs[..top] + t.segs[bottom..])
  {
    var gone := t.segs[..top] + t.segs[bottom..];
    HiBefore(t, top - 1, top);
    var i := InSomeSeg(t, 0, top, n);
    hide Shape;
    assert Exactly(Numbers(t.segs[i].events), t.segs[i].first, Hi(t, i));
    assert n in Numbers(t.segs[i].events);
    var e :| e in t.segs[i].events && e.sn == n;
    assert t.segs[i] == gone[i] && gone[i] in gone;
  }

  lemma HiBefore(t: View, i: nat, j: nat)
    requires Shape(t)
    ensures i < j < |t.segs| ==> Hi(t, i) <= t.segs[j].first
  {
  }

  lemma WindowHi(t: View, top: nat, bottom: nat, i: nat)
    requires top < bottom <= |t.segs| && i < bottom - top
    ensures var t' := Window(t, top, bottom); t'.segs[i] == t.segs[top + i] && Hi(t', i) == Hi(t, top + i)
  {
  }

  lemma WindowAt(t: View, top: nat, bottom: nat)
    requires top < bottom <= |t.segs|
    ensures var t', k := Window(t, top, bottom), |t.segs| - bottom;
      && |t'.segs| == bottom - top && (forall i :: 0 <= i < bottom - top ==> t'.segs[i] == t.segs[top + i])
      && |t'.below| == k + |t.below|
      && (forall i :: 0 <= i < k ==> t'.below[i] == t.segs[bottom + i].first)
      && (forall i :: k <= i < k + |t.below| ==> t'.below[i] == t.below[i - k])
  {
  }

  lemma WindowBelowRises(t: View, top: nat, bottom: nat)
    requires Shape(t) && top < bottom <= |t.segs|
    ensures var below := Window(t, top, bottom).below; forall i, j :: 0 <= i < j < |below| ==> below[i] < below[j]
  {
    WindowAt(t, top, bottom);
    var k, below := |t.segs| - bottom, Window(t, top, bottom).below;
    hide Window;
    forall i, j | 0 <= i < j < |below| ensures below[i] < below[j] {
      if j < k {
        assert t.segs[bottom + i].first < t.segs[bottom + j].first;
      } else if i < k {
        BelowLast(t, bottom + i, j - k);
        assert below[i] == t.segs[bottom + i].first && below[j] == t.below[j - k];
      } else {
        assert t.below[i - k] < t.below[j - k];
        assert below[i] == t.below[i - k] && below[j] == t.below[j - k];
      }
    }
  }

  lemma BelowLast(t: View, i: nat, j: nat)
    requires Shape(t) && i < |t.segs| && j < |t.below|
    ensures t.segs[i].first < t.below[j]
  {
    var last := t.segs[|t.segs| - 1].first;
    assert i < |t.segs| - 1 ==> t.segs[i].first < last;
    assert j > 0 ==> t.below[0] < t.below[j];
  }

  lemma WindowShape(t: View, top: nat, bottom: nat)
    requires Shape(t) && top < bottom <= |t.segs|
    ensures Shape(Window(t, top, bottom))
  {
    var t' := Window(t, top, bottom);
    WindowAt(t, top, bottom);
    WindowBelowRises(t, top, bottom);
    assert t'.detached == (t.detached || bottom < |t.segs|);
    hide Window;
    forall i, j | 0 <= i < j < |t'.segs| ensures t'.segs[i].first < t'.segs[j].first {
      assert t.segs[top + i].first < t.segs[top + j].first;
    }
    if bottom < |t.segs| { assert t.segs[bottom - 1].first < t.segs[bottom].first; }
  }

  lemma WindowSeen(t: View, top: nat, bottom: nat)
    requires Shape(t) && SeenOK(t) && Filled(t) && top < bottom <= |t.segs|
    requires t.segs[|t.segs| - 1].first <= Hi(t, |t.segs| - 1) <= t.lastSeq + 1
    ensures SeenOK(Window(t, top, bottom))
  {
    hide Filled, NumbersOf;
    var t', m := Window(t, top, bottom), |t.segs| - 1;
    WindowHi(t, top, bottom, 0);
    WindowHi(t, top, bottom, bottom - top - 1);
    HiMonotone(t, bottom - 1, m);
    forall n: nat | n in t'.seen ensures t.segs[top].first <= n <= t.lastSeq {
      if t.segs[0].first <= n < t.segs[top].first { GoneNumbers(t, top, bottom, n); }
    }
    forall n: nat | t.segs[top].first <= n < Hi(t, bottom - 1) ensures n in t'.seen {
      KeptNumbers(t, top, bottom, n);
      assert t.segs[0].first <= t.segs[top].first;
    }
  }

  lemma HiMonotone(t: View, i: nat, j: nat)
    requires Shape(t) && i <= j < |t.segs| && Hi(t, j) >= t.segs[j].first
    ensures Hi(t, i) <= Hi(t, j)
  {
    if i < j { HiBefore(t, i, j); }
  }

  lemma CutsConcat(l: seq<Event>, a: seq<nat>, b: seq<nat>, n: nat)
    requires CutsOK(l, a, n) && CutsOK(l, b, n)
    ensures CutsOK(l, a + b, n)
  {
    hide CleanCut;
  }

  lemma WindowCuts(l: seq<Event>, t: View, top: nat, bottom: nat)
    requires SegsOK(l, t) && CutsOK(l, t.below, t.lastSeq) && top < bottom <= |t.segs| && Shape(t)
    requires Hi(t, |t.segs| - 1) <= t.lastSeq + 1
    ensures CutsOK(l, Window(t, top, bottom).below, t.lastSeq)
  {
    hide CleanCut, Hi, Shape, SegsOK;
    var a := Firsts(t.segs[bottom..]);
    forall i | 0 <= i < |a| ensures CleanCut(l, a[i]) && a[i] <= t.lastSeq + 1 { SegStart(l, t, bottom + i); }
    CutsConcat(l, a, t.below, t.lastSeq);
  }

  /** Where a loaded segment starts. */
  lemma SegStart(l: seq<Event>, t: View, i: nat)
    requires SegsOK(l, t) && Shape(t) && i < |t.segs| && Hi(t, |t.segs| - 1) <= t.lastSeq + 1
    ensures CleanCut(l, t.segs[i].first) && t.segs[i].first <= t.lastSeq + 1
  {
    hide CleanCut, SeedFits, Shows;
    assert SegOK(l, t.segs[i], Hi(t, i));
    LastSegOK(l, t);
    HiMonotone(t, i, |t.segs| - 1);
  }

  lemma WindowSegs(l: seq<Event>, t: View, top: nat, bottom: nat)
    requires SegsOK(l, t) && top < bottom <= |t.segs|
    ensures SegsOK(l, Window(t, top, bottom))
  {
    hide SegOK;
    var t' := Window(t, top, bottom);
    forall i | 0 <= i < |t'.segs| ensures SegOK(l, t'.segs[i], Hi(t', i)) { WindowHi(t, top, bottom, i); }
  }

  lemma WindowEnds(l: seq<Event>, t: View, top: nat, bottom: nat)
    requires Shape(t) && top < bottom <= |t.segs| && t.segs[0].first >= 1 && (t.hasOlder <==> t.segs[0].first > 1)
    requires !t.detached ==> TailOK(l, t.lastSeq, t.segs[|t.segs| - 1])
    ensures var t' := Window(t, top, bottom);
      && t'.segs != [] && (t'.hasOlder <==> t'.segs[0].first > 1) && t'.lastSeq == t.lastSeq
      && (!t'.detached ==> TailOK(l, t'.lastSeq, t'.segs[|t'.segs| - 1]))
  {
    hide TailOK;
    if top > 0 { assert t.segs[0].first < t.segs[top].first; }
  }

  /** What is loaded ends in the log. */
  lemma LoadedEnds(l: seq<Event>, t: View)
    requires Inv(l, t)
    ensures 1 <= t.segs[0].first && t.segs[|t.segs| - 1].first <= Hi(t, |t.segs| - 1) <= t.lastSeq + 1
  {
    hide CleanCut, SeedFits, TailOK, Shows;
    EndsInLog(l, t);
    FirstPositive(l, t);
    LastSegOK(l, t);
  }

  lemma WindowKeeps(l: seq<Event>, t: View, top: nat, bottom: nat)
    requires Log(l) && Inv(l, t) && top < bottom <= |t.segs|
    ensures Inv(l, Window(t, top, bottom))
  {
    hide Log, Shape, SegsOK, SegOK, TailOK, CutsOK, Filled, SeenOK, Window;
    LogNumbered(l);
    LoadedEnds(l, t);
    AllFilled(l, t);
    WindowShape(t, top, bottom);
    WindowSeen(t, top, bottom);
    WindowCuts(l, t, top, bottom);
    WindowSegs(l, t, top, bottom);
    WindowEnds(l, t, top, bottom);
  }

  lemma FirstPositive(l: seq<Event>, t: View)
    requires SegsOK(l, t) && t.segs != []
    ensures t.segs[0].first >= 1
  {
    assert SegOK(l, t.segs[0], Hi(t, 0));
  }

  lemma KeepKeeps(l: seq<Event>, t: View, lo: int, hi: int, canDetach: bool)
    requires Log(l) && Inv(l, t)
    ensures Inv(l, Keep(t, lo, hi, canDetach))
  {
    hide Inv, Log;
    if |t.segs| >= 2 {
      var top := DropTop(t.segs, lo, 0);
      var b := DropBottom(t.segs, hi, top, |t.segs|);
      var bottom := if b < |t.segs| && !canDetach && !t.detached then |t.segs| else b;
      if top > 0 || bottom < |t.segs| { WindowKeeps(l, t, top, bottom); }
    }
  }
}
