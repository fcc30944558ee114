/** Loads, unloads, splits and live events in any order, some missing and some late: what each segment shows stays what
    one fold of its events shows, as long as the tail is split while nothing of it is missing, and no event is skipped
    while the tail holds on to an older block. */
module AnyOrder {
  import opened Options
  import opened FoldSpec
  import opened FoldSim
  import opened FoldSplit
  import opened FoldSeed
  import opened FoldYoung
  import opened PagesSpec
  import opened Pages
  import opened PagesRun
  import opened PagesTheorems
  import opened Delivery

  // ---- a segment ----

  /** One fold of a segment's events, in order. */
  function OwnFold(s: Seg): Fold { FoldFrom(Seeded(s.seed), s.events) }

  /** A segment that ends before `hi` shows what one fold of its events does: the same blocks in the same order, with
      the same contents, nesting and versions. */
  ghost predicate Agrees(s: Seg, hi: nat) {
    && s.fold.blocks == OwnFold(s).blocks
    && forall k :: s.first <= k < hi ==>
         (k in s.fold.heap <==> k in OwnFold(s).heap) && (k in s.fold.heap ==> s.fold.heap[k] == OwnFold(s).heap[k])
  }

  /** The turns of the log after its n-th event are past this one. */
  predicate Rising(l: seq<Event>, turn: int, n: nat) { n <= |l| && TurnsRise(turn, l[n..]) }

  /** The fold writes to nothing older than the segment, and takes any later event of the log. */
  ghost predicate Loose(l: seq<Event>, s: Seg, n: nat) { Free(s.first, s.fold) && Rising(l, s.fold.turn, n) }

  /** A number of the segment is missing. */
  ghost predicate Gap(s: Seg, n: nat) { exists m :: s.first <= m <= n && m !in Numbers(s.events) }

  /** The segment was split off and its own fold goes along: events were skipped since then, or nothing older is left in
      its fold's reach. */
  ghost predicate Resumed(l: seq<Event>, s: Seg, n: nat) {
    && Sim(s.first, 0, s.fold, OwnFold(s)) && Rising(l, OwnFold(s).turn, n)
    && (Gap(s, n) || Young(s.first, s.fold))
  }

  /** Nothing is missing, and the fold goes on as a piece of the whole log's. */
  ghost predicate Stepping(l: seq<Event>, s: Seg, n: nat) {
    1 <= s.first <= n + 1 && n <= |l| && s.events == l[s.first - 1..n] && TailOK(l, n, s) && YoungIndex(s.first, s.fold)
  }

  /** The live tail; `late`: an event came late to it, and it will be folded again. */
  ghost predicate LiveTail(l: seq<Event>, s: Seg, n: nat, late: bool) {
    Stepping(l, s, n) || (Loose(l, s, n) && (late || Folded(s) || Resumed(l, s, n)))
  }

  /** Each segment holds the events seen of its range and, the late ones aside, shows their fold. */
  ghost predicate Holding(l: seq<Event>, t: View, late: set<nat>) {
    && AllFiled(l, t) && Places(l, t) && t.lastSeq <= |l|
    && (forall i :: 0 <= i < |t.segs| && i !in late && (t.detached || i < |t.segs| - 1) ==> Agrees(t.segs[i], Hi(t, i)))
    && (!t.detached ==> LiveTail(l, t.segs[|t.segs| - 1], t.lastSeq, |t.segs| - 1 in late))
  }

  ghost predicate Good(l: seq<Event>, t: View) { Holding(l, t, {}) }

  // ---- turns ----

  lemma RisingLater(l: seq<Event>, turn: int, n: nat, m: nat)
    requires Rising(l, turn, n) && n <= m <= |l|
    ensures Rising(l, turn, m)
  {
    assert l[n..] == l[n..m] + l[m..];
    SuffixRises(turn, l[n..m], l[m..]);
    PrefixRises(turn, l[n..], m - n);
    assert l[n..][..m - n] == l[n..m];
    CounterRises(turn, l[n..m], 0);
    assert l[n..m][..0] == [];
    LowerStart(turn, TurnAfter(turn, l[n..m]), l[m..]);
  }

  lemma RisingAt(l: seq<Event>, f: Fold, n: nat, e: Event)
    requires Rising(l, f.turn, n) && OfLog(l, e) && e.sn > n
    ensures TurnRises(f, e) && Rising(l, Push(f, e).turn, e.sn)
  {
    RisingLater(l, f.turn, n, e.sn - 1);
    RisesNext(f.turn, l, e.sn - 1, f);
  }

  // ---- fresh folds ----

  lemma {:induction false} FreshIsLoose(l: seq<Event>, c: nat, seed: nat, events: seq<Event>, n: nat)
    requires 1 <= c <= n + 1 && n <= |l| && SeedFits(l, c, seed) && Ascending(events) && AllOfLog(l, events)
    requires forall i :: 0 <= i < |events| ==> c <= events[i].sn <= n
    ensures Free(c, FoldFrom(Seeded(seed), events)) && Rising(l, FoldFrom(Seeded(seed), events).turn, n)
  {
    if events == [] {
      FreshIsFree(c, seed);
      RisingLater(l, Seeded(seed).turn, c - 1, n);
    } else {
      var front, e := events[..|events| - 1], events[|events| - 1];
      FreshIsLoose(l, c, seed, front, e.sn - 1);
      var f := FoldFrom(Seeded(seed), front);
      FoldStep(Seeded(seed), events);
      hide FoldFrom, Free;
      RisingAt(l, f, e.sn - 1, e);
      PushFree(c, f, e);
      RisingLater(l, Push(f, e).turn, e.sn, n);
    }
  }

  /** A segment's events lie in its range. */
  lemma EventsInRange(l: seq<Event>, t: View, i: nat)
    requires AllFiled(l, t) && i < |t.segs|
    ensures var evs := t.segs[i].events; forall j :: 0 <= j < |evs| ==> t.segs[i].first <= evs[j].sn <= t.lastSeq
  {
    FiledAt(l, t, i);
    var evs := t.segs[i].events;
    forall j | 0 <= j < |evs| ensures t.segs[i].first <= evs[j].sn <= t.lastSeq { assert evs[j].sn in Numbers(evs); }
  }

  /** A tail folded from its own events takes any later one. */
  lemma FoldedIsLoose(l: seq<Event>, t: View)
    requires AllFiled(l, t) && Places(l, t) && t.lastSeq <= |l| && Folded(t.segs[|t.segs| - 1])
    ensures Loose(l, t.segs[|t.segs| - 1], t.lastSeq)
  {
    var n := |t.segs| - 1;
    EventsInRange(l, t, n);
    FiledAt(l, t, n);
    PlaceAt(l, t, n);
    TailStarts(t);
    hide AllFiled, Places, Free, Rising, SeedFits, CleanCut, FoldFrom;
    FreshIsLoose(l, t.segs[n].first, t.segs[n].seed, t.segs[n].events, t.lastSeq);
  }

  lemma PlaceAt(l: seq<Event>, t: View, i: nat)
    requires Places(l, t) && i < |t.segs|
    ensures 1 <= t.segs[i].first <= |l| + 1 && CleanCut(l, t.segs[i].first)
      && SeedFits(l, t.segs[i].first, t.segs[i].seed)
  {
    hide CleanRun, TurnsRise;
  }

  lemma TailStarts(t: View)
    requires Cursors(t) && t.segs != []
    ensures t.segs[|t.segs| - 1].first <= t.lastSeq + 1
  {
  }

  // ---- what agrees ----

  lemma FoldedAgrees(s: Seg, hi: nat)
    requires Folded(s)
    ensures Agrees(s, hi)
  {
  }

  lemma SimAgrees(s: Seg, hi: nat)
    requires Sim(s.first, 0, s.fold, OwnFold(s))
    ensures Agrees(s, hi)
  {
    assert s.fold.blocks[0..] == s.fold.blocks;
  }

  /** A segment that shows the whole fold's slice shows the fold of its events. */
  lemma SlicesAgree(l: seq<Event>, s: Seg, hi: nat)
    requires Log(l) && SegOK(l, s, hi)
    ensures Agrees(s, hi)
  {
    hide CleanCut, SeedFits, FoldFrom, Log;
    FetchedShows(l, s.first, hi, s.seed);
  }

  lemma SteppingOK(l: seq<Event>, s: Seg, n: nat)
    requires Log(l) && Stepping(l, s, n) && CleanCut(l, s.first) && SeedFits(l, s.first, s.seed)
    ensures SegOK(l, s, n + 1)
  {
    hide CleanCut, SeedFits, Log, Shows, TurnsRise, Sim;
    SimShows(l, s.first, n + 1, s.fold);
  }

  lemma LiveAgrees(l: seq<Event>, s: Seg, n: nat)
    requires Log(l) && LiveTail(l, s, n, false) && CleanCut(l, s.first) && SeedFits(l, s.first, s.seed)
    ensures Agrees(s, n + 1)
  {
    hide Log, CleanCut, SeedFits, Agrees, SegOK, Stepping, Sim;
    if Stepping(l, s, n) {
      SteppingOK(l, s, n);
      SlicesAgree(l, s, n + 1);
    } else if Folded(s) {
      FoldedAgrees(s, n + 1);
    } else {
      SimAgrees(s, n + 1);
    }
  }

  /** Every loaded segment shows what one fold of its events, those seen of its range, shows. */
  lemma GoodAgrees(l: seq<Event>, t: View, i: nat)
    requires Log(l) && Good(l, t) && i < |t.segs|
    ensures Agrees(t.segs[i], Hi(t, i)) && Ascending(t.segs[i].events) && AllOfLog(l, t.segs[i].events)
    ensures forall n :: n in Numbers(t.segs[i].events) <==> n in t.seen && t.segs[i].first <= n < Hi(t, i)
  {
    hide Log, AllFiled, Places, CleanCut, SeedFits, Agrees, LiveTail, Shape, Cursors, Owns, Ascending, AllOfLog, Hi;
    GoodShape(l, t);
    FiledAt(l, t, i);
    HiOwns(t, i);
    PlaceAt(l, t, i);
    if !t.detached && i == |t.segs| - 1 {
      GoodTail(l, t);
      LiveAgrees(l, t.segs[i], t.lastSeq);
      AttachedHi(l, t);
    }
  }

  lemma AttachedHi(l: seq<Event>, t: View)
    requires AllFiled(l, t) && !t.detached
    ensures t.segs != [] && Hi(t, |t.segs| - 1) == t.lastSeq + 1
  {
  }

  // ---- the tail takes an event ----

  function Pushed(s: Seg, e: Event): Seg { s.(events := s.events + [e], fold := Push(s.fold, e)) }

  lemma OwnFoldPushed(s: Seg, e: Event)
    ensures OwnFold(Pushed(s, e)) == Push(OwnFold(s), e)
  {
    FoldStep(Seeded(s.seed), s.events + [e]);
    assert (s.events + [e])[..|s.events|] == s.events;
  }

  lemma LooseTakes(l: seq<Event>, s: Seg, n: nat, e: Event)
    requires Loose(l, s, n) && OfLog(l, e) && e.sn > n && s.first <= n + 1
    ensures Loose(l, Pushed(s, e), e.sn) && SameOld(s.first, s.fold.heap, Push(s.fold, e).heap)
  {
    hide Free, Push, Rising;
    RisingAt(l, s.fold, n, e);
    PushFree(s.first, s.fold, e);
  }

  lemma GapStays(s: Seg, e: Event, n: nat)
    requires Gap(s, n) && e.sn > n
    ensures Gap(Pushed(s, e), e.sn)
  {
    var m :| s.first <= m <= n && m !in Numbers(s.events);
    NumbersAdd(s.events, e);
    hide Numbers;
    assert m !in Numbers(Pushed(s, e).events);
  }

  lemma ResumedTakes(l: seq<Event>, s: Seg, n: nat, e: Event)
    requires Loose(l, s, n) && Resumed(l, s, n) && OfLog(l, e) && e.sn > n && s.first <= n + 1
    ensures Resumed(l, Pushed(s, e), e.sn)
  {
    OwnFoldPushed(s, e);
    if Gap(s, n) { GapStays(s, e, n); } else { PushYoung(s.first, s.fold, e); }
    hide Free, Push, Rising, Sim, Gap, Young;
    RisingAt(l, s.fold, n, e);
    RisingAt(l, OwnFold(s), n, e);
    PushAlong(s.first, s.fold, OwnFold(s), e);
  }

  lemma SteppingTakes(l: seq<Event>, s: Seg, n: nat, e: Event)
    requires Log(l) && Stepping(l, s, n) && CleanCut(l, s.first) && SeedFits(l, s.first, s.seed)
    requires OfLog(l, e) && e.sn == n + 1
    ensures Stepping(l, Pushed(s, e), n + 1)
  {
    SteppingOK(l, s, n);
    hide Log, CleanCut, SeedFits, TailOK, YoungIndex, Push, SegOK;
    FollowedSeg(l, n, s);
    PushPointers(s.first, s.fold, e);
    assert s.events + [e] == l[s.first - 1..n + 1];
  }

  /** A tail in step that holds on to nothing older is alike a fresh fold of its events. */
  lemma SteppingMeets(l: seq<Event>, s: Seg, n: nat)
    requires Log(l) && Stepping(l, s, n) && CleanCut(l, s.first) && SeedFits(l, s.first, s.seed)
      && !Holds(s.first, s.fold)
    ensures Sim(s.first, 0, s.fold, OwnFold(s)) && Loose(l, s, n) && Rising(l, OwnFold(s).turn, n)
  {
    LogNumbered(l);
    FreshTurn(l, s.first, n, s.seed);
    SliceAbove(l, s.first, n);
    hide Log, CleanCut, SeedFits, TurnsRise, Sim, YoungIndex, Holds, Whole, Young;
    FreshHolds(l, s.first, n, s.seed);
    FreshIsYoung(s.first, s.seed, s.events);
    PiecesMeet(s.first, |Whole(l, s.first - 1).blocks|, Whole(l, n), s.fold, OwnFold(s));
  }

  lemma SliceAbove(l: seq<Event>, a: nat, n: nat)
    requires Numbered(l) && 1 <= a <= n + 1 && n <= |l|
    ensures var evs := l[a - 1..n]; forall i :: 0 <= i < |evs| ==> a <= evs[i].sn <= n
  {
  }

  lemma SkipTakes(l: seq<Event>, s: Seg, n: nat, e: Event)
    requires Log(l) && Stepping(l, s, n) && CleanCut(l, s.first) && SeedFits(l, s.first, s.seed)
      && !Holds(s.first, s.fold)
    requires OfLog(l, e) && e.sn > n + 1
    ensures Loose(l, Pushed(s, e), e.sn) && Resumed(l, Pushed(s, e), e.sn)
  {
    SteppingMeets(l, s, n);
    OwnFoldPushed(s, e);
    GapOpens(l, s, n, e);
    hide Log, Stepping, CleanCut, SeedFits, Push, Free, Rising, Sim, Gap, Holds;
    LooseTakes(l, s, n, e);
    RisingAt(l, s.fold, n, e);
    RisingAt(l, OwnFold(s), n, e);
    PushAlong(s.first, s.fold, OwnFold(s), e);
  }

  lemma GapOpens(l: seq<Event>, s: Seg, n: nat, e: Event)
    requires Log(l) && Stepping(l, s, n) && e.sn > n + 1
    ensures Gap(Pushed(s, e), e.sn)
  {
    LogNumbered(l);
    NumbersOfSlice(l, s.first, n + 1);
    NumbersAdd(s.events, e);
    hide Numbers, Log, TailOK, YoungIndex;
    assert n + 1 !in Numbers(s.events);
    assert n + 1 !in Numbers(Pushed(s, e).events);
  }

  /** A tail that is not about to be folded again may take an event: the next one, or, when the tail holds on to nothing
      older, any. */
  predicate Takes(s: Seg, n: nat, sn: nat) { sn == n + 1 || !Holds(s.first, s.fold) }

  lemma LiveTakes(l: seq<Event>, s: Seg, n: nat, e: Event, late: bool)
    requires Log(l) && LiveTail(l, s, n, late) && s.first <= n + 1 && CleanCut(l, s.first)
      && SeedFits(l, s.first, s.seed)
    requires OfLog(l, e) && e.sn > n && Takes(s, n, e.sn)
    ensures LiveTail(l, Pushed(s, e), e.sn, late)
  {
    hide Log, CleanCut, SeedFits, Stepping, Loose, Resumed, Holds, Push;
    if Stepping(l, s, n) {
      if e.sn == n + 1 { SteppingTakes(l, s, n, e); } else { SkipTakes(l, s, n, e); }
    } else {
      LooseTakes(l, s, n, e);
      if late {
      } else if Folded(s) {
        PushFolds(s, e);
      } else {
        ResumedTakes(l, s, n, e);
      }
    }
  }

  /** In no case is a block older than the tail's first written to: whoever shares it sees nothing. */
  lemma OlderStay(l: seq<Event>, s: Seg, n: nat, e: Event, late: bool)
    requires Log(l) && LiveTail(l, s, n, late) && s.first <= n + 1 && CleanCut(l, s.first)
      && SeedFits(l, s.first, s.seed)
    requires OfLog(l, e) && e.sn > n && Takes(s, n, e.sn)
    ensures SameOld(s.first, s.fold.heap, Push(s.fold, e).heap)
  {
    if Loose(l, s, n) {
      hide Log, CleanCut, SeedFits, Stepping, Loose, Resumed, Holds, Push;
      LooseTakes(l, s, n, e);
    } else if e.sn > n + 1 {
      hide Log, CleanCut, SeedFits, Push, Free, Sim, TailOK, YoungIndex;
      SteppingMeets(l, s, n);
      LooseTakes(l, s, n, e);
    } else {
      hide Log, CleanCut, SeedFits, Push, Loose, Resumed, Holds;
      StepStays(l, s, n, e);
    }
  }

  lemma StepStays(l: seq<Event>, s: Seg, n: nat, e: Event)
    requires Log(l) && Stepping(l, s, n) && CleanCut(l, s.first) && OfLog(l, e) && e.sn == n + 1
    ensures SameOld(s.first, s.fold.heap, Push(s.fold, e).heap)
  {
    hide CleanCut, TurnsRise, Log, Push, TurnRises, Clean, YoungIndex;
    LogNumbered(l);
    CleanAt(l, s.first, n);
    WholeRises(l, n);
    RisesNext(Whole(l, n).turn, l, n, Whole(l, n));
    RisesNext(s.fold.turn, l, n, s.fold);
    var na := |Whole(l, s.first - 1).blocks|;
    PushSim(s.first, na, Whole(l, n), s.fold, e);
    PushShape(s.fold, e);
    PieceStays(s.first, na, Whole(l, n), Push(Whole(l, n), e), s.fold, Push(s.fold, e), e.sn);
  }

  lemma PieceStays(lo: Key, na: nat, g: Fold, g': Fold, h: Fold, h': Fold, sn: Key)
    requires Sim(lo, na, g, h) && Sim(lo, na, g', h') && OldKept(lo, na, g, g') && sn >= lo
    requires h.heap.Keys <= h'.heap.Keys <= h.heap.Keys + {sn}
    ensures SameOld(lo, h.heap, h'.heap)
  {
    forall k | k < lo ensures (k in h.heap <==> k in h'.heap) && (k in h.heap ==> h.heap[k] == h'.heap[k]) {
      assert k in h'.heap.Keys ==> k in h.heap.Keys + {sn};
    }
  }

  // ---- live events ----

  /** An event may come: any, but for one that skips others while the tail, all there, holds on to an older block. */
  predicate MayTake(t: View, e: Event) {
    e.sn in t.seen || e.sn <= t.lastSeq || t.detached || t.segs == [] || Takes(t.segs[|t.segs| - 1], t.lastSeq, e.sn)
  }

  predicate Steady(t: View, events: seq<Event>) {
    forall i :: 0 <= i < |events| ==> MayTake(DeliverAll(t, events[..i]).0, events[i])
  }

  /** What a delivery leaves of the segments: all but the one that took the event. */
  lemma DeliverSegs(t: View, e: Event)
    requires Shape(t)
    ensures var (t', k) := Deliver(t, e);
      && |t'.segs| == |t.segs| && t'.below == t.below && t'.detached == t.detached && (k.Some? ==> k.value < |t.segs|)
      && (forall i :: 0 <= i < |t.segs| && k != Some(i) && (t.detached || i < |t.segs| - 1) ==>
            t'.segs[i] == t.segs[i] && Hi(t', i) == Hi(t, i))
      && (forall i :: 0 <= i < |t.segs| ==> t'.segs[i].first == t.segs[i].first && t'.segs[i].seed == t.segs[i].seed)
  {
    hide Push, InsertEvent;
  }

  lemma DeliverTail(t: View, e: Event)
    requires t.segs != [] && !t.detached
    ensures var n := |t.segs| - 1;
      var (t', k) := Deliver(t, e);
      if e.sn !in t.seen && e.sn > t.lastSeq then t'.segs[n] == Pushed(t.segs[n], e) && t'.lastSeq == e.sn && k == None
      else t'.lastSeq == t.lastSeq && (k != Some(n) ==> t'.segs[n] == t.segs[n])
  {
    hide Push, InsertEvent;
  }

  lemma DeliverLate(t: View, e: Event, k: nat)
    requires Deliver(t, e).1 == Some(k)
    ensures k < |t.segs| && e.sn <= t.lastSeq && e.sn !in t.seen && Owns(t, k, e.sn)
    ensures Deliver(t, e).0.segs[k] == t.segs[k].(events := InsertEvent(t.segs[k].events, e))
    ensures Deliver(t, e).0.lastSeq == t.lastSeq
  {
    hide Push, InsertEvent;
  }

  /** An event that comes late to the tail fills a gap: the tail was not in step, and is folded again. */
  lemma LateTail(l: seq<Event>, t: View, e: Event, late: set<nat>)
    requires Log(l) && Holding(l, t, late) && !t.detached && t.segs != [] && e.sn !in t.seen && e.sn <= t.lastSeq
    requires Owns(t, |t.segs| - 1, e.sn)
    ensures var s := t.segs[|t.segs| - 1]; LiveTail(l, s.(events := InsertEvent(s.events, e)), t.lastSeq, true)
  {
    hide Log, Places, Agrees, Resumed, Loose, Stepping, InsertEvent, AllFiled, Shape, Cursors, Owns, Numbers, Hi,
      Folded;
    ShapeOf(l, t, late);
    var s := t.segs[|t.segs| - 1];
    NotHeld(l, t, e, |t.segs| - 1);
    LooseMoves(l, s, InsertEvent(s.events, e), t.lastSeq);
    if Stepping(l, s, t.lastSeq) { SteppingHas(l, s, t.lastSeq, e.sn); }
  }

  lemma NotHeld(l: seq<Event>, t: View, e: Event, k: nat)
    requires AllFiled(l, t) && k < |t.segs| && Owns(t, k, e.sn) && e.sn !in t.seen
    ensures e.sn !in Numbers(t.segs[k].events) && t.segs[k].first <= e.sn
  {
    hide AllFiled, Numbers, Ascending, AllOfLog;
    FiledAt(l, t, k);
  }

  lemma LooseMoves(l: seq<Event>, s: Seg, events: seq<Event>, n: nat)
    ensures Loose(l, s, n) ==> Loose(l, s.(events := events), n)
  {
  }

  lemma SteppingHas(l: seq<Event>, s: Seg, n: nat, m: nat)
    requires Log(l) && Stepping(l, s, n) && s.first <= m <= n
    ensures m in Numbers(s.events)
  {
    hide Numbers, TailOK, YoungIndex, Log;
    LogNumbered(l);
    NumbersOfSlice(l, s.first, n + 1);
  }

  lemma DeliverAgrees(l: seq<Event>, t: View, e: Event, late: set<nat>)
    requires Holding(l, t, late)
    ensures var (t', k) := Deliver(t, e);
      forall i :: 0 <= i < |t'.segs| && i !in late && k != Some(i) && (t'.detached || i < |t'.segs| - 1) ==>
        Agrees(t'.segs[i], Hi(t', i))
  {
    ShapeOf(l, t, late);
    hide Places, Agrees, LiveTail, Deliver, AllFiled, Hi;
    DeliverSegs(t, e);
    var (t', k) := Deliver(t, e);
    forall i | 0 <= i < |t'.segs| && i !in late && k != Some(i) && (t'.detached || i < |t'.segs| - 1)
      ensures Agrees(t'.segs[i], Hi(t', i))
    {
      assert Agrees(t.segs[i], Hi(t, i));
    }
  }

  lemma ShapeOf(l: seq<Event>, t: View, late: set<nat>)
    requires Holding(l, t, late)
    ensures Shape(t) && Cursors(t) && AllFiled(l, t) && Places(l, t) && t.segs != [] && t.lastSeq <= |l|
  {
  }

  lemma DeliverPlaces(l: seq<Event>, t: View, e: Event)
    requires AllFiled(l, t) && Places(l, t) && t.lastSeq <= |l| && OfLog(l, e)
    ensures var t' := Deliver(t, e).0;
      AllFiled(l, t') && Places(l, t') && t'.lastSeq <= |l| && t'.detached == t.detached && |t'.segs| == |t.segs|
  {
    hide AllFiled, Places, Deliver, TookAll, SamePlaces;
    DeliverFiles(l, t, e);
    var t' := Deliver(t, e).0;
    TookPlaces(t, t', {e.sn});
    TookUpTo(t, t', {e.sn}, |l|);
    PlacesStay(l, t, t');
    SameDetached(t, t');
  }

  lemma DeliverHolds(l: seq<Event>, t: View, e: Event, late: set<nat>)
    requires Log(l) && Holding(l, t, late) && OfLog(l, e) && MayTake(t, e)
    ensures var (t', k) := Deliver(t, e); Holding(l, t', if k.Some? then late + {k.value} else late)
  {
    ShapeOf(l, t, late);
    hide Log, Shape, Cursors, AllFiled, Places, Agrees, LiveTail, Deliver, MayTake, Holding, OfLog;
    DeliverAgrees(l, t, e, late);
    DeliverPlaces(l, t, e);
    if !t.detached { TailStaysLive(l, t, e, late); }
    var (t', k) := Deliver(t, e);
    MakeHolding(l, t', if k.Some? then late + {k.value} else late);
  }

  lemma SameDetached(t: View, t': View)
    requires SamePlaces(t, t')
    ensures t'.detached == t.detached && |t'.segs| == |t.segs|
  {
  }

  lemma MakeHolding(l: seq<Event>, t: View, late: set<nat>)
    requires AllFiled(l, t) && Places(l, t) && t.lastSeq <= |l|
    requires forall i :: 0 <= i < |t.segs| && i !in late && (t.detached || i < |t.segs| - 1) ==>
      Agrees(t.segs[i], Hi(t, i))
    requires !t.detached ==> t.segs != [] && LiveTail(l, t.segs[|t.segs| - 1], t.lastSeq, |t.segs| - 1 in late)
    ensures Holding(l, t, late)
  {
    hide AllFiled, Places, Agrees, LiveTail;
  }

  lemma TookUpTo(t: View, t': View, numbers: set<nat>, n: nat)
    requires TookAll(t, t', numbers) && t.lastSeq <= n && forall m :: m in numbers ==> m <= n
    ensures t'.lastSeq <= n
  {
  }

  lemma TailStaysLive(l: seq<Event>, t: View, e: Event, late: set<nat>)
    requires Log(l) && Holding(l, t, late) && OfLog(l, e) && MayTake(t, e) && !t.detached
    ensures var (t', k) := Deliver(t, e);
      var late' := if k.Some? then late + {k.value} else late;
      |t'.segs| == |t.segs| > 0 && LiveTail(l, t'.segs[|t.segs| - 1], t'.lastSeq, |t.segs| - 1 in late')
  {
    hide Log, AllFiled, Places, Agrees, LiveTail, Deliver, CleanCut, SeedFits, Holds, Shape, Cursors, InsertEvent;
    ShapeOf(l, t, late);
    var n := |t.segs| - 1;
    DeliverSegs(t, e);
    DeliverTail(t, e);
    PlaceAt(l, t, n);
    TailStarts(t);
    HoldingTail(l, t, late);
    if Deliver(t, e).1 == Some(n) {
      DeliverLate(t, e, n);
      LateTail(l, t, e, late);
    } else if e.sn !in t.seen && e.sn > t.lastSeq {
      LiveTakes(l, t.segs[n], t.lastSeq, e, n in late);
    }
  }

  lemma HoldingTail(l: seq<Event>, t: View, late: set<nat>)
    requires Holding(l, t, late) && !t.detached && t.segs != []
    ensures LiveTail(l, t.segs[|t.segs| - 1], t.lastSeq, |t.segs| - 1 in late)
  {
    hide AllFiled, Places, Agrees, LiveTail;
  }

  lemma SteadyFront(t: View, events: seq<Event>)
    requires Steady(t, events) && events != []
    ensures var n := |events| - 1; Steady(t, events[..n]) && MayTake(DeliverAll(t, events[..n]).0, events[n])
  {
    hide MayTake, DeliverAll;
    var n := |events| - 1;
    assert forall i :: 0 <= i < n ==> events[..n][..i] == events[..i] && events[..n][i] == events[i];
  }

  lemma {:induction false} DeliverAllHolds(l: seq<Event>, t: View, events: seq<Event>)
    requires Log(l) && Good(l, t) && AllOfLog(l, events) && Steady(t, events)
    ensures var (t', late) := DeliverAll(t, events); Holding(l, t', late) && TookAll(t, t', Numbers(events))
  {
    hide Log, Holding, TookAll, Deliver, Numbers, OfLog, MayTake, Steady;
    if events != [] {
      var n := |events| - 1;
      var front, e := events[..n], events[n];
      SteadyFront(t, events);
      DeliverAllHolds(l, t, front);
      var (t1, late) := DeliverAll(t, front);
      assert front + [e] == events;
      OneMoreHolds(l, t, t1, late, front, e);
    } else {
      DeliverNone(t);
    }
  }

  lemma OneMoreHolds(l: seq<Event>, t: View, t1: View, late: set<nat>, front: seq<Event>, e: Event)
    requires Log(l) && Holding(l, t1, late) && TookAll(t, t1, Numbers(front)) && OfLog(l, e) && MayTake(t1, e)
    ensures var (t2, k) := Deliver(t1, e);
      Holding(l, t2, if k.Some? then late + {k.value} else late) && TookAll(t, t2, Numbers(front + [e]))
  {
    hide Log, Holding, TookAll, Deliver, Numbers, OfLog, MayTake;
    DeliverHolds(l, t1, e, late);
    HoldingFiles(l, t1, late);
    DeliverFiles(l, t1, e);
    TookBoth(t, t1, Deliver(t1, e).0, Numbers(front), {e.sn});
    NumbersAdd(front, e);
  }

  lemma HoldingFiles(l: seq<Event>, t: View, late: set<nat>)
    requires Holding(l, t, late)
    ensures AllFiled(l, t) && Places(l, t) && t.segs != [] && t.lastSeq <= |l|
  {
    NotEmptyShape(l, t);
  }

  lemma RefoldAgrees(l: seq<Event>, t: View, late: set<nat>)
    requires Holding(l, t, late)
    ensures var t' := t.(segs := RefoldSegs(t.segs, late));
      forall i :: 0 <= i < |t'.segs| && (t'.detached || i < |t'.segs| - 1) ==> Agrees(t'.segs[i], Hi(t', i))
  {
    RefoldPlaces(t, late);
    var t' := t.(segs := RefoldSegs(t.segs, late));
    hide AllFiled, Places, Agrees, LiveTail, Hi, RefoldSegs, Folded;
    forall i | 0 <= i < |t'.segs| && (t'.detached || i < |t'.segs| - 1) ensures Agrees(t'.segs[i], Hi(t', i)) {
      if i in late { FoldedAgrees(t'.segs[i], Hi(t', i)); } else { assert Agrees(t.segs[i], Hi(t, i)); }
    }
  }

  lemma RefoldTail(l: seq<Event>, t: View, late: set<nat>)
    requires Holding(l, t, late) && !t.detached
    ensures var t' := t.(segs := RefoldSegs(t.segs, late));
      AllFiled(l, t') && Places(l, t') ==> LiveTail(l, t'.segs[|t.segs| - 1], t'.lastSeq, false)
  {
    hide AllFiled, Places, Agrees, Stepping, Loose, Resumed, Hi, RefoldSegs, Folded, SamePlaces, Shape, Cursors,
      Holding;
    ShapeOf(l, t, late);
    RefoldPlaces(t, late);
    HoldingTail(l, t, late);
    var t', n := t.(segs := RefoldSegs(t.segs, late)), |t.segs| - 1;
    if n in late && AllFiled(l, t') && Places(l, t') { FoldedIsLoose(l, t'); }
  }

  /** The late segments folded again, all agree with their events. */
  lemma RefoldHolds(l: seq<Event>, t: View, late: set<nat>)
    requires Log(l) && Holding(l, t, late)
    ensures Good(l, t.(segs := RefoldSegs(t.segs, late)))
  {
    RefoldAgrees(l, t, late);
    if !t.detached { RefoldTail(l, t, late); }
    ShapeOf(l, t, late);
    RefoldPlaces(t, late);
    hide Log, Holding, Agrees, AllFiled, Places, LiveTail, SamePlaces, RefoldSegs, Shape, Cursors;
    var t' := t.(segs := RefoldSegs(t.segs, late));
    SameEventsFiled(l, t, t');
    PlacesStay(l, t, t');
    MakeHolding(l, t', {});
  }

  lemma RefoldPlaces(t: View, late: set<nat>)
    ensures var t' := t.(segs := RefoldSegs(t.segs, late));
      && SamePlaces(t, t') && t'.lastSeq == t.lastSeq && t'.seen == t.seen
      && (forall i :: 0 <= i < |t.segs| ==> t'.segs[i].events == t.segs[i].events && Hi(t', i) == Hi(t, i))
      && (forall i :: 0 <= i < |t.segs| && i in late ==> Folded(t'.segs[i]))
      && (forall i :: 0 <= i < |t.segs| && i !in late ==> t'.segs[i] == t.segs[i])
  {
    hide FoldFrom;
  }

  /** A batch in any order, with any repetitions. */
  lemma ApplyHolds(l: seq<Event>, t: View, events: seq<Event>)
    requires Log(l) && Good(l, t) && AllOfLog(l, events) && Steady(t, events)
    ensures Good(l, Apply(t, events)) && TookAll(t, Apply(t, events), Numbers(events))
  {
    hide Log, Good, Holding, TookAll, AllOfLog, SamePlaces, Steady, Agrees;
    DeliverAllHolds(l, t, events);
    var (t1, late) := DeliverAll(t, events);
    ApplyRefolds(t, events);
    RefoldHolds(l, t1, late);
    SameEventsTook(t, t1, Apply(t, events), Numbers(events));
  }

  // ---- filing ----

  lemma MakeFiled(l: seq<Event>, t: View, i: nat)
    requires i < |t.segs| && Ascending(t.segs[i].events) && AllOfLog(l, t.segs[i].events)
    requires forall n: nat :: n in Numbers(t.segs[i].events) <==> n in t.seen && Owns(t, i, n)
    ensures Filed(l, t, i)
  {
    hide Owns, Numbers, Ascending, AllOfLog;
  }

  /** A slice of the log as a segment of its range. */
  lemma SliceFiled(l: seq<Event>, t: View, i: nat, hi: nat)
    requires Log(l) && i < |t.segs| && 1 <= t.segs[i].first <= hi <= |l| + 1
    requires t.segs[i].events == l[t.segs[i].first - 1..hi - 1]
    requires forall n: nat :: n in t.seen && Owns(t, i, n) <==> t.segs[i].first <= n < hi
    ensures Filed(l, t, i)
  {
    LogNumbered(l);
    SliceOfLog(l, t.segs[i].first, hi);
    NumbersOfSlice(l, t.segs[i].first, hi);
    hide Owns, Numbers, Ascending, AllOfLog, Log;
    MakeFiled(l, t, i);
  }

  // ---- opening and loading older ----

  lemma OpenHolds(l: seq<Event>, p: Page)
    requires Log(l) && TailPage(l, p)
    ensures Good(l, OpenTail(p))
  {
    var t := OpenTail(p);
    OpenTailKeeps(l, p);
    hide Log, TailPage, Inv, Agrees, FoldFrom, AllFiled, Places, Loose, Stepping, Resumed;
    assert Folded(t.segs[0]);
    StepAllFiled(l, t);
    PlacesOf(l, t);
    LastInLog(l, t);
    FoldedIsLoose(l, t);
    MakeHolding(l, t, {});
  }

  lemma FrontShape(t: View, s: Seg, hasOlder: bool)
    requires Shape(t) && Cursors(t) && t.segs[0].first <= t.lastSeq + 1
    requires Exactly(Numbers(s.events), s.first, t.segs[0].first) && s.first < t.segs[0].first
    ensures Shape(InFront(t, s, hasOlder)) && Cursors(InFront(t, s, hasOlder))
    ensures var t' := InFront(t, s, hasOlder);
      |t'.segs| == |t.segs| + 1 && t'.segs[0] == s && forall i :: 0 < i < |t'.segs| ==> t'.segs[i] == t.segs[i - 1]
  {
    hide Numbers;
    InFrontIndexes(t, s, hasOlder);
  }

  lemma FrontFiled(l: seq<Event>, t: View, s: Seg, hasOlder: bool)
    requires Log(l) && AllFiled(l, t) && t.segs != [] && 1 <= s.first < t.segs[0].first <= |l| + 1
      && t.segs[0].first <= t.lastSeq + 1
    requires s.events == l[s.first - 1..t.segs[0].first - 1]
    ensures AllFiled(l, InFront(t, s, hasOlder))
  {
    LogNumbered(l);
    NumbersOfSlice(l, s.first, t.segs[0].first);
    FrontShape(t, s, hasOlder);
    FrontOwns(t, s, hasOlder);
    var t' := InFront(t, s, hasOlder);
    hide Log, Shape, Numbers, Owns, Cursors, InFront, Ascending, AllOfLog;
    forall i | 0 <= i < |t'.segs| ensures Filed(l, t', i) {
      if i == 0 {
        SliceFiled(l, t', 0, t.segs[0].first);
      } else {
        FiledAt(l, t, i - 1);
        MakeFiled(l, t', i);
      }
    }
  }

  lemma FrontOwns(t: View, s: Seg, hasOlder: bool)
    requires Shape(t) && Cursors(t) && Exactly(Numbers(s.events), s.first, t.segs[0].first) && s.first < t.segs[0].first
    ensures var t' := InFront(t, s, hasOlder);
      && (forall n: nat :: n in t'.seen && Owns(t', 0, n) <==> s.first <= n < t.segs[0].first)
      && (forall i, n :: 0 < i < |t'.segs| ==> (n in t'.seen && Owns(t', i, n) <==> n in t.seen && Owns(t, i - 1, n)))
  {
    hide Numbers;
    assert forall i :: 0 <= i < |t.segs| ==> t.segs[i].first >= t.segs[0].first;
  }

  lemma OlderHolds(l: seq<Event>, t: View, p: Page)
    requires Log(l) && Good(l, t) && (t.hasOlder ==> OlderPage(l, t.segs[0].first, p))
    ensures Good(l, LoadOlder(t, p))
  {
    ShapeOf(l, t, {});
    PlaceAt(l, t, 0);
    StartsInLog(t);
    OlderStart(l, t);
    LogNumbered(l);
    hide Log, AllFiled, Places, Agrees, LiveTail, CleanCut, LoadOlder, Numbered, Numbers, Shape;
    if t.hasOlder {
      var first := t.segs[0].first;
      var cut := first - |p.events|;
      LoadOlderIs(l, t, p, cut);
      FrontHolds(l, t, MakeSeg(p.events, 0, cut), p.hasOlder);
    } else {
      NothingOlder(t, p);
    }
  }

  lemma StartsInLog(t: View)
    requires Shape(t) && Cursors(t)
    ensures t.segs[0].first <= t.lastSeq + 1 && forall n :: n in t.seen ==> t.segs[0].first <= n
  {
  }

  lemma OlderStart(l: seq<Event>, t: View)
    requires Places(l, t)
    ensures t.hasOlder ==> t.segs[0].first > 1
  {
    hide CleanCut, SeedFits;
  }

  lemma FrontHolds(l: seq<Event>, t: View, s: Seg, hasOlder: bool)
    requires Log(l) && Good(l, t) && 1 <= s.first < t.segs[0].first <= |l| + 1 && CleanCut(l, s.first)
      && (hasOlder <==> s.first > 1)
    requires s == MakeSeg(l[s.first - 1..t.segs[0].first - 1], 0, s.first)
    ensures Good(l, InFront(t, s, hasOlder))
  {
    hide Log, AllFiled, Places, Agrees, LiveTail, CleanCut, Shape, Cursors, FoldFrom;
    ShapeOf(l, t, {});
    StartsInLog(t);
    FrontFiled(l, t, s, hasOlder);
    FrontPlaces(l, t, s, hasOlder);
    FrontAgrees(l, t, s, hasOlder);
    MakeHolding(l, InFront(t, s, hasOlder), {});
  }

  lemma FrontPlaces(l: seq<Event>, t: View, s: Seg, hasOlder: bool)
    requires Log(l) && Places(l, t) && CleanCut(l, s.first) && s.seed == 0 && 1 <= s.first <= |l| + 1
      && (hasOlder <==> s.first > 1)
    ensures Places(l, InFront(t, s, hasOlder))
  {
    hide InFront, Placed, CutsOK, Log, CleanCut;
    UnseededPlace(l, s.first);
    InFrontIs(t, s, hasOlder);
    var t' := InFront(t, s, hasOlder);
    forall i | 0 <= i < |t'.segs| ensures Placed(l, t'.segs[i].first, t'.segs[i].seed) {
      if i > 0 { assert t'.segs[i] == t.segs[i - 1]; }
    }
  }

  lemma UnseededPlace(l: seq<Event>, first: nat)
    requires Log(l) && CleanCut(l, first) && 1 <= first <= |l| + 1
    ensures Placed(l, first, 0)
  {
    hide Log, CleanCut;
    NoSeedFits(l, first);
  }

  lemma InFrontIs(t: View, s: Seg, hasOlder: bool)
    ensures var t' := InFront(t, s, hasOlder);
      && t'.below == t.below && t'.lastSeq == t.lastSeq && t'.hasOlder == hasOlder && |t'.segs| == |t.segs| + 1
      && t'.segs[0] == s && forall i :: 0 < i < |t'.segs| ==> t'.segs[i] == t.segs[i - 1]
  {
    hide Numbers;
  }

  lemma FrontFields(t: View, s: Seg, hasOlder: bool)
    ensures var t' := InFront(t, s, hasOlder);
      t'.detached == t.detached && t'.lastSeq == t.lastSeq && t'.segs == [s] + t.segs && t'.segs[0] == s
  {
  }

  lemma FrontAgrees(l: seq<Event>, t: View, s: Seg, hasOlder: bool)
    requires Good(l, t) && Folded(s)
    ensures var t' := InFront(t, s, hasOlder);
      && (forall i :: 0 <= i < |t'.segs| && (t'.detached || i < |t'.segs| - 1) ==> Agrees(t'.segs[i], Hi(t', i)))
      && (!t'.detached ==> t'.segs != [] && LiveTail(l, t'.segs[|t'.segs| - 1], t'.lastSeq, false))
  {
    hide AllFiled, Places, Agrees, LiveTail, Hi, Folded, Shape, Numbers, Cursors, InFront;
    ShapeOf(l, t, {});
    InFrontIndexes(t, s, hasOlder);
    FrontFields(t, s, hasOlder);
    var t' := InFront(t, s, hasOlder);
    FoldedAgrees(s, Hi(t', 0));
    forall i | 0 <= i < |t'.segs| && (t'.detached || i < |t'.segs| - 1) ensures Agrees(t'.segs[i], Hi(t', i)) {
      if i > 0 { assert Agrees(t.segs[i - 1], Hi(t, i - 1)); }
    }
  }

  // ---- fetching back ----

  /** The view with its first dropped segment back, its events from the log up to `hi`. */
  function Back(t: View, s: Seg, last: nat): View
    requires t.below != []
  {
    Behind(t, s).(below := t.below[1..], detached := |t.below| > 1, lastSeq := last)
  }

  function BackTo(t: View, last: nat): nat
    requires t.below != []
  {
    if |t.below| > 1 then t.below[1] else last + 1
  }

  lemma BackOwns(t: View, s: Seg, last: nat)
    requires Shape(t) && Cursors(t) && t.below != [] && s.first == t.below[0] && last >= t.lastSeq
    requires Exactly(Numbers(s.events), s.first, BackTo(t, last)) && s.first <= BackTo(t, last) <= last + 1
    ensures var t' := Back(t, s, last);
      && (forall i, n :: 0 <= i < |t.segs| ==> (n in t'.seen && Owns(t', i, n) <==> n in t.seen && Owns(t, i, n)))
      && (forall n: nat :: n in t'.seen && Owns(t', |t.segs|, n) <==> s.first <= n < BackTo(t, last))
  {
    hide Numbers;
    var t' := Back(t, s, last);
    assert t'.segs[|t.segs|] == s;
    forall i, n: nat | 0 <= i < |t.segs| ensures n in t'.seen && Owns(t', i, n) <==> n in t.seen && Owns(t, i, n) {
      assert t'.segs[i] == t.segs[i];
    }
  }

  lemma BackShape(t: View, s: Seg, last: nat)
    requires Shape(t) && Cursors(t) && t.below != [] && s.first == t.below[0] && last >= t.lastSeq
    requires Exactly(Numbers(s.events), s.first, BackTo(t, last)) && s.first <= BackTo(t, last) <= last + 1
    ensures Shape(Back(t, s, last)) && Cursors(Back(t, s, last))
    ensures var t' := Back(t, s, last);
      && |t'.segs| == |t.segs| + 1 && t'.segs[|t.segs|] == s && Hi(t', |t.segs|) == BackTo(t, last)
      && (forall i :: 0 <= i < |t.segs| ==> t'.segs[i] == t.segs[i] && Hi(t', i) == Hi(t, i))
  {
    hide Numbers;
    forall i | 0 <= i < |t.segs| ensures t.segs[i].first < t.below[0] { BelowLast(t, i, 0); }
  }

  lemma BackFiled(l: seq<Event>, t: View, s: Seg, last: nat)
    requires Log(l) && AllFiled(l, t) && t.below != [] && s.first == t.below[0] && t.lastSeq <= last <= |l|
    requires 1 <= s.first <= BackTo(t, last) <= last + 1 && s.events == l[s.first - 1..BackTo(t, last) - 1]
    ensures AllFiled(l, Back(t, s, last))
  {
    LogNumbered(l);
    NumbersOfSlice(l, s.first, BackTo(t, last));
    BackShape(t, s, last);
    BackOwns(t, s, last);
    var t' := Back(t, s, last);
    hide Log, Shape, Numbers, Owns, Cursors, Back, BackTo;
    forall i | 0 <= i < |t'.segs| ensures Filed(l, t', i) {
      if i == |t.segs| {
        SliceFiled(l, t', i, BackTo(t, last));
      } else {
        FiledAt(l, t, i);
        MakeFiled(l, t', i);
      }
    }
  }

  lemma BackHolds(l: seq<Event>, t: View, s: Seg, last: nat, hi: nat)
    requires Log(l) && Good(l, t) && t.below != [] && s.first == t.below[0] && t.lastSeq <= last <= |l|
    requires hi == BackTo(t, last) && 1 <= s.first <= hi <= last + 1 && s.events == l[s.first - 1..hi - 1]
    requires Folded(s) && s.seed == 0
    ensures Good(l, Back(t, s, last))
  {
    hide Log, AllFiled, Places, Back, Numbered, Numbers, Good, Folded, Shape, Cursors, BackTo, Hi;
    GoodShape(l, t);
    LogNumbered(l);
    NumbersOfSlice(l, s.first, hi);
    BackShape(t, s, last);
    BackFiled(l, t, s, last);
    BackPlaces(l, t, s, last);
    BackLast(t, s, last);
    BackGood(l, t, s, Back(t, s, last), last);
  }

  lemma BackLast(t: View, s: Seg, last: nat)
    requires t.below != []
    ensures Back(t, s, last).lastSeq == last
  {
    hide Numbers;
  }

  lemma GoodShape(l: seq<Event>, t: View)
    requires Good(l, t)
    ensures Shape(t) && Cursors(t) && AllFiled(l, t) && Places(l, t) && t.segs != [] && t.lastSeq <= |l|
  {
  }

  lemma BackGood(l: seq<Event>, t: View, s: Seg, t': View, last: nat)
    requires Log(l) && Good(l, t) && t.below != [] && Folded(s) && AllFiled(l, t') && Places(l, t') && t'.lastSeq <= |l|
    requires |t'.segs| == |t.segs| + 1 && t'.segs[|t.segs|] == s
    requires forall i :: 0 <= i < |t.segs| ==> t'.segs[i] == t.segs[i] && Hi(t', i) == Hi(t, i)
    ensures Good(l, t')
  {
    hide Log, AllFiled, Places, Agrees, LiveTail, Folded, Hi, Holding, Shape, Cursors;
    AllAgree(l, t);
    FoldedAgrees(s, Hi(t', |t.segs|));
    forall i | 0 <= i < |t'.segs| ensures Agrees(t'.segs[i], Hi(t', i)) {
      if i < |t.segs| { assert Agrees(t.segs[i], Hi(t, i)); }
    }
    if !t'.detached { FoldedLives(l, t'); }
    MakeHolding(l, t', {});
  }

  lemma FoldedLives(l: seq<Event>, t: View)
    requires AllFiled(l, t) && Places(l, t) && t.lastSeq <= |l| && t.segs != [] && Folded(t.segs[|t.segs| - 1])
    ensures LiveTail(l, t.segs[|t.segs| - 1], t.lastSeq, false)
  {
    hide AllFiled, Places, Folded, Loose, Stepping, Resumed;
    FoldedIsLoose(l, t);
  }

  lemma BackPlaces(l: seq<Event>, t: View, s: Seg, last: nat)
    requires Log(l) && Places(l, t) && t.below != [] && s.first == t.below[0] && s.seed == 0 && t.lastSeq <= last <= |l|
    ensures Places(l, Back(t, s, last))
  {
    var t' := Back(t, s, last);
    assert CleanCut(l, t.below[0]);
    NoSeedFits(l, s.first);
    assert Placed(l, s.first, s.seed);
    hide CleanCut, Placed, Log, Numbers;
    forall i | 0 <= i < |t'.segs| ensures Placed(l, t'.segs[i].first, t'.segs[i].seed) {
      if i < |t.segs| { assert t'.segs[i] == t.segs[i]; } else { assert t'.segs[i] == s; }
    }
  }

  lemma AllAgree(l: seq<Event>, t: View)
    requires Good(l, t) && t.below != []
    ensures forall i :: 0 <= i < |t.segs| ==> Agrees(t.segs[i], Hi(t, i))
  {
    ShapeOf(l, t, {});
    AttachedOrNot(t);
    hide AllFiled, Places, Agrees, LiveTail, Shape, Cursors, Hi;
  }

  lemma AttachedOrNot(t: View)
    requires Shape(t)
    ensures t.detached <==> t.below != []
  {
  }

  lemma PageFacts(l: seq<Event>, t: View, p: Page, from: nat, until: nat)
    requires |t.below| > 1 && NewerPage(l, t, p) && from == t.below[0] && until == t.below[1]
    ensures 1 <= from <= until <= |l| + 1 && until - from <= |p.events| < until
    ensures p.events == l[until - |p.events| - 1..until - 1]
  {
  }

  lemma PageHolds(l: seq<Event>, t: View, p: Page, from: nat, until: nat)
    requires Log(l) && Good(l, t) && |t.below| > 1 && NewerPage(l, t, p) && from == t.below[0]
      && until == t.below[1] <= t.lastSeq + 1
    requires t.segs != [] && t.lastSeq <= |l|
    ensures Good(l, LoadNewer(t, p))
  {
    hide Log, Holding, LoadNewer, Numbered, FoldFrom, Numbers, NewerPage, Behind, Back;
    LogNumbered(l);
    PageFacts(l, t, p, from, until);
    LoadNewerIs(l, t, p, from, until);
    var s := MakeSeg(l[from - 1..until - 1], 0, from);
    BackHolds(l, t, s, t.lastSeq, until);
    DetachedStays(l, t);
    BackIs(t, s);
  }

  lemma BackIs(t: View, s: Seg)
    requires |t.below| > 1 && t.detached
    ensures Back(t, s, t.lastSeq) == Behind(t, s).(below := t.below[1..])
  {
    hide Numbers;
  }

  lemma DetachedStays(l: seq<Event>, t: View)
    requires Good(l, t)
    ensures t.below != [] <==> t.detached
  {
  }

  lemma NewestFacts(l: seq<Event>, t: View, p: Page, from: nat)
    requires |t.below| == 1 && NewerPage(l, t, p) && from == t.below[0]
    ensures 1 <= from && t.lastSeq <= from - 1 + |p.events| <= |l| && p.events == l[from - 1..from - 1 + |p.events|]
  {
  }

  lemma NewestHolds(l: seq<Event>, t: View, p: Page, from: nat, n: nat)
    requires Log(l) && Good(l, t) && |t.below| == 1 && NewerPage(l, t, p) && from == t.below[0] <= t.lastSeq + 1
    requires n == from - 1 + |p.events| && t.segs != []
    ensures Good(l, LoadNewer(t, p))
  {
    hide Log, Holding, LoadNewer, Numbered, FoldFrom, Numbers, NewerPage, Behind, Back;
    LogNumbered(l);
    NewestFacts(l, t, p, from);
    LoadNewestIs(l, t, p);
    var s := MakeSeg(l[from - 1..n], 0, from);
    BackHolds(l, t, s, n, n + 1);
    LastBackIs(t, s, n);
  }

  lemma LastBackIs(t: View, s: Seg, n: nat)
    requires |t.below| == 1
    ensures Back(t, s, n) == Behind(t, s).(below := [], detached := false, lastSeq := n)
  {
    hide Numbers;
  }

  lemma NewerHolds(l: seq<Event>, t: View, p: Page)
    requires Log(l) && Good(l, t) && (t.below != [] ==> NewerPage(l, t, p))
    ensures Good(l, LoadNewer(t, p))
  {
    ShapeOf(l, t, {});
    DroppedAt(l, t);
    hide Log, Good, Holding, AllFiled, Places, LoadNewer, NewerPage;
    if t.below == [] {
      NothingNewer(t, p);
    } else if |t.below| > 1 {
      PageHolds(l, t, p, t.below[0], t.below[1]);
    } else {
      NewestHolds(l, t, p, t.below[0], t.below[0] - 1 + |p.events|);
    }
  }

  lemma NothingNewer(t: View, p: Page)
    requires t.below == []
    ensures LoadNewer(t, p) == t
  {
  }

  lemma DroppedAt(l: seq<Event>, t: View)
    requires Places(l, t)
    ensures forall i :: 0 <= i < |t.below| ==> 1 <= t.below[i] <= t.lastSeq + 1
  {
    hide CleanRun;
  }

  // ---- unloading ----

  /** A number of a kept segment is not among the dropped ones. */
  lemma KeptHeld(l: seq<Event>, t: View, top: nat, bottom: nat, i: nat, n: nat)
    requires AllFiled(l, t) && top <= i < bottom <= |t.segs| && Owns(t, i, n)
    ensures n !in NumbersOf(t.segs[..top] + t.segs[bottom..])
  {
    var gone := t.segs[..top] + t.segs[bottom..];
    forall s, e | s in gone && e in s.events ensures e.sn != n {
      var j :| 0 <= j < |gone| && gone[j] == s;
      var k := if j < top then j else bottom + (j - top);
      assert t.segs[k] == s;
      OwnedOnce(l, t, i, k, n);
      assert e.sn in Numbers(s.events);
    }
  }

  lemma OwnedOnce(l: seq<Event>, t: View, i: nat, k: nat, n: nat)
    requires AllFiled(l, t) && i < |t.segs| && k < |t.segs| && i != k && Owns(t, i, n)
    ensures n !in Numbers(t.segs[k].events)
  {
    FiledAt(l, t, k);
    hide Numbers;
    if Owns(t, k, n) { OneOwner(t, i, k, n); }
  }

  /** A number seen before the first kept segment goes with a dropped one. */
  lemma DroppedHeld(l: seq<Event>, t: View, top: nat, bottom: nat, n: nat)
    requires AllFiled(l, t) && top < bottom <= |t.segs| && n in t.seen && n < t.segs[top].first
    ensures n in NumbersOf(t.segs[..top] + t.segs[bottom..])
  {
    StartsInLog(t);
    HiBefore(t, top - 1, top);
    var i := InSomeSeg(t, 0, top, n);
    AllFiledShape(l, t);
    OwnsByHi(t, i, n);
    FiledAt(l, t, i);
    var e :| e in t.segs[i].events && e.sn == n;
    var gone := t.segs[..top] + t.segs[bottom..];
    assert gone[i] == t.segs[i];
    assert gone[i] in gone;
  }

  lemma AllFiledShape(l: seq<Event>, t: View)
    requires AllFiled(l, t)
    ensures Shape(t) && Cursors(t)
  {
  }

  lemma OwnsByHi(t: View, i: nat, n: nat)
    requires Shape(t) && i < |t.segs| && t.segs[i].first <= n < Hi(t, i)
    ensures Owns(t, i, n)
  {
  }

  lemma WindowOwns(t: View, top: nat, bottom: nat, i: nat, n: nat)
    requires Shape(t) && top < bottom <= |t.segs| && i < bottom - top
    ensures Owns(Window(t, top, bottom), i, n) <==> Owns(t, top + i, n)
  {
    hide NumbersOf;
    WindowAt(t, top, bottom);
  }

  lemma WindowSeenIs(t: View, top: nat, bottom: nat)
    requires top < bottom <= |t.segs|
    ensures Window(t, top, bottom).seen == t.seen - NumbersOf(t.segs[..top] + t.segs[bottom..])
    ensures Window(t, top, bottom).lastSeq == t.lastSeq
      && Window(t, top, bottom).detached == (t.detached || bottom < |t.segs|)
    ensures Window(t, top, bottom).hasOlder == (top > 0 || t.hasOlder)
  {
  }

  lemma WindowFiledAt(l: seq<Event>, t: View, top: nat, bottom: nat, i: nat)
    requires AllFiled(l, t) && top < bottom <= |t.segs| && i < bottom - top
    ensures i < |Window(t, top, bottom).segs| && Filed(l, Window(t, top, bottom), i)
  {
    hide Window, NumbersOf, Numbers, Ascending, AllOfLog, AllFiled, Owns, Shape, Cursors, Filed;
    var t' := Window(t, top, bottom);
    WindowAt(t, top, bottom);
    WindowSeenIs(t, top, bottom);
    FiledAt(l, t, top + i);
    AllFiledShape(l, t);
    forall n: nat ensures n in Numbers(t'.segs[i].events) <==> n in t'.seen && Owns(t', i, n) {
      WindowOwns(t, top, bottom, i, n);
      if Owns(t, top + i, n) { KeptHeld(l, t, top, bottom, top + i, n); }
    }
    MakeFiled(l, t', i);
  }

  lemma WindowCursors(l: seq<Event>, t: View, top: nat, bottom: nat)
    requires AllFiled(l, t) && top < bottom <= |t.segs|
    ensures Cursors(Window(t, top, bottom))
  {
    AllFiledShape(l, t);
    WindowAt(t, top, bottom);
    WindowSeenIs(t, top, bottom);
    var t' := Window(t, top, bottom);
    hide Window, NumbersOf, AllFiled;
    FirstsInLog(t);
    forall n: nat | n in t'.seen ensures t'.segs[0].first <= n {
      if n < t.segs[top].first { DroppedHeld(l, t, top, bottom, n); }
    }
  }

  lemma FirstsInLog(t: View)
    requires Shape(t) && Cursors(t)
    ensures forall i :: 0 <= i < |t.segs| ==> t.segs[i].first <= t.lastSeq + 1
  {
    var n := |t.segs| - 1;
    forall i | 0 <= i < |t.segs| ensures t.segs[i].first <= t.lastSeq + 1 {
      assert i < n ==> t.segs[i].first < t.segs[n].first;
    }
  }

  lemma WindowPlaces(l: seq<Event>, t: View, top: nat, bottom: nat)
    requires AllFiled(l, t) && Places(l, t) && top < bottom <= |t.segs|
    ensures Places(l, Window(t, top, bottom))
  {
    hide Window, NumbersOf, AllFiled, Placed, CutsOK, Shape, Cursors;
    AllFiledShape(l, t);
    WindowAt(t, top, bottom);
    WindowSeenIs(t, top, bottom);
    WindowStart(l, t, top);
    WindowBelow(l, t, top, bottom);
    var t' := Window(t, top, bottom);
    assert t'.segs[0] == t.segs[top + 0];
    forall i | 0 <= i < |t'.segs| ensures Placed(l, t'.segs[i].first, t'.segs[i].seed) {
      AllPlaced(l, t, top + i);
    }
  }

  lemma AllPlaced(l: seq<Event>, t: View, i: nat)
    requires Places(l, t) && i < |t.segs|
    ensures Placed(l, t.segs[i].first, t.segs[i].seed)
  {
    hide Placed, CutsOK;
  }

  lemma WindowBelow(l: seq<Event>, t: View, top: nat, bottom: nat)
    requires AllFiled(l, t) && Places(l, t) && top < bottom <= |t.segs|
    ensures CutsOK(l, Window(t, top, bottom).below, t.lastSeq)
  {
    AllFiledShape(l, t);
    FirstsInLog(t);
    var a := Firsts(t.segs[bottom..]);
    hide CleanCut, SeedFits, AllFiled, Shape, Cursors, NumbersOf;
    forall i | 0 <= i < |a| ensures CleanCut(l, a[i]) && a[i] <= t.lastSeq + 1 {
      assert Placed(l, t.segs[bottom + i].first, t.segs[bottom + i].seed);
    }
    CutsConcat(l, a, t.below, t.lastSeq);
  }

  lemma WindowStart(l: seq<Event>, t: View, top: nat)
    requires Shape(t) && Places(l, t) && top < |t.segs|
    ensures t.segs[top].first > 1 <==> (top > 0 || t.hasOlder)
  {
    PlaceAt(l, t, 0);
    hide CleanCut, SeedFits;
    if top > 0 { assert t.segs[0].first < t.segs[top].first; }
  }

  lemma WindowAllFiled(l: seq<Event>, t: View, top: nat, bottom: nat)
    requires AllFiled(l, t) && top < bottom <= |t.segs|
    ensures AllFiled(l, Window(t, top, bottom))
  {
    AllFiledShape(l, t);
    WindowShape(t, top, bottom);
    WindowCursors(l, t, top, bottom);
    WindowAt(t, top, bottom);
    var t' := Window(t, top, bottom);
    hide Window, Shape, Cursors, Filed;
    forall i | 0 <= i < |t'.segs| ensures Filed(l, t', i) { WindowFiledAt(l, t, top, bottom, i); }
  }

  lemma WindowHolds(l: seq<Event>, t: View, top: nat, bottom: nat)
    requires Log(l) && Good(l, t) && top < bottom <= |t.segs|
    ensures Good(l, Window(t, top, bottom))
  {
    hide Window, Log, Places, Agrees, LiveTail, Shape, Cursors, Good, Filed, AllFiled, Hi;
    GoodShape(l, t);
    WindowSeenIs(t, top, bottom);
    WindowAllFiled(l, t, top, bottom);
    WindowPlaces(l, t, top, bottom);
    WindowAgrees(l, t, top, bottom);
    MakeHolding(l, Window(t, top, bottom), {});
    GoodIs(l, Window(t, top, bottom));
  }

  lemma GoodIs(l: seq<Event>, t: View)
    requires Holding(l, t, {})
    ensures Good(l, t)
  {
  }

  lemma WindowAgrees(l: seq<Event>, t: View, top: nat, bottom: nat)
    requires Log(l) && Good(l, t) && top < bottom <= |t.segs|
    ensures var t' := Window(t, top, bottom);
      && t'.segs != []
      && (forall i :: 0 <= i < |t'.segs| && (t'.detached || i < |t'.segs| - 1) ==> Agrees(t'.segs[i], Hi(t', i)))
      && (!t'.detached ==> LiveTail(l, t'.segs[|t'.segs| - 1], t'.lastSeq, false))
  {
    hide Log, Good, Agrees, LiveTail, Hi, Window;
    WindowAt(t, top, bottom);
    WindowSeenIs(t, top, bottom);
    if !t.detached { GoodTail(l, t); }
    var t' := Window(t, top, bottom);
    forall i | 0 <= i < |t'.segs| && (t'.detached || i < |t'.segs| - 1) ensures Agrees(t'.segs[i], Hi(t', i)) {
      WindowHi(t, top, bottom, i);
      SegAgrees(l, t, top + i);
    }
  }

  lemma GoodTail(l: seq<Event>, t: View)
    requires Good(l, t) && t.segs != [] && !t.detached
    ensures LiveTail(l, t.segs[|t.segs| - 1], t.lastSeq, false)
  {
    hide LiveTail, Agrees, AllFiled, Places;
  }

  lemma SegAgrees(l: seq<Event>, t: View, i: nat)
    requires Log(l) && Good(l, t) && i < |t.segs|
    ensures Agrees(t.segs[i], Hi(t, i))
  {
    hide Log, Good, Agrees, Hi, Numbers;
    GoodAgrees(l, t, i);
  }

  lemma UnloadHolds(l: seq<Event>, t: View, lo: int, hi: int, canDetach: bool)
    requires Log(l) && Good(l, t)
    ensures Good(l, Keep(t, lo, hi, canDetach))
  {
    hide Good, Log;
    if |t.segs| >= 2 {
      var top := DropTop(t.segs, lo, 0);
      var b := DropBottom(t.segs, hi, top, |t.segs|);
      var bottom := if b < |t.segs| && !canDetach && !t.detached then |t.segs| else b;
      if top > 0 || bottom < |t.segs| { WindowHolds(l, t, top, bottom); }
    }
  }

  // ---- splitting ----

  /** Nothing of the live tail is missing. */
  predicate TailWhole(t: View) {
    t.segs != [] ==> forall n :: t.segs[|t.segs| - 1].first <= n <= t.lastSeq ==> n in t.seen
  }

  /** Such a tail goes on as a piece of the whole log's fold. */
  lemma WholeTailOK(l: seq<Event>, t: View)
    requires Log(l) && Good(l, t) && !t.detached && TailWhole(t)
    ensures var s := t.segs[|t.segs| - 1];
      && t.segs != [] && 1 <= s.first <= t.lastSeq + 1 && s.events == l[s.first - 1..t.lastSeq]
      && TailOK(l, t.lastSeq, s) && SegOK(l, s, t.lastSeq + 1)
  {
    hide Log, AllFiled, Places, CleanCut, SeedFits, TailOK, SegOK, Agrees, Shape, Cursors, Stepping, Loose, Numbers,
      FoldFrom, Good, TailWhole, Gap, Resumed;
    GoodShape(l, t);
    var n := |t.segs| - 1;
    var s := t.segs[n];
    WholeTailEvents(l, t);
    PlaceAt(l, t, n);
    TailStarts(t);
    GoodTail(l, t);
    if Stepping(l, s, t.lastSeq) {
      SteppingTail(l, s, t.lastSeq);
      SteppingOK(l, s, t.lastSeq);
    } else if Folded(s) {
      FreshTail(l, t.lastSeq, s);
    } else {
      ApartTail(l, s, t.lastSeq);
    }
  }

  /** So does one split off with events missing, once they have come: nothing older is in its fold's reach. */
  lemma ApartTail(l: seq<Event>, s: Seg, n: nat)
    requires Log(l) && CleanCut(l, s.first) && SeedFits(l, s.first, s.seed) && 1 <= s.first <= n + 1 && n <= |l|
    requires s.events == l[s.first - 1..n] && Loose(l, s, n) && Resumed(l, s, n) && !Gap(s, n)
    ensures TailOK(l, n, s) && SegOK(l, s, n + 1)
  {
    hide CleanCut, SeedFits, TurnsRise, Sim, Young, Whole, FoldFrom, Gap, Free, Shows;
    LogNumbered(l);
    SliceAbove(l, s.first, n);
    FreshHolds(l, s.first, n, s.seed);
    FreshIsYoung(s.first, s.seed, s.events);
    PieceToo(s.first, |Whole(l, s.first - 1).blocks|, Whole(l, n), s.fold, OwnFold(s));
    SimShows(l, s.first, n + 1, s.fold);
  }

  lemma SteppingTail(l: seq<Event>, s: Seg, n: nat)
    requires Stepping(l, s, n)
    ensures TailOK(l, n, s)
  {
    hide TailOK;
  }

  lemma WholeTailHeld(l: seq<Event>, t: View)
    requires AllFiled(l, t) && !t.detached && TailWhole(t)
    ensures t.segs != [] && var s := t.segs[|t.segs| - 1];
      s.first <= t.lastSeq + 1 && Ascending(s.events) && AllOfLog(l, s.events)
        && Exactly(Numbers(s.events), s.first, t.lastSeq + 1)
  {
    NotEmptyShape(l, t);
    AllFiledShape(l, t);
    var n := |t.segs| - 1;
    FiledAt(l, t, n);
    TailStarts(t);
    HiOwns(t, n);
    AttachedHi(l, t);
    hide AllFiled, Numbers, Shape, Cursors, Owns, Hi, Ascending, AllOfLog;
  }

  lemma WholeTailEvents(l: seq<Event>, t: View)
    requires Log(l) && AllFiled(l, t) && Places(l, t) && !t.detached && TailWhole(t) && t.lastSeq <= |l|
    ensures t.segs != []
    ensures var s := t.segs[|t.segs| - 1]; 1 <= s.first <= t.lastSeq + 1 && s.events == l[s.first - 1..t.lastSeq]
    ensures !Gap(t.segs[|t.segs| - 1], t.lastSeq)
  {
    hide AllFiled, Places, Log, Numbers, CleanCut, SeedFits, TailWhole, Ascending, AllOfLog;
    WholeTailHeld(l, t);
    var s := t.segs[|t.segs| - 1];
    PlaceAt(l, t, |t.segs| - 1);
    AllEvents(l, s.events, s.first, t.lastSeq + 1);
  }

  lemma SplitShapes(t: View, a: Seg, b: Seg)
    requires Shape(t) && Cursors(t) && !t.detached && a.first == t.segs[|t.segs| - 1].first < b.first <= t.lastSeq
    ensures var t', n := SplitAt(t, a, b), |t.segs| - 1;
      && Shape(t') && Cursors(t') && |t'.segs| == n + 2 && t'.segs[n] == a && t'.segs[n + 1] == b
      && (forall i :: 0 <= i < n ==> t'.segs[i] == t.segs[i] && Hi(t', i) == Hi(t, i)) && Hi(t', n) == b.first
  {
    var t', n := SplitAt(t, a, b), |t.segs| - 1;
    assert forall i :: 0 <= i < n ==> t'.segs[i] == t.segs[i];
    assert t'.segs[n] == a && t'.segs[n + 1] == b && |t'.segs| == n + 2;
  }

  lemma SplitOwns(t: View, a: Seg, b: Seg, i: nat, x: nat)
    requires Shape(t) && !t.detached && a.first == t.segs[|t.segs| - 1].first && i <= |t.segs|
    ensures |SplitAt(t, a, b).segs| == |t.segs| + 1
    ensures Owns(SplitAt(t, a, b), i, x) <==>
      if i < |t.segs| - 1 then Owns(t, i, x) else if i < |t.segs| then a.first <= x < b.first else b.first <= x
  {
    var t', n := SplitAt(t, a, b), |t.segs| - 1;
    assert forall j :: 0 <= j < n ==> t'.segs[j] == t.segs[j];
    assert t'.segs[n] == a && t'.segs[n + 1] == b && |t'.segs| == n + 2;
  }

  /** A segment that holds, in order, the events seen of a range. */
  ghost predicate PartOf(l: seq<Event>, t: View, s: Seg, hi: nat) {
    && Ascending(s.events) && AllOfLog(l, s.events)
    && forall x :: x in Numbers(s.events) <==> x in t.seen && s.first <= x < hi
  }

  lemma SplitFiledAt(l: seq<Event>, t: View, a: Seg, b: Seg, i: nat)
    requires AllFiled(l, t) && !t.detached && t.segs != [] && i <= |t.segs|
    requires a.first == t.segs[|t.segs| - 1].first < b.first <= t.lastSeq
    requires PartOf(l, t, a, b.first) && PartOf(l, t, b, t.lastSeq + 1)
    ensures i < |SplitAt(t, a, b).segs| && Filed(l, SplitAt(t, a, b), i)
  {
    hide SplitAt, Shape, Cursors, Owns, Numbers, Ascending, AllOfLog, Filed, AllFiled, Hi;
    AllFiledShape(l, t);
    SplitShapes(t, a, b);
    SeenUpTo(t);
    SameSeen(t, a, b);
    var t', n := SplitAt(t, a, b), |t.segs| - 1;
    forall x: nat ensures Owns(t', i, x) <==>
      if i < n then Owns(t, i, x) else if i == n then a.first <= x < b.first else b.first <= x
    {
      SplitOwns(t, a, b, i, x);
    }
    if i < n { FiledAt(l, t, i); }
    MakeFiled(l, t', i);
  }

  lemma SplitFiled(l: seq<Event>, t: View, a: Seg, b: Seg)
    requires AllFiled(l, t) && !t.detached && t.segs != []
    requires a.first == t.segs[|t.segs| - 1].first < b.first <= t.lastSeq
    requires PartOf(l, t, a, b.first) && PartOf(l, t, b, t.lastSeq + 1)
    ensures AllFiled(l, SplitAt(t, a, b))
  {
    AllFiledShape(l, t);
    SplitShapes(t, a, b);
    var t' := SplitAt(t, a, b);
    hide SplitAt, Shape, Cursors, Filed, Hi, PartOf;
    forall i | 0 <= i < |t'.segs| ensures Filed(l, t', i) { SplitFiledAt(l, t, a, b, i); }
  }

  lemma SliceIsPart(l: seq<Event>, t: View, s: Seg, hi: nat)
    requires Log(l) && 1 <= s.first <= hi <= |l| + 1 && s.events == l[s.first - 1..hi - 1]
    requires forall x :: s.first <= x < hi ==> x in t.seen
    ensures PartOf(l, t, s, hi)
  {
    LogNumbered(l);
    SliceOfLog(l, s.first, hi);
    NumbersOfSlice(l, s.first, hi);
    hide Numbers, Ascending, AllOfLog, Log;
  }

  lemma SameSeen(t: View, a: Seg, b: Seg)
    requires t.segs != []
    ensures SplitAt(t, a, b).seen == t.seen && SplitAt(t, a, b).lastSeq == t.lastSeq
      && SplitAt(t, a, b).detached == t.detached
  {
  }

  lemma SeenUpTo(t: View)
    requires Cursors(t)
    ensures forall n :: n in t.seen ==> n <= t.lastSeq
  {
  }

  lemma SplitPlaces(l: seq<Event>, t: View, a: Seg, b: Seg)
    requires Places(l, t) && Placed(l, b.first, b.seed) && a.first == t.segs[|t.segs| - 1].first
      && a.seed == t.segs[|t.segs| - 1].seed
    ensures Places(l, SplitAt(t, a, b))
  {
    hide Placed, CutsOK;
    var t', n := SplitAt(t, a, b), |t.segs| - 1;
    forall i | 0 <= i < |t'.segs| ensures Placed(l, t'.segs[i].first, t'.segs[i].seed) {
      assert t'.segs[i] == if i < n then t.segs[i] else if i == n then a else b;
    }
  }

  lemma SplitGood(l: seq<Event>, t: View, a: Seg, b: Seg)
    requires Log(l) && Good(l, t) && !t.detached && t.segs != []
    requires a.first == t.segs[|t.segs| - 1].first < b.first <= t.lastSeq && a.seed == t.segs[|t.segs| - 1].seed
    requires PartOf(l, t, a, b.first) && PartOf(l, t, b, t.lastSeq + 1)
    requires Agrees(a, b.first) && Placed(l, b.first, b.seed) && LiveTail(l, b, t.lastSeq, false)
    ensures Good(l, SplitAt(t, a, b))
  {
    hide Log, Good, AllFiled, Places, Placed, Agrees, Shape, Cursors, SplitAt, LiveTail, Hi, PartOf;
    GoodShape(l, t);
    SplitFiled(l, t, a, b);
    SplitPlaces(l, t, a, b);
    SameSeen(t, a, b);
    SplitAgrees(l, t, a, b);
    MakeHolding(l, SplitAt(t, a, b), {});
    GoodIs(l, SplitAt(t, a, b));
  }

  lemma SteppingEvents(l: seq<Event>, s: Seg, n: nat)
    requires Stepping(l, s, n)
    ensures 1 <= s.first <= n + 1 && n <= |l| && s.events == l[s.first - 1..n]
  {
  }

  lemma SplitAgrees(l: seq<Event>, t: View, a: Seg, b: Seg)
    requires Good(l, t) && !t.detached && t.segs != [] && a.first == t.segs[|t.segs| - 1].first < b.first <= t.lastSeq
    requires Agrees(a, b.first)
    ensures var t' := SplitAt(t, a, b);
      && |t'.segs| == |t.segs| + 1 && t'.segs[|t.segs|] == b
      && forall i :: 0 <= i < |t'.segs| - 1 ==> Agrees(t'.segs[i], Hi(t', i))
  {
    hide AllFiled, Places, Agrees, LiveTail, Shape, Cursors, SplitAt, Hi;
    GoodShape(l, t);
    SplitShapes(t, a, b);
    var t', n := SplitAt(t, a, b), |t.segs| - 1;
    forall i | 0 <= i < |t'.segs| - 1 ensures Agrees(t'.segs[i], Hi(t', i)) {
      if i < n { assert Agrees(t.segs[i], Hi(t, i)); }
    }
  }

  lemma NewPartYoung(f: Fold, cut: nat)
    ensures YoungIndex(cut, NewPart(f, cut))
  {
  }

  /** Splitting a tail of which nothing is missing: both parts show what they did. */
  lemma SplitHolds(l: seq<Event>, t: View, p: Page, limit: nat)
    requires Log(l) && Good(l, t) && TailPage(l, p) && (SplitTail(t, p, limit) != t ==> TailWhole(t))
    ensures Good(l, SplitTail(t, p, limit))
  {
    hide Log, Good, TailPage, AllFiled, Places, TailOK, CleanCut, SeedFits, SegOK, SplitTail, Stepping, YoungIndex,
      TailWhole, Shape, Cursors;
    GoodShape(l, t);
    if SplitTail(t, p, limit) != t {
      SplitIsAttached(t, p, limit);
      WholeTailOK(l, t);
      LogNumbered(l);
      SplitTailIs(l, t, p, limit);
      NoCutInEmptyPage(l, p);
      PageCut(l, p);
      PartsGood(l, t, t.segs[|t.segs| - 1], p.nextBefore, p.seed);
    }
  }

  lemma PartsGood(l: seq<Event>, t: View, s: Seg, cut: nat, seed: nat)
    requires Log(l) && Good(l, t) && !t.detached && TailWhole(t) && t.segs != [] && s == t.segs[|t.segs| - 1]
    requires t.lastSeq <= |l| && SegOK(l, s, t.lastSeq + 1) && TailOK(l, t.lastSeq, s)
      && 1 <= s.first < cut <= t.lastSeq
    requires CleanCut(l, cut) && SeedFits(l, cut, seed)
    ensures Good(l, SplitAt(t, Seg(s.first, l[s.first - 1..cut - 1], OldPart(s.fold, cut), s.seed),
                            Seg(cut, l[cut - 1..t.lastSeq], NewPart(s.fold, cut), seed)))
  {
    hide Log, Good, TailOK, CleanCut, SeedFits, SegOK, YoungIndex, TailWhole, OldPart, NewPart, SplitAt, Agrees, PartOf,
      Loose, Resumed, Folded;
    SegIsCut(l, s, t.lastSeq + 1);
    var a := Seg(s.first, l[s.first - 1..cut - 1], OldPart(s.fold, cut), s.seed);
    var b := Seg(cut, l[cut - 1..t.lastSeq], NewPart(s.fold, cut), seed);
    OldPartOK(l, t.lastSeq, s, cut);
    NewPartOK(l, t.lastSeq, s, cut, seed);
    NewPartYoung(s.fold, cut);
    WholeSeen(t);
    SliceIsPart(l, t, a, cut);
    SliceIsPart(l, t, b, t.lastSeq + 1);
    SlicesAgree(l, a, cut);
    SplitGood(l, t, a, b);
  }

  lemma WholeSeen(t: View)
    requires t.segs != [] && TailWhole(t)
    ensures forall n :: t.segs[|t.segs| - 1].first <= n <= t.lastSeq ==> n in t.seen
  {
  }
}
