/** Any run of a transcript: pages and live events in any order. What holds of it, and where it stops holding. */
module AnyOrderRuns {
  import opened Options
  import opened FoldSpec
  import opened FoldSim
  import opened FoldSplit
  import opened FoldSeed
  import opened FoldYoung
  import opened PagesSpec
  import opened Pages
  import opened PagesRun
  import opened PagesTheorems
  import opened Delivery
  import opened AnyOrder
  import opened SplitExactly

  // ---- runs ----

  /** The server answers from the log; the tail is split while nothing of it is missing, or where no event of the newer
      part that has come, nor what its fold goes on with, is of an older block; live events are the log's, in any order,
      but none is skipped while the tail holds on to an older block. */
  predicate May(l: seq<Event>, t: View, op: Op) {
    match op
    case OpenAt(p) => TailPage(l, p)
    case Older(p) => t.segs != [] && t.hasOlder ==> OlderPage(l, t.segs[0].first, p)
    case Newer(p) => t.below != [] && t.segs != [] ==> NewerPage(l, t, p)
    case Split(p, limit) => TailPage(l, p) && (SplitTail(t, p, limit) != t ==> TailWhole(t) || CleanSplit(t, p))
    case Live(events) => AllOfLog(l, events) && Steady(t, events)
    case Unload(_, _, _) => true
  }

  lemma DoHolds(l: seq<Event>, t: View, op: Op)
    requires Log(l) && (op.OpenAt? || Good(l, t)) && May(l, t, op)
    ensures Good(l, Do(t, op))
  {
    hide Good, Log, TailPage, OlderPage, NewerPage, Steady, AllOfLog, TailWhole, CleanSplit, OpenTail, LoadOlder,
      LoadNewer, SplitTail, Apply, Keep;
    if !op.OpenAt? { GoodShape(l, t); }
    match op {
      case OpenAt(p) => OpenHolds(l, p);
      case Older(p) => OlderHolds(l, t, p);
      case Newer(p) => NewerHolds(l, t, p);
      case Split(p, limit) => SafeSplitHolds(l, t, p, limit);
      case Live(events) => ApplyHolds(l, t, events);
      case Unload(lo, hi, canDetach) => UnloadHolds(l, t, lo, hi, canDetach);
    }
  }

  lemma SafeSplitHolds(l: seq<Event>, t: View, p: Page, limit: nat)
    requires Log(l) && Good(l, t) && TailPage(l, p)
    requires SplitTail(t, p, limit) != t ==> TailWhole(t) || CleanSplit(t, p)
    ensures Good(l, SplitTail(t, p, limit))
  {
    hide Good, Log, TailPage, TailWhole, CleanSplit, SplitTail;
    if SplitTail(t, p, limit) == t || TailWhole(t) {
      SplitHolds(l, t, p, limit);
    } else {
      CleanSplitHolds(l, t, p, limit);
    }
  }

  predicate AnyRun(l: seq<Event>, ops: seq<Op>) {
    && ops != [] && ops[0].OpenAt?
    && forall i :: 0 <= i < |ops| ==> May(l, After(ops[..i]), ops[i])
  }

  lemma {:induction false} RunHolds(l: seq<Event>, ops: seq<Op>)
    requires Log(l) && AnyRun(l, ops)
    ensures Good(l, After(ops))
  {
    hide Good, Log, May, Do;
    var n := |ops| - 1;
    if n > 0 {
      assert forall i :: 0 <= i < n ==> ops[..n][..i] == ops[..i];
      RunHolds(l, ops[..n]);
    }
    DoHolds(l, After(ops[..n]), ops[n]);
  }

  /** After any such run each loaded segment holds, in order, the events seen of its range, and shows exactly what one
      fold of them shows: the same blocks, keys, order, contents, nesting and versions. */
  lemma AnyRunShowsItsEvents(l: seq<Event>, ops: seq<Op>, i: nat)
    requires Log(l) && AnyRun(l, ops) && i < |After(ops).segs|
    ensures var t := After(ops);
      && Agrees(t.segs[i], Hi(t, i)) && Ascending(t.segs[i].events) && AllOfLog(l, t.segs[i].events)
      && forall n :: n in Numbers(t.segs[i].events) <==> n in t.seen && t.segs[i].first <= n < Hi(t, i)
  {
    hide Good, Log, AnyRun, Agrees, Ascending, AllOfLog;
    RunHolds(l, ops);
    GoodAgrees(l, After(ops), i);
  }

  // ---- once nothing is missing ----

  lemma AgreesShows(l: seq<Event>, s: Seg, hi: nat)
    requires Log(l) && Agrees(s, hi) && CleanCut(l, s.first) && SeedFits(l, s.first, s.seed)
    requires 1 <= s.first <= hi <= |l| + 1
    requires s.events == l[s.first - 1..hi - 1]
    ensures SegOK(l, s, hi)
  {
    FetchedShows(l, s.first, hi, s.seed);
    hide CleanCut, SeedFits, FoldFrom, Log;
    var own := OwnFold(s);
    assert Shows(l, s.first, hi, own);
    assert s.fold.blocks == own.blocks;
  }

  lemma WholeSeg(l: seq<Event>, t: View, i: nat)
    requires Log(l) && Good(l, t) && t.segs != [] && NoGap(t) && i < |t.segs|
    ensures SegOK(l, t.segs[i], Hi(t, i))
  {
    hide Log, CleanCut, SeedFits, Agrees, Shape, Cursors, AllFiled, Places, Numbers, Ascending, AllOfLog, NoGap,
      Holding;
    GoodShape(l, t);
    PlaceAt(l, t, i);
    HisInLog(t, i);
    LoadedInRange(t, i);
    hide Good, Hi;
    GoodAgrees(l, t, i);
    AllEvents(l, t.segs[i].events, t.segs[i].first, Hi(t, i));
    AgreesShows(l, t.segs[i], Hi(t, i));
  }

  lemma HisInLog(t: View, i: nat)
    requires Shape(t) && Cursors(t) && i < |t.segs|
    ensures t.segs[i].first <= Hi(t, i) <= t.lastSeq + 1
  {
    FirstsInLog(t);
  }

  lemma LoadedInRange(t: View, i: nat)
    requires Shape(t) && Cursors(t) && NoGap(t) && i < |t.segs|
    ensures forall n :: t.segs[i].first <= n < Hi(t, i) ==> n in t.seen
  {
    HisInLog(t, |t.segs| - 1);
    HiMonotone(t, i, |t.segs| - 1);
    assert t.segs[0].first <= t.segs[i].first;
  }

  lemma SeenIsOK(t: View)
    requires Shape(t) && Cursors(t) && NoGap(t)
    ensures SeenOK(t) && (!t.detached ==> TailWhole(t))
  {
    FirstsInLog(t);
    assert t.segs[0].first <= t.segs[|t.segs| - 1].first;
  }

  /** With no loaded number missing the view is in step. */
  lemma GoodIsInStep(l: seq<Event>, t: View)
    requires Log(l) && Good(l, t) && t.segs != [] && NoGap(t)
    ensures Inv(l, t)
  {
    GoodShape(l, t);
    SeenIsOK(t);
    PlacesHave(l, t);
    if !t.detached { WholeTailOK(l, t); }
    hide Log, Good, NoGap, SegOK, TailOK, CutsOK, SeenOK, Shape, Cursors, AllFiled, Places, TailWhole;
    forall i | 0 <= i < |t.segs| ensures SegOK(l, t.segs[i], Hi(t, i)) { WholeSeg(l, t, i); }
  }

  /** After any such run, once no loaded number is missing, the blocks shown are the slice of the whole log's fold that
      the loaded range opened. */
  lemma AnyRunShowsSlice(l: seq<Event>, ops: seq<Op>)
    requires Log(l) && AnyRun(l, ops) && After(ops).segs != [] && NoGap(After(ops))
    ensures ShowsSlice(l, After(ops)) && Inv(l, After(ops))
  {
    hide Log, AnyRun, After, Good, ShowsSlice, Inv, NoGap;
    RunHolds(l, ops);
    GoodIsInStep(l, After(ops));
    BlocksAreSlice(l, After(ops));
  }

  // ---- runs in step are such runs ----

  lemma {:induction false} InStepIsSteady(l: seq<Event>, t: View, events: seq<Event>)
    requires Log(l) && Inv(l, t) && InStep(l, t.lastSeq, events)
    ensures AllOfLog(l, events) && Steady(t, events)
  {
    hide Inv, Log, Holds, DeliverAll;
    forall i | 0 <= i < |events| ensures MayTake(DeliverAll(t, events[..i]).0, events[i]) {
      PrefixInStep(l, t.lastSeq, events, i);
      DeliverAllKeeps(l, t, events[..i]);
    }
  }

  lemma PrefixInStep(l: seq<Event>, n: nat, events: seq<Event>, i: nat)
    requires InStep(l, n, events) && i < |events|
    ensures InStep(l, n, events[..i]) && events[i].sn <= Cursor(n, events[..i]) + 1
  {
    hide Cursor;
    forall j | 0 <= j < i ensures events[..i][..j] == events[..j] && events[..i][j] == events[j] { }
  }

  lemma InStepTailWhole(l: seq<Event>, t: View)
    requires Inv(l, t) && !t.detached
    ensures TailWhole(t)
  {
    hide SegsOK, TailOK, CutsOK;
    assert t.segs[0].first <= t.segs[|t.segs| - 1].first;
  }

  lemma AnswersMay(l: seq<Event>, t: View, op: Op)
    requires Log(l) && (op.OpenAt? || Inv(l, t)) && Answers(l, t, op)
    ensures May(l, t, op)
  {
    hide Inv, Log, TailPage, OlderPage, NewerPage, InStep, Steady, AllOfLog, TailWhole, CleanSplit, SplitTail;
    match op {
      case Split(p, limit) =>
        if SplitTail(t, p, limit) != t { SplitIsAttached(t, p, limit); InStepTailWhole(l, t); }
      case Live(events) => InStepIsSteady(l, t, events);
      case _ =>
    }
  }

  /** A run in which live events come in step is one of these. */
  lemma StepRunIsAnyRun(l: seq<Event>, ops: seq<Op>)
    requires Log(l) && Run(l, ops)
    ensures AnyRun(l, ops)
  {
    forall i | 0 <= i < |ops| ensures May(l, After(ops[..i]), ops[i]) {
      assert forall j :: 0 <= j < i ==> ops[..i][..j] == ops[..j];
      hide Log, Answers, May, Do, Inv;
      if i > 0 { RunKeeps(l, ops[..i]); }
      AnswersMay(l, After(ops[..i]), ops[i]);
    }
  }

  // ---- orders ----

  predicate SteadyEach(t: View, batches: seq<seq<Event>>) {
    forall i :: 0 <= i < |batches| ==> Steady(ApplyEach(t, batches[..i]), batches[i])
  }

  lemma {:induction false} BatchesHold(l: seq<Event>, t: View, batches: seq<seq<Event>>)
    requires Log(l) && Good(l, t) && SteadyEach(t, batches)
    requires forall i :: 0 <= i < |batches| ==> AllOfLog(l, batches[i])
    ensures Good(l, ApplyEach(t, batches)) && TookAll(t, ApplyEach(t, batches), NumbersIn(batches))
  {
    hide Good, Log, TookAll, Apply, Steady, AllOfLog;
    if batches != [] {
      var n := |batches| - 1;
      assert forall i :: 0 <= i < n ==> batches[..n][..i] == batches[..i];
      BatchesHold(l, t, batches[..n]);
      var t1 := ApplyEach(t, batches[..n]);
      ApplyHolds(l, t1, batches[n]);
      TookBoth(t, t1, Apply(t1, batches[n]), NumbersIn(batches[..n]), Numbers(batches[n]));
    } else {
      TookNone(t);
    }
  }

  /** The same events, blocks, order, contents, nesting and versions. */
  ghost predicate ShowAlike(a: Seg, b: Seg, hi: nat) {
    && a.first == b.first && a.events == b.events && a.fold.blocks == b.fold.blocks
    && forall k :: a.first <= k < hi ==>
         (k in a.fold.heap <==> k in b.fold.heap) && (k in a.fold.heap ==> a.fold.heap[k] == b.fold.heap[k])
  }

  /** Two deliveries of the same events, in whatever orders, repetitions and batches, show the same. */
  lemma OrderIsUnseen(l: seq<Event>, t: View, a: seq<seq<Event>>, b: seq<seq<Event>>, i: nat)
    requires Log(l) && Good(l, t) && NumbersIn(a) == NumbersIn(b) && SteadyEach(t, a) && SteadyEach(t, b)
    requires (forall i :: 0 <= i < |a| ==> AllOfLog(l, a[i])) && (forall i :: 0 <= i < |b| ==> AllOfLog(l, b[i]))
    requires i < |t.segs|
    ensures var ta, tb := ApplyEach(t, a), ApplyEach(t, b);
      |ta.segs| == |tb.segs| == |t.segs| && Hi(ta, i) == Hi(tb, i) && ShowAlike(ta.segs[i], tb.segs[i], Hi(ta, i))
  {
    hide Good, Log, TookAll, ApplyEach, NumbersIn, SteadyEach, AllOfLog, ShowAlike, Hi;
    BatchesHold(l, t, a);
    BatchesHold(l, t, b);
    SameShown(l, t, ApplyEach(t, a), ApplyEach(t, b), NumbersIn(a), i);
  }

  lemma TookHi(t: View, ta: View, tb: View, numbers: set<nat>, i: nat)
    requires TookAll(t, ta, numbers) && TookAll(t, tb, numbers) && i < |t.segs|
    ensures |ta.segs| == |tb.segs| == |t.segs| && Hi(ta, i) == Hi(tb, i)
    ensures ta.segs[i].first == tb.segs[i].first == t.segs[i].first && ta.segs[i].seed == tb.segs[i].seed
  {
    hide Held, Share;
  }

  lemma SameEventsAgree(a: Seg, b: Seg, hi: nat)
    requires Agrees(a, hi) && Agrees(b, hi) && a.events == b.events && a.seed == b.seed && a.first == b.first
    ensures ShowAlike(a, b, hi)
  {
    hide FoldFrom;
  }

  lemma SameShown(l: seq<Event>, t: View, ta: View, tb: View, numbers: set<nat>, i: nat)
    requires Log(l) && Good(l, ta) && Good(l, tb) && TookAll(t, ta, numbers) && TookAll(t, tb, numbers) && i < |t.segs|
    ensures |ta.segs| == |tb.segs| == |t.segs| && Hi(ta, i) == Hi(tb, i) && ShowAlike(ta.segs[i], tb.segs[i], Hi(ta, i))
  {
    hide Good, Log, TookAll, Numbers, FoldFrom, Hi, Ascending, AllOfLog, Agrees, ShowAlike;
    TookHi(t, ta, tb, numbers, i);
    SameNumbers(t, ta, tb, numbers, i);
    GoodAgrees(l, ta, i);
    GoodAgrees(l, tb, i);
    AscendingUnique(l, ta.segs[i].events, tb.segs[i].events);
    SameEventsAgree(ta.segs[i], tb.segs[i], Hi(ta, i));
  }

  // ---- a guard that is checked once ----

  /** The live tail holds on to nothing older. */
  predicate TailFree(t: View) {
    !t.detached && t.segs != [] ==> !Holds(t.segs[|t.segs| - 1].first, t.segs[|t.segs| - 1].fold)
  }

  lemma LiveIsYoung(l: seq<Event>, s: Seg, n: nat, late: bool)
    requires LiveTail(l, s, n, late)
    ensures YoungIndex(s.first, s.fold)
  {
    hide TailOK, Sim, Holds, Resumed;
  }

  lemma PushedFree(l: seq<Event>, s: Seg, n: nat, e: Event, late: bool)
    requires Log(l) && LiveTail(l, s, n, late) && 1 <= s.first <= n + 1 && CleanCut(l, s.first)
      && SeedFits(l, s.first, s.seed)
    requires OfLog(l, e) && e.sn > n && !Holds(s.first, s.fold)
    ensures !Holds(s.first, Push(s.fold, e))
  {
    hide Log, LiveTail, CleanCut, SeedFits, Push, Holds, YoungIndex, SameOld;
    OlderStay(l, s, n, e, late);
    LiveIsYoung(l, s, n, late);
    PushPointers(s.first, s.fold, e);
    StillFree(s.first, s.fold, Push(s.fold, e), e);
  }

  lemma DeliverFree(l: seq<Event>, t: View, e: Event, late: set<nat>)
    requires Log(l) && Holding(l, t, late) && OfLog(l, e) && TailFree(t)
    ensures MayTake(t, e) && TailFree(Deliver(t, e).0)
  {
    ShapeOf(l, t, late);
    DeliverSegs(t, e);
    if !t.detached {
      var n := |t.segs| - 1;
      DeliverTail(t, e);
      PlaceAt(l, t, n);
      TailStarts(t);
      if e.sn !in t.seen && e.sn > t.lastSeq {
        hide Log, AllFiled, Places, Agrees, LiveTail, Deliver, CleanCut, SeedFits, Holds, Shape;
        PushedFree(l, t.segs[n], t.lastSeq, e, n in late);
      } else if Deliver(t, e).1 == Some(n) {
        DeliverLate(t, e, n);
      }
    }
  }

  lemma {:induction false} AllFree(l: seq<Event>, t: View, events: seq<Event>)
    requires Log(l) && Good(l, t) && AllOfLog(l, events) && TailFree(t)
    ensures var (t', late) := DeliverAll(t, events); Holding(l, t', late) && TailFree(t')
    ensures Steady(t, events)
  {
    hide Log, Holding, TailFree, Deliver, OfLog, MayTake;
    if events != [] {
      var n := |events| - 1;
      var front, e := events[..n], events[n];
      AllFree(l, t, front);
      var (t1, late) := DeliverAll(t, front);
      DeliverFree(l, t1, e, late);
      DeliverHolds(l, t1, e, late);
      SteadyMore(t, events);
    }
  }

  lemma SteadyMore(t: View, events: seq<Event>)
    requires events != [] && Steady(t, events[..|events| - 1])
      && MayTake(DeliverAll(t, events[..|events| - 1]).0, events[|events| - 1])
    ensures Steady(t, events)
  {
    hide MayTake, DeliverAll;
    var n := |events| - 1;
    forall i | 0 <= i < |events| ensures MayTake(DeliverAll(t, events[..i]).0, events[i]) {
      if i < n { assert events[..n][..i] == events[..i] && events[..n][i] == events[i]; }
    }
  }

  /** Such a tail takes any events, in any order, and stays such. */
  lemma FreeTakes(l: seq<Event>, t: View, events: seq<Event>)
    requires Log(l) && Good(l, t) && AllOfLog(l, events) && TailFree(t)
    ensures Steady(t, events) && Good(l, Apply(t, events)) && TailFree(Apply(t, events))
  {
    hide Log, Good, Steady, AllOfLog, Holds, DeliverAll, RefoldSegs, TailFree, Folded;
    AllFree(l, t, events);
    ApplyHolds(l, t, events);
    var (t1, late) := DeliverAll(t, events);
    var n := |t1.segs| - 1;
    if !t1.detached && t1.segs != [] && n in late {
      RefoldedIs(t1, late, n);
      FoldedIsFree(l, Apply(t, events));
    } else {
      KeptFree(t1, late);
    }
  }

  lemma RefoldedIs(t: View, late: set<nat>, i: nat)
    requires i < |t.segs| && i in late
    ensures Folded(RefoldSegs(t.segs, late)[i])
  {
  }

  lemma KeptFree(t: View, late: set<nat>)
    requires TailFree(t) && (t.detached || t.segs == [] || |t.segs| - 1 !in late)
    ensures TailFree(t.(segs := RefoldSegs(t.segs, late)))
  {
  }

  /** And so any batches of them: no event needs to be held back. */
  lemma {:induction false} FreeTakesAll(l: seq<Event>, t: View, batches: seq<seq<Event>>)
    requires Log(l) && Good(l, t) && TailFree(t) && forall i :: 0 <= i < |batches| ==> AllOfLog(l, batches[i])
    ensures SteadyEach(t, batches) && Good(l, ApplyEach(t, batches)) && TailFree(ApplyEach(t, batches))
  {
    hide Log, Good, Steady, AllOfLog, TailFree, Apply;
    if batches != [] {
      var n := |batches| - 1;
      FreeTakesAll(l, t, batches[..n]);
      assert forall i :: 0 <= i < n ==> batches[..n][..i] == batches[..i] && batches[..n][i] == batches[i];
      FreeTakes(l, ApplyEach(t, batches[..n]), batches[n]);
    }
  }

  /** A guard the split can check: if nothing of the tail is missing then, or no event that has come of the newer part
      refers to an older block, and neither the text its fold goes on with nor its plan is older than the cut, then
      whatever comes, in whatever order, each segment shows the fold of its events. */
  lemma GuardedSplit(l: seq<Event>, t: View, p: Page, limit: nat, batches: seq<seq<Event>>)
    requires Log(l) && Good(l, t) && TailPage(l, p) && (TailWhole(t) || CleanSplit(t, p))
    requires forall i :: 0 <= i < |batches| ==> AllOfLog(l, batches[i])
    requires var t1 := SplitTail(t, p, limit);
      t1 != t && var s := t1.segs[|t1.segs| - 1];
        YoungPointer(s.first, s.fold.cur) && YoungPointer(s.first, s.fold.plan)
    ensures Good(l, ApplyEach(SplitTail(t, p, limit), batches))
  {
    hide Log, Good, TailPage, TailWhole, CleanSplit, SplitTail, ApplyEach, AllOfLog;
    SafeSplitHolds(l, t, p, limit);
    FreeTakesAll(l, SplitTail(t, p, limit), batches);
  }

  /** A tail folded from its own events passes that guard. */
  lemma FoldedIsFree(l: seq<Event>, t: View)
    requires Log(l) && Good(l, t) && !t.detached && Folded(t.segs[|t.segs| - 1])
    ensures TailFree(t)
  {
    GoodShape(l, t);
    hide Log, Good, AllFiled, Places, Folded, Shape, Cursors;
    FoldedIsLoose(l, t);
  }

  // ---- exactly when a skip is seen ----

  /** For a tail of which nothing is missing: a later event may be skipped to, whatever it is, exactly when the tail
      holds on to no older block. If it does, some event of that block's kind is swallowed by it. */
  lemma SkipIsSeenExactly(l: seq<Event>, s: Seg, n: nat)
    requires Log(l) && Stepping(l, s, n) && CleanCut(l, s.first) && SeedFits(l, s.first, s.seed)
    ensures !Holds(s.first, s.fold) <==>
      forall e: Event :: e.sn > n + 1 && TurnRises(s.fold, e) && TurnRises(OwnFold(s), e) ==>
        Push(s.fold, e).blocks == Push(OwnFold(s), e).blocks
  {
    hide Log, Stepping, CleanCut, SeedFits, TurnsRise, Holds, Push, TurnRises, FoldFrom;
    if !Holds(s.first, s.fold) {
      FreeSkips(l, s, n);
    } else {
      var e := HeldIsSeen(l, s, n);
      NoTurn(s.fold, OwnFold(s), e);
    }
  }

  lemma FreeSkips(l: seq<Event>, s: Seg, n: nat)
    requires Log(l) && Stepping(l, s, n) && CleanCut(l, s.first) && SeedFits(l, s.first, s.seed)
      && !Holds(s.first, s.fold)
    ensures forall e: Event :: e.sn > n + 1 && TurnRises(s.fold, e) && TurnRises(OwnFold(s), e) ==>
      Push(s.fold, e).blocks == Push(OwnFold(s), e).blocks
  {
    hide Log, Stepping, CleanCut, SeedFits, TurnsRise, Sim, Holds, Push, TurnRises, FoldFrom;
    SteppingMeets(l, s, n);
    SteppingEvents(l, s, n);
    forall e: Event | e.sn > n + 1 && TurnRises(s.fold, e) && TurnRises(OwnFold(s), e)
      ensures Push(s.fold, e).blocks == Push(OwnFold(s), e).blocks
    {
      PushAlong(s.first, s.fold, OwnFold(s), e);
      SimBlocks(s.first, Push(s.fold, e), Push(OwnFold(s), e));
    }
  }

  lemma HeldIsSeen(l: seq<Event>, s: Seg, n: nat) returns (e: Event)
    requires Log(l) && Stepping(l, s, n) && CleanCut(l, s.first) && SeedFits(l, s.first, s.seed)
      && Holds(s.first, s.fold)
    ensures e.sn > n + 1 && !e.body.TurnEnd? && Push(s.fold, e).blocks != Push(OwnFold(s), e).blocks
  {
    hide Log, CleanCut, SeedFits, TurnsRise, Sim, YoungIndex, Whole, Young, Holds, Push, TurnRises, FoldFrom;
    LogNumbered(l);
    SliceAbove(l, s.first, n);
    FreshHolds(l, s.first, n, s.seed);
    FreshIsYoung(s.first, s.seed, s.events);
    PiecesAlike(s.first, |Whole(l, s.first - 1).blocks|, Whole(l, n), s.fold, OwnFold(s));
    NotOpened(s, n);
    e := HeldSwallows(s.first, s.fold, OwnFold(s), n + 2);
  }

  lemma SimBlocks(lo: Key, f: Fold, h: Fold)
    requires Sim(lo, 0, f, h)
    ensures f.blocks == h.blocks
  {
    assert f.blocks[0..] == f.blocks;
  }

  lemma NoTurn(f: Fold, h: Fold, e: Event)
    requires !e.body.TurnEnd?
    ensures TurnRises(f, e) && TurnRises(h, e)
  {
  }

  lemma NotOpened(s: Seg, n: nat)
    requires forall i :: 0 <= i < |s.events| ==> s.events[i].sn <= n
    ensures n + 2 !in OwnFold(s).heap
  {
    FoldKeys(Seeded(s.seed), s.events);
    forall e | e in s.events ensures e.sn <= n { var i :| 0 <= i < |s.events| && s.events[i] == e; }
  }
}
