/** Splitting a tail of which events may be missing: when exactly its older part shows what its own events do. */
module SplitExactly {
  import opened Options
  import opened FoldSpec
  import opened FoldSim
  import opened FoldSplit
  import opened FoldSeed
  import opened FoldYoung
  import opened FoldWrites
  import opened PagesSpec
  import opened Pages
  import opened PagesRun
  import opened PagesTheorems
  import opened Delivery
  import opened AnyOrder

  // ---- the list of blocks ----

  /** An event opens at most one block of the log, somewhere in the list. */
  ghost predicate OpensAt(a: seq<Key>, b: seq<Key>, k: Key) {
    b == a || exists at :: 0 <= at <= |a| && b == a[..at] + [k] + a[at..]
  }

  lemma AtEnd(a: seq<Key>, k: Key)
    ensures OpensAt(a, a + [k], k)
  {
    assert a[..|a|] + [k] + a[|a|..] == a + [k];
  }

  lemma OpenOpensAt(f: Fold, k: Key, c: Content, into: Option<Key>)
    ensures OpensAt(f.blocks, Open(f, k, c, into).blocks, k)
  {
    OpenedAtEnd(f, k, c, into);
    AtEnd(f.blocks, k);
  }

  lemma TextOpensAt(f: Fold, e: Event, parent: string)
    requires e.body.Message? || e.body.Thought?
    ensures OpensAt(f.blocks, PushText(f, e, parent).blocks, e.sn)
  {
    var into := Box(f, parent);
    var c := Cur(f, into);
    DoneSame(f, c, e.ts);
    hide Done, OpensAt;
    NextTextOpensAt(if e.body.Message? then Done(f, c, e.ts) else f, e, c, into);
  }

  lemma NextTextOpensAt(f: Fold, e: Event, c: Option<Key>, into: Option<Key>)
    requires e.body.Message? || e.body.Thought?
    ensures var b := if e.body.Thought? then ThoughtBlock(e.body.text, e.ts, e.ts, false)
                     else MsgBlock(e.body.role, e.body.mid, e.body.text, e.body.files, e.body.steered);
      var f' :=
        if Continues(At(f, c), e.body)
          then SetCur(Bumped(Change(f, c.value, Continued(f.heap[c.value].c, e)), c.value), into, c)
        else SetCur(Open(f, e.sn, b, into), into, Some(e.sn));
      OpensAt(f.blocks, f'.blocks, e.sn)
  {
    hide OpensAt, Open, Bump;
    SameOpensAt(f.blocks, e.sn);
    OpenOpensAt(f, e.sn, if e.body.Thought? then ThoughtBlock(e.body.text, e.ts, e.ts, false)
                         else MsgBlock(e.body.role, e.body.mid, e.body.text, e.body.files, e.body.steered), into);
  }

  lemma SameOpensAt(a: seq<Key>, k: Key)
    ensures OpensAt(a, a, k)
  {
  }

  lemma ToolOpensAt(f: Fold, e: Event)
    requires e.body.Tool?
    ensures OpensAt(f.blocks, PushTool(f, e).blocks, e.sn)
  {
    var d := e.body;
    var known, into := ToolAt(f, d.id), ToolBox(f, d.id, d.parent);
    DoneSame(f, Cur(f, into), 0);
    var f1 := SetCur(if into.Some? then Done(f, Cur(f, into), 0) else f, into, None);
    assert f1.blocks == f.blocks;
    hide Open, SetCur, Done, FoldTool, ToolBox, OpensAt;
    OpenOpensAt(f1, e.sn, NewTool(d.id, e.ts), into);
    var f2 := if known.Some? then f1
              else Open(f1, e.sn, NewTool(d.id, e.ts), into).(tools := f1.tools[(f1.turn, d.id) := e.sn]);
    SameOpensAt(f.blocks, e.sn);
    MergeSame(f2, if known.Some? then known.value else e.sn, d);
  }

  lemma PlanOpensAt(f: Fold, e: Event)
    requires e.body.Plan?
    ensures OpensAt(f.blocks, PushPlan(f, e).blocks, e.sn)
  {
    hide Open, OpensAt, Bump;
    SameOpensAt(f.blocks, e.sn);
    OpenOpensAt(f.(cur := None), e.sn, PlanBlock(""), None);
    PlanPointersBlocks(f, e);
  }

  lemma PlanPointersBlocks(f: Fold, e: Event)
    requires e.body.Plan?
    ensures PushPlan(f, e).blocks ==
      if f.plan.Some? then f.blocks else Open(f.(cur := None), e.sn, PlanBlock(""), None).blocks
  {
    hide Open, Bump;
  }

  lemma FilesOpensAt(f: Fold, e: Event)
    requires e.body.FilesChanged?
    ensures OpensAt(f.blocks, PushFiles(f, e).blocks, e.sn)
  {
    SameOpensAt(f.blocks, e.sn);
  }

  lemma RouteOpensAt(f: Fold, e: Event)
    ensures OpensAt(f.blocks, Route(f, e).blocks, e.sn)
  {
    hide PushText, PushTool, PushFiles, PushPlan, OpensAt;
    SameOpensAt(f.blocks, e.sn);
    AtEnd(f.blocks, e.sn);
    match e.body {
      case Message(_, _, _, parent, _, _) => TextOpensAt(f, e, parent);
      case Thought(_, parent) => TextOpensAt(f, e, parent);
      case Tool(_, _, _, _, _, _) => ToolOpensAt(f, e);
      case FilesChanged(_, _, _) => FilesOpensAt(f, e);
      case Plan(_) => PlanOpensAt(f, e);
      case _ =>
    }
  }

  lemma PushOpensAt(f: Fold, e: Event)
    ensures OpensAt(f.blocks, Push(f, e).blocks, e.sn)
  {
    var f0 := f.(lastSeq := if e.sn > f.lastSeq then e.sn else f.lastSeq);
    DoneSame(f0, f0.cur, e.ts);
    hide Route, Done, OpensAt;
    RouteOpensAt(if LeavesThought(e.body) then f0 else Done(f0, f0.cur, e.ts), e);
  }

  lemma {:induction false} KeysBelowConcat(a: seq<Key>, b: seq<Key>, cut: nat)
    ensures KeysBelow(a + b, cut) == KeysBelow(a, cut) + KeysBelow(b, cut)
  {
    if b == [] {
      assert a + b == a;
    } else {
      var n := |b| - 1;
      assert (a + b)[..|a + b| - 1] == a + b[..n];
      KeysBelowConcat(a, b[..n], cut);
    }
  }

  lemma OneYoung(a: seq<Key>, k: Key, cut: nat)
    requires k >= cut
    ensures KeysBelow(a + [k], cut) == KeysBelow(a, cut)
  {
    assert (a + [k])[..|a + [k]| - 1] == a;
  }

  lemma OpensYoung(a: seq<Key>, b: seq<Key>, k: Key, cut: nat)
    requires OpensAt(a, b, k) && k >= cut
    ensures KeysBelow(b, cut) == KeysBelow(a, cut)
  {
    if b != a {
      var at :| 0 <= at <= |a| && b == a[..at] + [k] + a[at..];
      OneYoung(a[..at], k, cut);
      hide KeysBelow;
      KeysBelowConcat(a[..at] + [k], a[at..], cut);
      KeysBelowConcat(a[..at], a[at..], cut);
      assert a[..at] + a[at..] == a;
    }
  }

  /** Later events leave the older blocks where they are in the list. */
  lemma {:induction false} OldBlocksStay(cut: nat, f: Fold, events: seq<Event>)
    requires (forall i :: 0 <= i < |f.blocks| ==> f.blocks[i] < cut)
    requires forall i :: 0 <= i < |events| ==> events[i].sn >= cut
    ensures KeysBelow(FoldFrom(f, events).blocks, cut) == f.blocks
  {
    if events == [] {
      KeysSplit(f.blocks, [], cut);
      assert f.blocks + [] == f.blocks;
    } else {
      var n := |events| - 1;
      OldBlocksStay(cut, f, events[..n]);
      FoldStep(f, events);
      PushOpensAt(FoldFrom(f, events[..n]), events[n]);
      OpensYoung(FoldFrom(f, events[..n]).blocks, FoldFrom(f, events).blocks, events[n].sn, cut);
    }
  }

  // ---- turns ----

  /** Some of the log's events, in order, raise the turn as the log does. */
  lemma SomeRise(l: seq<Event>, c: nat, seed: nat, events: seq<Event>)
    requires 1 <= c <= |l| + 1 && SeedFits(l, c, seed) && Ascending(events) && AllOfLog(l, events) && Ascends(events, c)
    ensures TurnsRise(Seeded(seed).turn, events)
  {
    hide SeedFits, Ascends, Ascending, AllOfLog, FoldFrom, TurnAfter, TurnRises;
    forall i | 0 <= i < |events|
      ensures TurnRises(FoldFrom(Seeded(seed), events[..i]), events[i])
      ensures FoldFrom(Seeded(seed), events[..i]).turn == TurnAfter(Seeded(seed).turn, events[..i])
    {
      OneRises(l, c, seed, events, i);
      FoldTurn(Seeded(seed), events[..i]);
    }
    EachRises(seed, events);
  }

  lemma OneRises(l: seq<Event>, c: nat, seed: nat, events: seq<Event>, i: nat)
    requires 1 <= c <= |l| + 1 && SeedFits(l, c, seed) && Ascending(events) && AllOfLog(l, events) && Ascends(events, c)
    requires i < |events|
    ensures TurnRises(FoldFrom(Seeded(seed), events[..i]), events[i])
  {
    hide SeedFits, Free, FoldFrom, TurnRises, Rising;
    FreshIsLoose(l, c, seed, events[..i], events[i].sn - 1);
    RisingAt(l, FoldFrom(Seeded(seed), events[..i]), events[i].sn - 1, events[i]);
  }

  lemma EachRises(seed: nat, events: seq<Event>)
    requires forall i :: 0 <= i < |events| ==>
      && TurnRises(FoldFrom(Seeded(seed), events[..i]), events[i])
      && FoldFrom(Seeded(seed), events[..i]).turn == TurnAfter(Seeded(seed).turn, events[..i])
    ensures TurnsRise(Seeded(seed).turn, events)
  {
    hide FoldFrom, TurnAfter;
  }

  // ---- the parts ----

  /** The tail's events below the cut, and those from it on. */
  function OlderOf(s: Seg, cut: nat): seq<Event> { s.events[..FirstFrom(s.events, cut)] }

  function NewerOf(s: Seg, cut: nat): seq<Event> { s.events[FirstFrom(s.events, cut)..] }

  lemma {:induction false} FirstFromSplits(events: seq<Event>, cut: nat)
    requires Ascending(events)
    ensures forall j :: FirstFrom(events, cut) <= j < |events| ==> events[j].sn >= cut
  {
  }

  lemma PartEvents(l: seq<Event>, s: Seg, cut: nat)
    requires Ascending(s.events) && AllOfLog(l, s.events) && Ascends(s.events, s.first)
    ensures s.events == OlderOf(s, cut) + NewerOf(s, cut) && Between(s.first, cut, OlderOf(s, cut))
      && Ascends(NewerOf(s, cut), cut)
    ensures Ascending(OlderOf(s, cut)) && AllOfLog(l, OlderOf(s, cut)) && Ascends(OlderOf(s, cut), s.first)
    ensures Ascending(NewerOf(s, cut)) && AllOfLog(l, NewerOf(s, cut))
  {
    hide FirstFrom, Ascending, AllOfLog;
    FirstFromSplits(s.events, cut);
    HalvesAscend(l, s.events, FirstFrom(s.events, cut), s.first, cut);
    HalfBelow(s, cut);
  }

  lemma HalfBelow(s: Seg, cut: nat)
    requires Ascends(s.events, s.first)
    ensures Between(s.first, cut, OlderOf(s, cut))
  {
  }

  lemma HalvesAscend(l: seq<Event>, events: seq<Event>, i: nat, lo: Key, cut: nat)
    requires Ascending(events) && AllOfLog(l, events) && Ascends(events, lo) && i <= |events|
    requires forall j :: i <= j < |events| ==> events[j].sn >= cut
    ensures events == events[..i] + events[i..]
    ensures Ascends(events[i..], cut) && Ascends(events[..i], lo)
    ensures Ascending(events[..i]) && AllOfLog(l, events[..i]) && Ascending(events[i..]) && AllOfLog(l, events[i..])
  {
    hide OfLog;
    var a, b := events[..i], events[i..];
    assert forall j :: 0 <= j < |a| ==> a[j] == events[j];
    assert forall j :: 0 <= j < |b| ==> b[j] == events[i + j];
  }

  function OlderFold(s: Seg, cut: nat): Fold { FoldFrom(Seeded(s.seed), OlderOf(s, cut)) }

  /** The older part's own fold, and the tail's as what comes after it. */
  lemma OlderFoldIs(l: seq<Event>, s: Seg, cut: nat)
    requires 1 <= s.first <= |l| + 1 && SeedFits(l, s.first, s.seed)
    requires Ascending(s.events) && AllOfLog(l, s.events) && Ascends(s.events, s.first)
    ensures var g := OlderFold(s, cut);
      && Below(cut, g) && Indexed(g) && TurnsRise(g.turn, NewerOf(s, cut)) && OwnFold(s) == FoldFrom(g, NewerOf(s, cut))
      && (forall k :: k in OwnFold(s).heap || k in g.heap ==> k >= s.first) && forall i :: 0 <= i < |g.blocks| ==>
           g.blocks[i] < cut
  {
    var a, b := OlderOf(s, cut), NewerOf(s, cut);
    PartEvents(l, s, cut);
    SomeRise(l, s.first, s.seed, s.events);
    hide SeedFits, TurnsRise, Below, Indexed, FoldFrom, TurnAfter;
    FoldConcat(Seeded(s.seed), a, b);
    SuffixRises(Seeded(s.seed).turn, a, b);
    FoldTurn(Seeded(s.seed), a);
    PrefixRises(Seeded(s.seed).turn, s.events, |a|);
    SeededBelow(cut, s.seed);
    FoldBelow(cut, Seeded(s.seed), a);
    FreshIsIndexed(s.seed, a);
    KeysFromFirst(s.seed, s.events, s.first);
    KeysFromFirst(s.seed, a, s.first);
    BlocksBelow(cut, OlderFold(s, cut));
  }

  lemma KeysFromFirst(seed: nat, events: seq<Event>, first: nat)
    requires Ascends(events, first)
    ensures forall k :: k in FoldFrom(Seeded(seed), events).heap ==> k >= first
  {
    FoldKeys(Seeded(seed), events);
    forall e | e in events ensures e.sn >= first { var i :| 0 <= i < |events| && events[i] == e; }
  }

  lemma BlocksBelow(cut: nat, f: Fold)
    requires Below(cut, f)
    ensures forall i :: 0 <= i < |f.blocks| ==> f.blocks[i] < cut
  {
  }

  lemma SeededBelow(cut: nat, seed: nat)
    ensures Below(cut, Seeded(seed))
  {
  }

  /** A tail that shows the fold of its events shows, below the cut, what the older part's events do, exactly when none
      of the newer part writes to an older block. */
  lemma OlderAgrees(l: seq<Event>, s: Seg, cut: nat, hi: nat)
    requires 1 <= s.first <= |l| + 1 && SeedFits(l, s.first, s.seed) && s.first <= cut <= hi
    requires Ascending(s.events) && AllOfLog(l, s.events) && Ascends(s.events, s.first) && Agrees(s, hi)
    ensures Agrees(Seg(s.first, OlderOf(s, cut), OldPart(s.fold, cut), s.seed), cut) <==>
      WritesNothing(cut, OlderFold(s, cut), NewerOf(s, cut))
  {
    hide SeedFits, TurnsRise, Indexed, FoldFrom, WritesNothing, KeysBelow, FirstFrom, Below, SameOld, Ascending,
      AllOfLog;
    var g := OlderFold(s, cut);
    OlderFoldIs(l, s, cut);
    PartEvents(l, s, cut);
    OldBlocksStay(cut, g, NewerOf(s, cut));
    KeptExactly(cut, g, NewerOf(s, cut));
    OldPartAgrees(s, g, cut, hi);
  }

  lemma OldPartAgrees(s: Seg, g: Fold, cut: nat, hi: nat)
    requires Agrees(s, hi) && cut <= hi && g == OlderFold(s, cut) && KeysBelow(OwnFold(s).blocks, cut) == g.blocks
    requires forall k :: k in OwnFold(s).heap || k in g.heap ==> k >= s.first
    ensures Agrees(Seg(s.first, OlderOf(s, cut), OldPart(s.fold, cut), s.seed), cut) <==>
      SameOld(cut, g.heap, OwnFold(s).heap)
  {
    hide FoldFrom, KeysBelow, FirstFrom;
    var part := Seg(s.first, OlderOf(s, cut), OldPart(s.fold, cut), s.seed);
    assert OwnFold(part) == g && part.fold.blocks == g.blocks;
    if Agrees(part, cut) {
      forall k: Key | k < cut
        ensures (k in g.heap <==> k in OwnFold(s).heap) && (k in g.heap ==> g.heap[k] == OwnFold(s).heap[k])
      {
        if k >= s.first { assert k in s.fold.heap <==> k in OwnFold(s).heap; }
      }
    }
  }

  /** If moreover none of them places a turn's changes before an older block, the newer part shows its own
      events' fold. */
  lemma NewerAgrees(l: seq<Event>, s: Seg, cut: nat, hi: nat, seed: nat)
    requires 1 <= s.first <= cut <= |l| + 1 && SeedFits(l, s.first, s.seed) && SeedFits(l, cut, seed) && cut <= hi
    requires Ascending(s.events) && AllOfLog(l, s.events) && Ascends(s.events, s.first) && Agrees(s, hi)
    requires CleanRun(cut, OlderFold(s, cut), NewerOf(s, cut))
    ensures Agrees(Seg(cut, NewerOf(s, cut), NewPart(s.fold, cut), seed), hi)
  {
    hide SeedFits, TurnsRise, Indexed, FoldFrom, CleanRun, FirstFrom, Below, Sim, Ascending, AllOfLog, NewPart, OldKept;
    var g, b := OlderFold(s, cut), NewerOf(s, cut);
    OlderFoldIs(l, s, cut);
    PartEvents(l, s, cut);
    SomeRise(l, cut, seed, b);
    FreshPiece(cut, g, seed);
    RunSim(cut, |g.blocks|, g, Seeded(seed), b);
    NewPartAgrees(s, g, cut, hi, seed);
  }

  lemma NewPartAgrees(s: Seg, g: Fold, cut: nat, hi: nat, seed: nat)
    requires Agrees(s, hi) && s.first <= cut
    requires Sim(cut, |g.blocks|, OwnFold(s), FoldFrom(Seeded(seed), NewerOf(s, cut)))
    ensures Agrees(Seg(cut, NewerOf(s, cut), NewPart(s.fold, cut), seed), hi)
  {
    hide FoldFrom, FirstFrom, KeysFrom;
    var own := OwnFold(s);
    KeysSplit(own.blocks[..|g.blocks|], own.blocks[|g.blocks|..], cut);
    assert own.blocks[..|g.blocks|] + own.blocks[|g.blocks|..] == own.blocks;
  }

  // ---- the view ----

  lemma TailEvents(l: seq<Event>, t: View)
    requires Log(l) && Good(l, t) && !t.detached
    ensures t.segs != []
    ensures var s := t.segs[|t.segs| - 1];
      && Ascending(s.events) && AllOfLog(l, s.events) && Ascends(s.events, s.first) && Agrees(s, t.lastSeq + 1)
      && 1 <= s.first <= t.lastSeq + 1 <= |l| + 1 && SeedFits(l, s.first, s.seed)
      && forall i :: 0 <= i < |s.events| ==> s.events[i].sn <= t.lastSeq
  {
    hide Log, AllFiled, Places, SeedFits, CleanCut, Agrees, Shape, Cursors, Good, Numbers, Hi, Ascending, AllOfLog;
    GoodShape(l, t);
    var n := |t.segs| - 1;
    PlaceAt(l, t, n);
    EventsInRange(l, t, n);
    GoodAgrees(l, t, n);
    AllFiledShape(l, t);
    TailStarts(t);
    AttachedHi(l, t);
    AscendingAscends(t.segs[n].events, t.segs[n].first);
  }

  lemma AscendingAscends(events: seq<Event>, lo: Key)
    requires Ascending(events) && forall i :: 0 <= i < |events| ==> events[i].sn >= lo
    ensures Ascends(events, lo)
  {
  }

  lemma SplitIs(t: View, p: Page, limit: nat)
    requires SplitTail(t, p, limit) != t
    ensures var t', s, cut := SplitTail(t, p, limit), t.segs[|t.segs| - 1], p.nextBefore;
      && !t.detached && t.segs != [] && s.first < cut && FirstFrom(s.events, cut) < |s.events|
      && |t'.segs| == |t.segs| + 1
      && t'.segs[|t.segs| - 1] == Seg(s.first, OlderOf(s, cut), OldPart(s.fold, cut), s.seed)
      && t'.segs[|t.segs|] == Seg(cut, NewerOf(s, cut), NewPart(s.fold, cut), p.seed)
      && t'.lastSeq == t.lastSeq && t'.detached == t.detached && t'.below == t.below
  {
    hide OldPart, NewPart, FirstFrom;
  }

  /** Splitting a tail, whatever of it is missing: the older part shows the fold of its own events exactly when no event
      of the newer part that has come writes to an older block; and the newer part does too, if also none of them places
      a turn's changes before one. */
  lemma SplitShowsExactly(l: seq<Event>, t: View, p: Page, limit: nat)
    requires Log(l) && Good(l, t) && TailPage(l, p) && SplitTail(t, p, limit) != t
    ensures var t', s, cut, n := SplitTail(t, p, limit), t.segs[|t.segs| - 1], p.nextBefore, |t.segs|;
      && |t'.segs| == n + 1 && t'.segs[n - 1].events == OlderOf(s, cut) && t'.segs[n].events == NewerOf(s, cut)
      && (Agrees(t'.segs[n - 1], cut) <==> WritesNothing(cut, OlderFold(s, cut), NewerOf(s, cut)))
      && (CleanRun(cut, OlderFold(s, cut), NewerOf(s, cut)) ==>
            Agrees(t'.segs[n - 1], cut) && Agrees(t'.segs[n], t.lastSeq + 1))
  {
    hide Log, Good, TailPage, SplitTail, Agrees, CleanCut, SeedFits, OldPart, NewPart, FirstFrom, CleanRun,
      WritesNothing, Ascending, AllOfLog;
    SplitIs(t, p, limit);
    TailEvents(l, t);
    NoCutInEmptyPage(l, p);
    PageCut(l, p);
    var s, cut := t.segs[|t.segs| - 1], p.nextBefore;
    CutHeld(s, cut, t.lastSeq);
    OlderAgrees(l, s, cut, t.lastSeq + 1);
    if CleanRun(cut, OlderFold(s, cut), NewerOf(s, cut)) {
      CleanWritesNothing(cut, OlderFold(s, cut), NewerOf(s, cut));
      NewerAgrees(l, s, cut, t.lastSeq + 1, p.seed);
    }
  }

  lemma CutHeld(s: Seg, cut: nat, n: nat)
    requires FirstFrom(s.events, cut) < |s.events| && forall i :: 0 <= i < |s.events| ==> s.events[i].sn <= n
    ensures cut <= n
  {
  }

  /** What leaves every older block alone and its list too. */
  lemma CleanWritesNothing(cut: nat, f: Fold, events: seq<Event>)
    requires CleanRun(cut, f, events)
    ensures WritesNothing(cut, f, events)
  {
    hide FoldFrom;
    forall i | 0 <= i < |events| ensures !Writes(cut, FoldFrom(f, events[..i]), events[i]) {
      CleanWrites(cut, FoldFrom(f, events[..i]), events[i]);
    }
  }

  lemma CleanWrites(lo: Key, f: Fold, e: Event)
    requires Clean(lo, f, e)
    ensures !Writes(lo, f, e)
  {
  }

  // ---- a split that keeps what is missing apart ----

  /** No event of the newer part that has come refers to an older block, and neither does what the fold goes on with. */
  predicate CleanSplit(t: View, p: Page) {
    && t.segs != []
    && var s, cut := t.segs[|t.segs| - 1], p.nextBefore;
       && CleanRun(cut, OlderFold(s, cut), NewerOf(s, cut))
       && YoungPointer(cut, s.fold.cur) && YoungPointer(cut, s.fold.plan)
  }

  /** The live tail is alike one fold of its events. */
  lemma TailAlike(l: seq<Event>, s: Seg, n: nat)
    requires Log(l) && LiveTail(l, s, n, false) && CleanCut(l, s.first) && SeedFits(l, s.first, s.seed)
    ensures Sim(s.first, 0, s.fold, OwnFold(s)) && Rising(l, s.fold.turn, n)
  {
    if Stepping(l, s, n) {
      LogNumbered(l);
      SliceAbove(l, s.first, n);
      hide Log, CleanCut, SeedFits, TurnsRise, Sim, YoungIndex, Whole, Young, FoldFrom;
      FreshHolds(l, s.first, n, s.seed);
      FreshIsYoung(s.first, s.seed, s.events);
      PiecesAlike(s.first, |Whole(l, s.first - 1).blocks|, Whole(l, n), s.fold, OwnFold(s));
    }
  }

  lemma WithoutAlike(lo: Key, cut: Key, f: map<string, Key>, g: map<string, Key>, h: map<string, Key>)
    requires lo <= cut && SameIndex(lo, f, g) && SameIndex(cut, g, h) && forall id :: id in h ==> h[id] >= cut
    ensures SameIndex(cut, Without(f, cut), h)
  {
    forall id ensures SamePointer(cut, Find(Without(f, cut), id), Find(h, id)) {
      WithoutIs(f, cut, id);
      assert SamePointer(lo, Find(f, id), Find(g, id)) && SamePointer(cut, Find(g, id), Find(h, id));
    }
  }

  lemma ToolsWithoutAlike(lo: Key, cut: Key, f: Fold, g: Fold, h: Fold)
    requires lo <= cut && SameTools(lo, f, g) && SameTools(cut, g, h) && YoungIndex(cut, h)
    ensures SameTools(cut, NewPart(f, cut), h)
  {
    forall id ensures SamePointer(cut, ToolAt(NewPart(f, cut), id), ToolAt(h, id)) {
      WithoutIs(f.tools, cut, (f.turn, id));
      assert SamePointer(lo, ToolAt(f, id), ToolAt(g, id)) && SamePointer(cut, ToolAt(g, id), ToolAt(h, id));
    }
  }

  lemma PointerAlike(lo: Key, cut: Key, f: Option<Key>, g: Option<Key>, h: Option<Key>)
    requires lo <= cut && SamePointer(lo, f, g) && SamePointer(cut, g, h)
    requires YoungPointer(cut, f) && YoungPointer(cut, h)
    ensures f == h
  {
  }

  /** The newer part of such a fold is alike a fresh fold of its events, and nothing older is in its reach. */
  lemma NewPartAlike(lo: Key, cut: Key, na: nat, f: Fold, g: Fold, h: Fold)
    requires lo <= cut && Sim(lo, 0, f, g) && Sim(cut, na, g, h) && Young(cut, h)
    requires YoungPointer(cut, f.cur) && YoungPointer(cut, f.plan)
    ensures Sim(cut, 0, NewPart(f, cut), h) && Free(cut, NewPart(f, cut)) && Young(cut, NewPart(f, cut))
  {
    var b := NewPart(f, cut);
    assert f.blocks[0..] == f.blocks && g.blocks[..na] + g.blocks[na..] == g.blocks;
    KeysSplit(g.blocks[..na], g.blocks[na..], cut);
    WithoutAlike(lo, cut, f.byId, g.byId, h.byId);
    WithoutAlike(lo, cut, f.perms, g.perms, h.perms);
    WithoutAlike(lo, cut, f.asks, g.asks, h.asks);
    ToolsWithoutAlike(lo, cut, f, g, h);
    PointerAlike(lo, cut, f.cur, g.cur, h.cur);
    PointerAlike(lo, cut, f.plan, g.plan, h.plan);
    hide SameIndex, SameTools, KeysFrom;
    ReachedAlike(lo, cut, f, g, h);
    assert b.blocks == h.blocks && b.blocks[0..] == b.blocks && ToolsPast(b);
    SelfSim(cut, b);
  }

  lemma ReachedAlike(lo: Key, cut: Key, f: Fold, g: Fold, h: Fold)
    requires lo <= cut && SameHeap(lo, f.heap, g.heap) && SameHeap(cut, g.heap, h.heap) && Closed(cut, h.heap)
    requires YoungPointer(cut, f.cur) && YoungPointer(cut, f.plan) && forall k :: k in h.heap ==> k >= cut
    ensures SameHeap(cut, Reached(f, cut), h.heap) && Closed(cut, Reached(f, cut))
    ensures forall k :: k in Reached(f, cut) ==> k >= cut
  {
  }

  lemma NumbersConcat(a: seq<Event>, b: seq<Event>)
    ensures Numbers(a + b) == Numbers(a) + Numbers(b)
  {
    assert forall e :: e in a + b <==> e in a || e in b;
  }

  lemma NumbersWithin(events: seq<Event>, lo: nat, hi: nat)
    requires forall i :: 0 <= i < |events| ==> lo <= events[i].sn < hi
    ensures forall n :: n in Numbers(events) ==> lo <= n < hi
  {
    forall e | e in events ensures lo <= e.sn < hi { var i :| 0 <= i < |events| && events[i] == e; }
  }

  /** Both parts hold what was seen of their ranges. */
  lemma PartsFiled(l: seq<Event>, t: View, s: Seg, cut: nat, a: Seg, b: Seg)
    requires Ascending(s.events) && AllOfLog(l, s.events) && Ascends(s.events, s.first)
    requires s.first <= cut <= t.lastSeq + 1
    requires forall i :: 0 <= i < |s.events| ==> s.events[i].sn <= t.lastSeq
    requires forall n :: n in Numbers(s.events) <==> n in t.seen && s.first <= n < t.lastSeq + 1
    requires a.first == s.first && a.events == OlderOf(s, cut) && b.first == cut && b.events == NewerOf(s, cut)
    ensures PartOf(l, t, a, cut) && PartOf(l, t, b, t.lastSeq + 1)
  {
    PartEvents(l, s, cut);
    NumbersConcat(OlderOf(s, cut), NewerOf(s, cut));
    NumbersWithin(OlderOf(s, cut), s.first, cut);
    assert forall i :: 0 <= i < |NewerOf(s, cut)| ==> NewerOf(s, cut)[i] in s.events;
    LastBound(s.events, NewerOf(s, cut), t.lastSeq);
    NumbersWithin(NewerOf(s, cut), cut, t.lastSeq + 1);
    hide Numbers, Ascending, AllOfLog, FirstFrom;
  }

  lemma LastBound(events: seq<Event>, part: seq<Event>, n: nat)
    requires forall i :: 0 <= i < |events| ==> events[i].sn <= n
    requires forall i :: 0 <= i < |part| ==> part[i] in events
    ensures forall i :: 0 <= i < |part| ==> part[i].sn <= n
  {
    forall i | 0 <= i < |part| ensures part[i].sn <= n { var j :| 0 <= j < |events| && events[j] == part[i]; }
  }

  /** The newer part's fold goes on with whatever comes. */
  lemma NewPartLives(l: seq<Event>, s: Seg, cut: nat, n: nat, seed: nat)
    requires Log(l) && LiveTail(l, s, n, false) && CleanCut(l, s.first) && SeedFits(l, s.first, s.seed)
    requires CleanCut(l, cut) && SeedFits(l, cut, seed) && s.first <= cut <= n + 1 && n <= |l|
    requires Ascending(s.events) && AllOfLog(l, s.events) && Ascends(s.events, s.first)
    requires forall i :: 0 <= i < |s.events| ==> s.events[i].sn <= n
    requires CleanRun(cut, OlderFold(s, cut), NewerOf(s, cut))
    requires YoungPointer(cut, s.fold.cur) && YoungPointer(cut, s.fold.plan)
    ensures LiveTail(l, Seg(cut, NewerOf(s, cut), NewPart(s.fold, cut), seed), n, false)
  {
    CutStarts(l, s.first);
    CutStarts(l, cut);
    TailAlike(l, s, n);
    hide Log, LiveTail, SeedFits, CleanCut, TurnsRise, Indexed, FoldFrom, CleanRun, FirstFrom, Below, Sim, Ascending,
      AllOfLog, OldKept, Rising, Young;
    var g, b := OlderFold(s, cut), NewerOf(s, cut);
    OlderFoldIs(l, s, cut);
    PartEvents(l, s, cut);
    SomeRise(l, cut, seed, b);
    FreshPiece(cut, g, seed);
    RunSim(cut, |g.blocks|, g, Seeded(seed), b);
    NewerRange(s, cut, n);
    FreshIsYoung(cut, seed, b);
    NewPartAlike(s.first, cut, |g.blocks|, s.fold, OwnFold(s), FoldFrom(Seeded(seed), b));
    FreshIsLoose(l, cut, seed, b, n);
    NewPartTurn(s.fold, cut);
    ApartLives(l, Seg(cut, b, NewPart(s.fold, cut), seed), n);
  }

  lemma CutStarts(l: seq<Event>, c: nat)
    requires CleanCut(l, c)
    ensures 1 <= c <= |l| + 1
  {
  }

  lemma NewerRange(s: Seg, cut: nat, n: nat)
    requires Ascends(NewerOf(s, cut), cut) && forall i :: 0 <= i < |s.events| ==> s.events[i].sn <= n
    ensures forall i :: 0 <= i < |NewerOf(s, cut)| ==> cut <= NewerOf(s, cut)[i].sn <= n
  {
  }

  lemma ApartLives(l: seq<Event>, s: Seg, n: nat)
    requires Free(s.first, s.fold) && Rising(l, s.fold.turn, n)
    requires Sim(s.first, 0, s.fold, OwnFold(s)) && Rising(l, OwnFold(s).turn, n) && Young(s.first, s.fold)
    ensures LiveTail(l, s, n, false)
  {
    hide Free, Sim, Rising, Young, Stepping;
  }

  lemma SplitTailIsAt(t: View, p: Page, limit: nat)
    requires SplitTail(t, p, limit) != t
    ensures t.segs != []
    ensures var s, cut := t.segs[|t.segs| - 1], p.nextBefore;
      SplitTail(t, p, limit) == SplitAt(t, Seg(s.first, OlderOf(s, cut), OldPart(s.fold, cut), s.seed),
                                           Seg(cut, NewerOf(s, cut), NewPart(s.fold, cut), p.seed))
  {
    hide OldPart, NewPart, FirstFrom;
  }

  /** Splitting a tail of which events are missing keeps the invariant, if the split is clean. */
  lemma CleanSplitHolds(l: seq<Event>, t: View, p: Page, limit: nat)
    requires Log(l) && Good(l, t) && TailPage(l, p) && SplitTail(t, p, limit) != t && CleanSplit(t, p)
    ensures Good(l, SplitTail(t, p, limit))
  {
    hide Log, Good, TailPage, SplitTail, Agrees, CleanCut, SeedFits, OldPart, NewPart, FirstFrom, CleanRun,
      WritesNothing, Ascending, AllOfLog, SplitAt, PartOf, LiveTail, Numbers, Hi, Shape, Cursors, AllFiled, Places;
    SplitIs(t, p, limit);
    SplitTailIsAt(t, p, limit);
    SplitShowsExactly(l, t, p, limit);
    TailEvents(l, t);
    TailNumbers(l, t);
    NoCutInEmptyPage(l, p);
    PageCut(l, p);
    var s, cut := t.segs[|t.segs| - 1], p.nextBefore;
    var a := Seg(s.first, OlderOf(s, cut), OldPart(s.fold, cut), s.seed);
    var b := Seg(cut, NewerOf(s, cut), NewPart(s.fold, cut), p.seed);
    CutHeld(s, cut, t.lastSeq);
    PartsFiled(l, t, s, cut, a, b);
    NewPartLives(l, s, cut, t.lastSeq, p.seed);
    SplitGood(l, t, a, b);
  }

  lemma TailNumbers(l: seq<Event>, t: View)
    requires Log(l) && Good(l, t) && !t.detached && t.segs != []
    ensures var s := t.segs[|t.segs| - 1];
      && (forall n :: n in Numbers(s.events) <==> n in t.seen && s.first <= n < t.lastSeq + 1)
      && LiveTail(l, s, t.lastSeq, false) && CleanCut(l, s.first) && t.lastSeq <= |l|
  {
    hide Log, AllFiled, Places, SeedFits, CleanCut, Agrees, Shape, Cursors, Good, Numbers, Hi, Ascending, AllOfLog,
      LiveTail;
    GoodShape(l, t);
    PlaceAt(l, t, |t.segs| - 1);
    GoodAgrees(l, t, |t.segs| - 1);
    AttachedHi(l, t);
    GoodTail(l, t);
  }
}
