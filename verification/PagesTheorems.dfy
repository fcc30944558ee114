/** What a reader sees, after any run of loads, unloads, splits and live events. */
module PagesTheorems {
  import opened Options
  import opened FoldSpec
  import opened FoldSim
  import opened FoldSplit
  import opened PagesSpec
  import opened Pages
  import opened PagesRun

  // ---- the loaded range ----

  function Start(t: View): nat
    requires t.segs != []
  {
    t.segs[0].first
  }

  function End(t: View): nat
    requires t.segs != []
  {
    Hi(t, |t.segs| - 1)
  }

  /** The log may be cut at n + 1, or ends there. */
  predicate Closes(l: seq<Event>, hi: nat, n: nat) { hi <= n + 1 && (CleanCut(l, hi) || hi == n + 1) }

  lemma SegAt(l: seq<Event>, t: View, i: nat)
    requires Inv(l, t) && i < |t.segs|
    ensures SegOK(l, t.segs[i], Hi(t, i))
  {
  }

  lemma SegEnds(l: seq<Event>, t: View, i: nat)
    requires Inv(l, t) && i < |t.segs|
    ensures t.lastSeq <= |l| && Closes(l, Hi(t, i), t.lastSeq)
  {
    hide TailOK, TurnsRise, Shows, CleanRun;
    if i < |t.segs| - 1 { SegAt(l, t, i + 1); HiOfLater(l, t, i + 1); }
  }

  lemma HiOfLater(l: seq<Event>, t: View, i: nat)
    requires Inv(l, t) && i < |t.segs|
    ensures t.segs[i].first <= t.lastSeq + 1
  {
    hide TailOK, TurnsRise, Shows, CleanRun;
    LoadedEnds(l, t);
    assert i < |t.segs| - 1 ==> t.segs[i].first < t.segs[|t.segs| - 1].first;
  }

  /** What is closed off stays as it was. */
  lemma ClosedKept(l: seq<Event>, hi: nat, n: nat)
    requires Log(l) && 1 <= hi && n <= |l| && Closes(l, hi, n)
    ensures Whole(l, hi - 1).blocks <= Whole(l, n).blocks && SameOld(hi, Whole(l, hi - 1).heap, Whole(l, n).heap)
    ensures SplitAtKey(Whole(l, n).blocks, |Whole(l, hi - 1).blocks|, hi)
  {
    hide TurnsRise, CleanRun, FoldFrom;
    if hi == n + 1 {
      WholeBelow(l, n);
    } else {
      NoSeedFits(l, hi);
      FreshHolds(l, hi, n, 0);
      CutKept(l, hi, n);
    }
  }

  /** The first n keys are below k, the others are not. */
  predicate SplitAtKey(keys: seq<Key>, n: nat, k: Key) {
    n <= |keys| && (forall i :: 0 <= i < n ==> keys[i] < k) && (forall i :: n <= i < |keys| ==> keys[i] >= k)
  }

  /** What one segment adds. */
  lemma SegShows(l: seq<Event>, t: View, i: nat)
    requires Log(l) && Inv(l, t) && i < |t.segs|
    ensures 1 <= t.segs[i].first <= Hi(t, i) <= |l| + 1
    ensures Whole(l, t.segs[i].first - 1).blocks <= Whole(l, Hi(t, i) - 1).blocks
    ensures t.segs[i].fold.blocks == Shown(l, t.segs[i].first, Hi(t, i))
    ensures i > 0 ==> Hi(t, i - 1) == t.segs[i].first
  {
    hide Inv, Log, CleanCut, SeedFits, Whole, Shown;
    SegAt(l, t, i);
    CutKept(l, t.segs[i].first, Hi(t, i) - 1);
  }

  lemma {:induction false} PrefixBlocks(l: seq<Event>, t: View, n: nat)
    requires Log(l) && Inv(l, t) && 1 <= n <= |t.segs|
    ensures 1 <= Start(t) <= Hi(t, n - 1) <= |l| + 1
    ensures Whole(l, Start(t) - 1).blocks <= Whole(l, Hi(t, n - 1) - 1).blocks
    ensures Blocks(t.segs[..n]) == Shown(l, Start(t), Hi(t, n - 1))
  {
    hide Inv, Log, Whole, Shown, Hi;
    SegShows(l, t, n - 1);
    assert t.segs[..n][..n - 1] == t.segs[..n - 1];
    if n == 1 {
      assert Blocks(t.segs[..0]) == [];
    } else {
      PrefixBlocks(l, t, n - 1);
      ShownJoins(l, Start(t), t.segs[n - 1].first, Hi(t, n - 1));
    }
  }

  /** The blocks shown are one contiguous slice of the fold of the whole log so far: those opened in the loaded range.
      Nothing is shown twice, missing or out of place. */
  predicate ShowsSlice(l: seq<Event>, t: View) {
    && t.segs != [] && 1 <= Start(t) <= End(t) <= t.lastSeq + 1 <= |l| + 1
    && var all, a, b := Whole(l, t.lastSeq).blocks, |Whole(l, Start(t) - 1).blocks|, |Whole(l, End(t) - 1).blocks|;
       a <= b <= |all| && Blocks(t.segs) == all[a..b] && SplitAtKey(all, a, Start(t)) && SplitAtKey(all, b, End(t))
  }

  lemma BlocksAreSlice(l: seq<Event>, t: View)
    requires Log(l) && Inv(l, t)
    ensures ShowsSlice(l, t)
  {
    hide Inv, Log, CleanCut, SeedFits, Whole, SameOld, Closes;
    NotEmpty(l, t);
    SegAt(l, t, 0);
    PrefixBlocks(l, t, |t.segs|);
    assert t.segs[..|t.segs|] == t.segs;
    SegEnds(l, t, |t.segs| - 1);
    EndsInLog(l, t);
    ClosedKept(l, End(t), t.lastSeq);
    StartCloses(l, t);
    ClosedKept(l, Start(t), t.lastSeq);
  }

  lemma NotEmpty(l: seq<Event>, t: View)
    requires Inv(l, t)
    ensures t.segs != []
  {
  }

  lemma StartCloses(l: seq<Event>, t: View)
    requires Inv(l, t)
    ensures Closes(l, Start(t), t.lastSeq)
  {
    hide TailOK, TurnsRise, Shows, CleanRun;
    SegAt(l, t, 0);
    EndsInLog(l, t);
  }

  /** And each block opened in a segment is, there, what it is in the whole: contents, nesting and version. */
  lemma CardsAreTheWholes(l: seq<Event>, t: View, i: nat, k: Key)
    requires Log(l) && Inv(l, t) && i < |t.segs| && t.segs[i].first <= k < Hi(t, i) && t.lastSeq <= |l|
    ensures At(t.segs[i].fold, Some(k)) == At(Whole(l, t.lastSeq), Some(k))
    ensures var h, w := t.segs[i].fold.heap, Whole(l, t.lastSeq).heap; (k in h <==> k in w) && (k in h ==> h[k] == w[k])
  {
    hide Inv, Log, CleanCut, SeedFits, Whole, Closes;
    SegAt(l, t, i);
    SegEnds(l, t, i);
    ClosedKept(l, Hi(t, i), t.lastSeq);
  }

  // ---- unloading ----

  lemma {:induction false} EndOfIs(segs: seq<Seg>, n: nat)
    requires n <= |segs|
    ensures EndOf(segs, n) == |Blocks(segs[..n])|
  {
    if n > 0 { EndOfIs(segs, n - 1); assert segs[..n][..n - 1] == segs[..n - 1]; }
  }

  lemma {:induction false} BlocksConcat(a: seq<Seg>, b: seq<Seg>)
    ensures Blocks(a + b) == Blocks(a) + Blocks(b)
  {
    if b == [] {
      assert a + b == a;
    } else {
      BlocksConcat(a, b[..|b| - 1]);
      assert (a + b)[..|a + b| - 1] == a + b[..|b| - 1];
    }
  }

  lemma {:induction false} TopStops(segs: seq<Seg>, lo: int, from: nat)
    requires from < |segs| && (from > 0 ==> EndOf(segs, from) <= lo)
    ensures var top := DropTop(segs, lo, from);
      (top > 0 ==> EndOf(segs, top) <= lo) && (top < |segs| - 1 ==> EndOf(segs, top + 1) > lo)
    decreases |segs| - from
  {
    if from < |segs| - 1 && EndOf(segs, from + 1) <= lo { TopStops(segs, lo, from + 1); }
  }

  lemma {:induction false} BottomStops(segs: seq<Seg>, hi: int, top: nat, from: nat)
    requires top < from <= |segs| && (from < |segs| ==> EndOf(segs, from) >= hi)
    ensures var b := DropBottom(segs, hi, top, from);
      (b < |segs| ==> EndOf(segs, b) >= hi) && (b - 1 > top ==> EndOf(segs, b - 1) < hi)
  {
    if from - 1 > top && EndOf(segs, from - 1) >= hi { BottomStops(segs, hi, top, from - 1); }
  }

  lemma WindowBlocks(t: View, top: nat, bottom: nat)
    requires top < bottom <= |t.segs|
    ensures EndOf(t.segs, top) <= EndOf(t.segs, bottom) <= |Blocks(t.segs)|
    ensures Blocks(t.segs[top..bottom]) == Blocks(t.segs)[EndOf(t.segs, top)..EndOf(t.segs, bottom)]
  {
    hide Blocks, EndOf;
    EndOfIs(t.segs, top);
    EndOfIs(t.segs, bottom);
    BlocksConcat(t.segs[..top], t.segs[top..bottom]);
    BlocksConcat(t.segs[..bottom], t.segs[bottom..]);
    assert t.segs[..top] + t.segs[top..bottom] == t.segs[..bottom];
    assert t.segs[..bottom] + t.segs[bottom..] == t.segs;
  }

  /** Unloading drops whole segments from either end, none of whose blocks is in the window [lo, hi), and, but for the
      last one left and a live tail that must stay, all of them. */
  lemma KeepSparesTheWindow(t: View, lo: int, hi: int, canDetach: bool)
    requires t.segs != []
    ensures exists top, bottom ::
      0 <= top < bottom <= |t.segs| && Kept(t, Keep(t, lo, hi, canDetach), lo, hi, canDetach, top, bottom)
  {
    hide Kept, Keep;
    if |t.segs| < 2 {
      KeptWhole(t, lo, hi, canDetach);
    } else {
      var top := DropTop(t.segs, lo, 0);
      var b := DropBottom(t.segs, hi, top, |t.segs|);
      var bottom := if b < |t.segs| && !canDetach && !t.detached then |t.segs| else b;
      KeptWindow(t, lo, hi, canDetach, top, b, bottom);
    }
  }

  lemma KeptWhole(t: View, lo: int, hi: int, canDetach: bool)
    requires |t.segs| == 1
    ensures Kept(t, Keep(t, lo, hi, canDetach), lo, hi, canDetach, 0, 1)
  {
    WindowBlocks(t, 0, 1);
    assert t.segs[0..1] == t.segs;
    EndOfIs(t.segs, 1);
    assert t.segs[..1] == t.segs;
  }

  lemma KeptWindow(t: View, lo: int, hi: int, canDetach: bool, top: nat, b: nat, bottom: nat)
    requires |t.segs| >= 2 && top == DropTop(t.segs, lo, 0) && b == DropBottom(t.segs, hi, top, |t.segs|)
    requires bottom == if b < |t.segs| && !canDetach && !t.detached then |t.segs| else b
    ensures Kept(t, Keep(t, lo, hi, canDetach), lo, hi, canDetach, top, bottom)
  {
    hide DropTop, DropBottom, Blocks, Keep;
    var n := |t.segs|;
    TopStops(t.segs, lo, 0);
    BottomStops(t.segs, hi, top, n);
    WindowBlocks(t, top, bottom);
    assert t.segs[0..n] == t.segs;
    EndOfIs(t.segs, n);
    assert t.segs[..n] == t.segs;
    KeepSegs(t, lo, hi, canDetach);
  }

  lemma KeepSegs(t: View, lo: int, hi: int, canDetach: bool)
    requires |t.segs| >= 2
    ensures var top := DropTop(t.segs, lo, 0);
      var b := DropBottom(t.segs, hi, top, |t.segs|);
      Keep(t, lo, hi, canDetach).segs == t.segs[top..if b < |t.segs| && !canDetach && !t.detached then |t.segs| else b]
  {
    hide DropTop, DropBottom;
    assert t.segs[0..|t.segs|] == t.segs;
  }

  predicate Kept(t: View, t': View, lo: int, hi: int, canDetach: bool, top: nat, bottom: nat)
    requires top < bottom <= |t.segs|
  {
    var n, a, b := |t.segs|, EndOf(t.segs, top), EndOf(t.segs, bottom);
    && t'.segs == t.segs[top..bottom]
    && a <= b <= |Blocks(t.segs)| && Blocks(t'.segs) == Blocks(t.segs)[a..b]
    && (a == 0 || a <= lo) && (b == |Blocks(t.segs)| || b >= hi)
    && (top == bottom - 1 || EndOf(t.segs, top + 1) > lo)
    && (top == bottom - 1 || EndOf(t.segs, bottom - 1) < hi || (bottom == n && !canDetach && !t.detached))
  }

  // ---- runs ----

  datatype Op =
    | OpenAt(p: Page)
    | Older(p: Page)
    | Newer(p: Page)
    | Split(p: Page, limit: nat)
    | Live(events: seq<Event>)
    | Unload(lo: int, hi: int, canDetach: bool)

  function Do(t: View, op: Op): View {
    match op
    case OpenAt(p) => OpenTail(p)
    case Older(p) => LoadOlder(t, p)
    case Newer(p) => LoadNewer(t, p)
    case Split(p, limit) => SplitTail(t, p, limit)
    case Live(events) => Apply(t, events)
    case Unload(lo, hi, canDetach) => Keep(t, lo, hi, canDetach)
  }

  /** The server answers from the log, and live events come in step. */
  predicate Answers(l: seq<Event>, t: View, op: Op) {
    match op
    case OpenAt(p) => TailPage(l, p)
    case Older(p) => t.segs != [] && t.hasOlder ==> OlderPage(l, t.segs[0].first, p)
    case Newer(p) => t.below != [] && t.segs != [] ==> NewerPage(l, t, p)
    case Split(p, _) => TailPage(l, p)
    case Live(events) => InStep(l, t.lastSeq, events)
    case Unload(_, _, _) => true
  }

  lemma DoKeeps(l: seq<Event>, t: View, op: Op)
    requires Log(l) && (op.OpenAt? || Inv(l, t)) && Answers(l, t, op)
    ensures Inv(l, Do(t, op))
  {
    hide Inv, Log, TailPage, OlderPage, NewerPage, InStep;
    match op {
      case OpenAt(p) => OpenTailKeeps(l, p);
      case Older(p) => if t.segs != [] && t.hasOlder { LoadOlderKeeps(l, t, p); }
      case Newer(p) => if t.below != [] && t.segs != [] { LoadNewerKeeps(l, t, p); }
      case Split(p, limit) => SplitTailKeeps(l, t, p, limit);
      case Live(events) => ApplyKeeps(l, t, events);
      case Unload(lo, hi, canDetach) => KeepKeeps(l, t, lo, hi, canDetach);
    }
  }

  /** Asking for older pages comes to an end: one that leaves the segments as they were is the last asked for. */
  lemma NothingOlderEnds(t: View, p: Page)
    requires t.segs != [] && LoadOlder(t, p).segs == t.segs
    ensures !LoadOlder(t, p).hasOlder
  {
  }

  /** The tail is split exactly when it is live and longer than three pages, the server has older events than its last
      page, and the page begins behind the tail's start and not behind its last event. */
  lemma SplitsWhenLong(t: View, p: Page, limit: nat)
    ensures SplitTail(t, p, limit) != t <==>
      && t.segs != [] && !t.detached
      && var tail := t.segs[|t.segs| - 1];
         && |tail.events| > 3 * limit && p.hasOlder && tail.first < p.nextBefore
         && exists i :: 0 <= i < |tail.events| && tail.events[i].sn >= p.nextBefore
    ensures SplitTail(t, p, limit) != t ==>
      |SplitTail(t, p, limit).segs| == |t.segs| + 1 && SplitTail(t, p, limit).segs[|t.segs|].first == p.nextBefore
  {
  }

  lemma OpenMoves(l: seq<Event>, p: Page)
    requires Log(l) && TailPage(l, p)
    ensures var t' := OpenTail(p);
      t'.segs != [] && Start(t') == p.next + 1 - |p.events| && End(t') == p.next + 1 && t'.lastSeq == p.next
  {
    hide Log, TailPage, OpenTail, CleanCut, SeedFits, Numbered, Numbers, FoldFrom;
    TailPageIs(l, p);
    LogNumbered(l);
    OpenTailIs(l, p, p.next + 1 - |p.events|);
  }

  lemma OlderMoves(l: seq<Event>, t: View, p: Page)
    requires Log(l) && Inv(l, t) && t.segs != [] && (t.hasOlder ==> OlderPage(l, t.segs[0].first, p))
    ensures var t' := LoadOlder(t, p);
      && t'.segs != [] && t'.lastSeq == t.lastSeq && End(t') == End(t)
      && Start(t') == (if Start(t) > 1 then Start(t) - |p.events| else 1) && (Start(t) > 1 ==> p.events != [])
  {
    hide Log, Inv, LoadOlder, Numbered, FoldFrom;
    LogNumbered(l);
    EndsInLog(l, t);
    FirstIsSeen(l, t);
    RunShape(l, t);
    if t.hasOlder {
      LoadOlderIs(l, t, p, t.segs[0].first - |p.events|);
      InFrontIndexes(t, MakeSeg(p.events, 0, t.segs[0].first - |p.events|), p.hasOlder);
    } else {
      NothingOlder(t, p);
      SegAt(l, t, 0);
    }
  }

  lemma NewerMoves(l: seq<Event>, t: View, p: Page)
    requires Log(l) && Inv(l, t) && t.segs != [] && (t.below != [] ==> NewerPage(l, t, p))
    ensures var t' := LoadNewer(t, p);
      && t'.segs != [] && Start(t') == Start(t)
      && (if t.below == [] then t' == t
          else
            && t'.below == t.below[1..]
            && End(t') == if |t.below| > 1 then t.below[1] else t.below[0] + |p.events|)
  {
    hide Log, Inv, LoadNewer, Numbered, FoldFrom;
    LogNumbered(l);
    if t.below == [] {
      NothingNewer(t, p);
    } else {
      BelowFacts(l, t);
      if |t.below| > 1 { LoadNewerIs(l, t, p, t.below[0], t.below[1]); } else { LoadNewestIs(l, t, p); }
    }
  }

  lemma NothingNewer(t: View, p: Page)
    requires t.below == []
    ensures LoadNewer(t, p) == t
  {
  }

  lemma SplitMoves(l: seq<Event>, t: View, p: Page, limit: nat)
    requires Log(l) && Inv(l, t) && TailPage(l, p) && t.segs != []
    ensures var t' := SplitTail(t, p, limit);
      t'.segs != [] && Start(t') == Start(t) && End(t') == End(t) && t'.lastSeq == t.lastSeq
  {
    hide Inv, Log, TailPage, SplitTail, TailOK, SegOK;
    if SplitTail(t, p, limit) != t {
      SplitIsAttached(t, p, limit);
      TailFacts(l, t);
      LogNumbered(l);
      SplitTailIs(l, t, p, limit);
      RunShape(l, t);
      AttachedEnds(l, t);
    }
  }

  lemma AttachedEnds(l: seq<Event>, t: View)
    requires Inv(l, t) && !t.detached
    ensures t.below == []
  {
  }

  lemma LiveMoves(l: seq<Event>, t: View, events: seq<Event>)
    requires Log(l) && Inv(l, t) && InStep(l, t.lastSeq, events) && t.segs != []
    ensures var t' := Apply(t, events);
      && t'.segs != [] && Start(t') == Start(t) && t'.below == t.below && (t.below == [] ==> End(t') == t'.lastSeq + 1)
      && t.lastSeq <= t'.lastSeq && (forall e :: e in events ==> e.sn <= t'.lastSeq)
      && (t'.lastSeq == t.lastSeq || exists e :: e in events && e.sn == t'.lastSeq)
  {
    hide Inv, Log, InStep;
    DeliverAllKeeps(l, t, events);
    DeliveredStarts(t, events);
    CursorIsNewest(t.lastSeq, events);
    var (t1, late) := DeliverAll(t, events);
    assert RefoldSegs(t1.segs, {}) == t1.segs;
    RunShape(l, t1);
  }

  lemma {:induction false} DeliveredStarts(t: View, events: seq<Event>)
    requires t.segs != []
    ensures var t' := DeliverAll(t, events).0;
      |t'.segs| == |t.segs| && t'.segs[0].first == t.segs[0].first && t'.below == t.below
  {
    if events != [] { DeliveredStarts(t, events[..|events| - 1]); }
  }

  lemma {:induction false} CursorIsNewest(n: nat, events: seq<Event>)
    ensures var m := Cursor(n, events);
      n <= m && (forall e :: e in events ==> e.sn <= m) && (m == n || exists e :: e in events && e.sn == m)
  {
    if events != [] {
      var front, e := events[..|events| - 1], events[|events| - 1];
      CursorIsNewest(n, front);
      assert events == front + [e];
    }
  }

  /** What range each operation leaves loaded: opening, the tail page; loading, a page more on one side; splitting, the
      same; live events, as far as the newest of them unless the tail was dropped. */
  lemma RangeMoves(l: seq<Event>, t: View, op: Op)
    requires Log(l) && (op.OpenAt? || Inv(l, t)) && Answers(l, t, op)
    ensures var t' := Do(t, op);
      && t'.segs != [] && (op.OpenAt? || t.segs != [])
      && match op
         case OpenAt(p) => Start(t') == p.next + 1 - |p.events| && End(t') == p.next + 1 && t'.lastSeq == p.next
         case Older(p) =>
           && Start(t') == (if Start(t) > 1 then Start(t) - |p.events| else 1) && End(t') == End(t)
           && t'.lastSeq == t.lastSeq && (Start(t) > 1 ==> p.events != [])
         case Newer(p) =>
           && Start(t') == Start(t)
           && (if t.below == [] then t' == t
               else
                 && t'.below == t.below[1..]
                 && End(t') == if |t.below| > 1 then t.below[1] else t.below[0] + |p.events|)
         case Split(p, limit) => Start(t') == Start(t) && End(t') == End(t) && t'.lastSeq == t.lastSeq
         case Live(events) =>
           && Start(t') == Start(t) && t'.below == t.below && (t.below == [] ==> End(t') == t'.lastSeq + 1)
           && t.lastSeq <= t'.lastSeq && (forall e :: e in events ==> e.sn <= t'.lastSeq)
           && (t'.lastSeq == t.lastSeq || exists e :: e in events && e.sn == t'.lastSeq)
         case Unload(_, _, _) => true
  {
    hide Log, TailPage, OlderPage, NewerPage, InStep, Inv, OpenTail, LoadOlder, LoadNewer, SplitTail, Apply, Keep,
      Start, End;
    DoKeeps(l, t, op);
    NotEmpty(l, Do(t, op));
    if !op.OpenAt? { NotEmpty(l, t); }
    match op {
      case OpenAt(p) => OpenMoves(l, p);
      case Older(p) => OlderMoves(l, t, p);
      case Newer(p) => NewerMoves(l, t, p);
      case Split(p, limit) => SplitMoves(l, t, p, limit);
      case Live(events) => LiveMoves(l, t, events);
      case Unload(_, _, _) =>
    }
  }

  /** A client's life: it opens at the tail, and then does anything. */
  predicate Run(l: seq<Event>, ops: seq<Op>) {
    && ops != [] && ops[0].OpenAt?
    && forall i :: 0 <= i < |ops| ==> Answers(l, After(ops[..i]), ops[i])
  }

  function After(ops: seq<Op>): View { if ops == [] then CLOSED else Do(After(ops[..|ops| - 1]), ops[|ops| - 1]) }

  lemma {:induction false} RunKeeps(l: seq<Event>, ops: seq<Op>)
    requires Log(l) && Run(l, ops)
    ensures Inv(l, After(ops))
  {
    hide Inv, Log, Answers, Do;
    var n := |ops| - 1;
    if n > 0 {
      assert forall i :: 0 <= i < n ==> ops[..n][..i] == ops[..i];
      RunKeeps(l, ops[..n]);
    }
    DoKeeps(l, After(ops[..n]), ops[n]);
  }

  /** After any run: the segments and the dropped ones after them start in ascending order, the view is detached
      exactly when some were dropped there, and the blocks are the slice of the whole log's fold that the loaded range
      opened. */
  lemma RunShowsSlice(l: seq<Event>, ops: seq<Op>)
    requires Log(l) && Run(l, ops)
    ensures var t := After(ops);
      ShowsSlice(l, t) && Shape(t) && (t.hasOlder <==> Start(t) > 1) && (t.below == [] ==> End(t) == t.lastSeq + 1)
  {
    hide Log, Run, After, ShowsSlice, Inv, Shape;
    var t := After(ops);
    RunKeeps(l, ops);
    BlocksAreSlice(l, t);
    RunShape(l, t);
  }

  lemma RunShape(l: seq<Event>, t: View)
    requires Inv(l, t)
    ensures Shape(t) && (t.hasOlder <==> Start(t) > 1) && (t.below == [] ==> End(t) == t.lastSeq + 1)
  {
  }

  // ---- an example ----

  /** A session whose tool id is reused in the next turn, opened: three blocks. */
  lemma AReusedIdIsRead()
    ensures var l := [Call(1), FirstTurn(2), Call(3)];
      var open := OpenAt(Page(l, false, 1, 3, 0));
      Log(l) && Run(l, [open]) && Blocks(After([open]).segs) == [1, 2, 3]
  {
    hide FoldFrom, CleanRun, TurnsRise, Call, FirstTurn;
    var l := [Call(1), FirstTurn(2), Call(3)];
    var p := Page(l, false, 1, 3, 0);
    SeedTooHigh();
    Numbers123(l);
    assert l[..0] == [] && l[0..] == l && l[..3] == l && l[0..3] == l;
    NothingFolded();
    assert CleanCut(l, 1) && SeedFits(l, 1, 0) && TailPage(l, p);
    OpenedOnce(OpenAt(p));
    assert OpenTail(p).segs == [MakeSeg(l, 0, 1)];
    OneSegBlocks(MakeSeg(l, 0, 1));
  }

  lemma Numbers123(l: seq<Event>)
    requires l == [Call(1), FirstTurn(2), Call(3)]
    ensures |l| == 3 && forall i :: 0 <= i < |l| ==> l[i].sn == i + 1
  {
  }

  lemma NothingFolded()
    ensures FoldFrom(EMPTY, []) == EMPTY
  {
  }

  lemma OpenedOnce(op: Op)
    ensures op.OpenAt? ==> After([op]) == OpenTail(op.p) && forall l :: Run(l, [op]) <==> TailPage(l, op.p)
  {
    hide OpenTail, TailPage;
    assert [op][..0] == [];
  }

  lemma OneSegBlocks(s: Seg)
    ensures Blocks([s]) == s.fold.blocks
  {
    assert [s][..0] == [];
  }
}
