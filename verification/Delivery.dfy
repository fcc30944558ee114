/** Events may come in any order, repeated, in any batches: each loaded segment then holds, in order, those of its range
    that have come. */
module Delivery {
  import opened Options
  import opened FoldSpec
  import opened FoldSplit
  import opened PagesSpec
  import opened Pages
  import opened PagesRun

  // ---- events in order ----

  predicate Ascending(events: seq<Event>) { forall i, j :: 0 <= i < j < |events| ==> events[i].sn < events[j].sn }

  predicate OfLog(l: seq<Event>, e: Event) { 1 <= e.sn <= |l| && e == l[e.sn - 1] }

  predicate AllOfLog(l: seq<Event>, events: seq<Event>) { forall i :: 0 <= i < |events| ==> OfLog(l, events[i]) }

  lemma {:induction false} InsertNumbers(l: seq<Event>, events: seq<Event>, e: Event)
    ensures Numbers(InsertEvent(events, e)) == Numbers(events) + {e.sn}
    ensures AllOfLog(l, events) && OfLog(l, e) ==> AllOfLog(l, InsertEvent(events, e))
  {
    hide Numbers, OfLog;
    if events == [] || events[|events| - 1].sn <= e.sn {
      NumbersAdd(events, e);
    } else {
      var front, last := events[..|events| - 1], events[|events| - 1];
      NumbersAdd(front, last);
      assert front + [last] == events;
      InsertNumbers(l, front, e);
      NumbersAdd(InsertEvent(front, e), last);
    }
  }

  lemma {:induction false} InsertAscends(events: seq<Event>, e: Event, m: nat)
    requires Ascending(events) && (forall i :: 0 <= i < |events| ==> events[i].sn != e.sn && events[i].sn < m)
      && e.sn < m
    ensures var out := InsertEvent(events, e); Ascending(out) && forall i :: 0 <= i < |out| ==> out[i].sn < m
  {
    if events != [] && events[|events| - 1].sn > e.sn {
      InsertAscends(events[..|events| - 1], e, events[|events| - 1].sn);
    }
  }

  lemma InsertKeeps(l: seq<Event>, events: seq<Event>, e: Event)
    requires Ascending(events) && e.sn !in Numbers(events) && AllOfLog(l, events) && OfLog(l, e)
    ensures var out := InsertEvent(events, e);
      Ascending(out) && AllOfLog(l, out) && Numbers(out) == Numbers(events) + {e.sn}
  {
    InsertNumbers(l, events, e);
    forall i | 0 <= i < |events| ensures events[i].sn != e.sn && events[i].sn < |l| + 1 {
      assert events[i].sn in Numbers(events);
    }
    InsertAscends(events, e, |l| + 1);
  }

  lemma NumbersAdd(events: seq<Event>, e: Event)
    ensures Numbers(events + [e]) == Numbers(events) + {e.sn}
  {
    forall n | n in Numbers(events) ensures n in Numbers(events + [e]) {
      var x :| x in events && x.sn == n;
      assert x in events + [e];
    }
    assert (events + [e])[|events|] == e;
  }

  lemma LastNumber(events: seq<Event>)
    ensures if events == [] then Numbers(events) == {} else events[|events| - 1].sn in Numbers(events)
  {
  }

  /** Events in order are determined by their numbers. */
  lemma {:induction false} AscendingUnique(l: seq<Event>, a: seq<Event>, b: seq<Event>)
    requires Ascending(a) && Ascending(b) && AllOfLog(l, a) && AllOfLog(l, b) && Numbers(a) == Numbers(b)
    ensures a == b
  {
    hide Numbers;
    LastNumber(a);
    LastNumber(b);
    if a != [] && b != [] {
      var x, y := a[|a| - 1], b[|b| - 1];
      LastIsMax(a, y.sn);
      LastIsMax(b, x.sn);
      FrontNumbers(a);
      FrontNumbers(b);
      AscendingUnique(l, a[..|a| - 1], b[..|b| - 1]);
      assert a == a[..|a| - 1] + [x] && b == b[..|b| - 1] + [y];
    }
  }

  lemma LastIsMax(a: seq<Event>, n: nat)
    requires Ascending(a) && a != [] && n in Numbers(a)
    ensures n <= a[|a| - 1].sn
  {
    var e :| e in a && e.sn == n;
    var i :| 0 <= i < |a| && a[i] == e;
  }

  lemma FrontNumbers(a: seq<Event>)
    requires Ascending(a) && a != []
    ensures Numbers(a[..|a| - 1]) == Numbers(a) - {a[|a| - 1].sn}
  {
    var front, last := a[..|a| - 1], a[|a| - 1];
    assert a == front + [last];
    NumbersAdd(front, last);
    forall e | e in front ensures e.sn < last.sn { var i :| 0 <= i < |front| && front[i] == e; }
  }

  // ---- the view ----

  /** A number lies in a loaded segment. */
  predicate Owns(t: View, i: nat, n: nat)
    requires i < |t.segs|
  {
    t.segs[i].first <= n && Before(t, i, n)
  }

  /** The numbers among these that lie in a segment. */
  function Share(t: View, i: nat, numbers: set<nat>): set<nat>
    requires i < |t.segs|
  {
    set n | n in numbers && Owns(t, i, n)
  }

  function Held(t: View, i: nat): set<nat>
    requires i < |t.segs|
  {
    Numbers(t.segs[i].events)
  }

  /** A segment holds, in order, the events of its range that have been seen. */
  ghost predicate Filed(l: seq<Event>, t: View, i: nat)
    requires i < |t.segs|
  {
    var evs := t.segs[i].events;
    Ascending(evs) && AllOfLog(l, evs) && Held(t, i) == Share(t, i, t.seen)
  }

  predicate Folded(s: Seg) { s.fold == FoldFrom(Seeded(s.seed), s.events) }

  predicate Cursors(t: View) {
    && (forall n :: n in t.seen ==> n <= t.lastSeq)
    && (t.segs != [] ==> forall n :: n in t.seen ==> t.segs[0].first <= n)
    && (t.segs != [] ==> t.segs[|t.segs| - 1].first <= t.lastSeq + 1) && (t.below != [] ==> t.below[0] <= t.lastSeq + 1)
  }

  ghost predicate AllFiled(l: seq<Event>, t: View) {
    Shape(t) && Cursors(t) && forall i :: 0 <= i < |t.segs| ==> Filed(l, t, i)
  }

  /** The same segments, in the same places. */
  predicate SamePlaces(t: View, t': View) {
    && |t'.segs| == |t.segs| && t'.below == t.below && t'.detached == t.detached && t'.hasOlder == t.hasOlder
    && forall i :: 0 <= i < |t.segs| ==> t'.segs[i].first == t.segs[i].first && t'.segs[i].seed == t.segs[i].seed
  }

  lemma OneOwner(t: View, i: nat, j: nat, n: nat)
    requires Shape(t) && i < |t.segs| && j < |t.segs| && Owns(t, i, n) && Owns(t, j, n)
    ensures i == j
  {
  }

  lemma {:induction false} OwnerIsFound(t: View, i: nat, n: nat, k: nat)
    requires Shape(t) && i < k <= |t.segs| && Owns(t, i, n)
    ensures SegOf(t, n, k) == Some(i)
  {
    if n < t.segs[k - 1].first { OwnerIsFound(t, i, n, k - 1); }
  }

  lemma ShareIsSame(t: View, t': View, i: nat, numbers: set<nat>)
    requires SamePlaces(t, t') && i < |t.segs|
    ensures Share(t', i, numbers) == Share(t, i, numbers)
  {
    forall n: nat ensures Owns(t', i, n) <==> Owns(t, i, n) {}
  }

  lemma ShareAdds(t: View, i: nat, a: set<nat>, b: set<nat>)
    requires i < |t.segs|
    ensures Share(t, i, a + b) == Share(t, i, a) + Share(t, i, b)
  {
    hide Owns;
  }

  lemma ShareOfOne(t: View, i: nat, n: nat)
    requires i < |t.segs|
    ensures Share(t, i, {n}) == if Owns(t, i, n) then {n} else {}
  {
    hide Owns;
  }

  /** The view t' is t with the events of these numbers filed. */
  ghost predicate TookAll(t: View, t': View, numbers: set<nat>) {
    && SamePlaces(t, t')
    && (t'.lastSeq == t.lastSeq || t'.lastSeq in numbers) && t.lastSeq <= t'.lastSeq
    && (forall n :: n in numbers ==> n <= t'.lastSeq)
    && forall i :: 0 <= i < |t.segs| ==> Held(t', i) == Held(t, i) + Share(t, i, numbers)
  }

  lemma TookBoth(t: View, t1: View, t2: View, a: set<nat>, b: set<nat>)
    requires TookAll(t, t1, a) && TookAll(t1, t2, b)
    ensures TookAll(t, t2, a + b)
  {
    hide Share, Held;
    forall i | 0 <= i < |t.segs| ensures Held(t2, i) == Held(t, i) + Share(t, i, a + b) {
      ShareIsSame(t, t1, i, b);
      ShareAdds(t, i, a, b);
      assert Held(t2, i) == Held(t1, i) + Share(t1, i, b) && Held(t1, i) == Held(t, i) + Share(t, i, a);
    }
  }

  lemma TookNone(t: View)
    ensures TookAll(t, t, {})
  {
  }

  /** Events entered in segment k. */
  function Entered(t: View, k: nat, s: Seg, n: nat, last: nat): View
    requires k < |t.segs|
  {
    t.(seen := t.seen + {n}, lastSeq := last, segs := t.segs[k := s])
  }

  lemma EnteredFiled(l: seq<Event>, t: View, k: nat, s: Seg, n: nat, last: nat)
    requires AllFiled(l, t) && k < |t.segs| && Owns(t, k, n) && last == (if n > t.lastSeq then n else t.lastSeq)
    requires s.first == t.segs[k].first && s.seed == t.segs[k].seed && Ascending(s.events) && AllOfLog(l, s.events)
    requires Numbers(s.events) == Numbers(t.segs[k].events) + {n}
    ensures AllFiled(l, Entered(t, k, s, n, last)) && TookAll(t, Entered(t, k, s, n, last), {n})
  {
    var t' := Entered(t, k, s, n, last);
    assert SamePlaces(t, t') && Shape(t') && Cursors(t');
    hide Shape, Cursors, Share, SamePlaces, Owns, AllOfLog, Ascending, Numbers;
    forall i | 0 <= i < |t.segs| ensures Filed(l, t', i) && Held(t', i) == Held(t, i) + Share(t, i, {n}) {
      assert Filed(l, t, i);
      ShareIsSame(t, t', i, t.seen + {n});
      ShareAdds(t, i, t.seen, {n});
      ShareOfOne(t, i, n);
      if i != k && Owns(t, i, n) { OneOwner(t, i, k, n); }
    }
  }

  lemma LateFiled(l: seq<Event>, t: View, k: nat, e: Event)
    requires AllFiled(l, t) && OfLog(l, e) && e.sn !in t.seen && e.sn <= t.lastSeq && k < |t.segs| && Owns(t, k, e.sn)
    ensures var t' := Entered(t, k, t.segs[k].(events := InsertEvent(t.segs[k].events, e)), e.sn, t.lastSeq);
      AllFiled(l, t') && TookAll(t, t', {e.sn})
  {
    FiledAt(l, t, k);
    hide Owns, AllFiled, TookAll;
    InsertKeeps(l, t.segs[k].events, e);
    EnteredFiled(l, t, k, t.segs[k].(events := InsertEvent(t.segs[k].events, e)), e.sn, t.lastSeq);
  }

  lemma FiledAt(l: seq<Event>, t: View, i: nat)
    requires AllFiled(l, t) && i < |t.segs|
    ensures Ascending(t.segs[i].events) && AllOfLog(l, t.segs[i].events)
    ensures forall n :: n in Numbers(t.segs[i].events) <==> n in t.seen && Owns(t, i, n)
    ensures forall n :: n in Numbers(t.segs[i].events) ==> n <= t.lastSeq
  {
    assert Filed(l, t, i);
    assert forall n :: n in Held(t, i) <==> n in Share(t, i, t.seen);
  }

  /** Following: the newest event belongs to the live tail. */
  lemma TailOwns(t: View, n: nat)
    requires Shape(t) && Cursors(t) && n > t.lastSeq && !t.detached
    ensures Owns(t, |t.segs| - 1, n)
  {
  }

  /** Detached, it belongs to no loaded segment. */
  lemma NobodyOwns(t: View, i: nat, n: nat)
    requires Shape(t) && Cursors(t) && n > t.lastSeq && t.detached && i < |t.segs|
    ensures !Owns(t, i, n)
  {
    BelowLast(t, i, 0);
  }

  lemma NextFiled(l: seq<Event>, t: View, e: Event)
    requires AllFiled(l, t) && OfLog(l, e) && e.sn > t.lastSeq && !t.detached
    ensures var n := |t.segs| - 1;
      var s := t.segs[n].(events := t.segs[n].events + [e], fold := Push(t.segs[n].fold, e));
      var t' := Entered(t, n, s, e.sn, e.sn);
      AllFiled(l, t') && TookAll(t, t', {e.sn})
  {
    var n := |t.segs| - 1;
    var evs := t.segs[n].events;
    FiledAt(l, t, n);
    TailOwns(t, e.sn);
    hide Owns, AllFiled, TookAll, Push;
    forall i | 0 <= i < |evs| ensures evs[i].sn < e.sn { assert evs[i].sn in Numbers(evs); }
    NumbersAdd(evs, e);
    EnteredFiled(l, t, n, t.segs[n].(events := evs + [e], fold := Push(t.segs[n].fold, e)), e.sn, e.sn);
  }

  lemma AwayFiled(l: seq<Event>, t: View, e: Event)
    requires AllFiled(l, t) && e.sn > t.lastSeq && t.detached
    ensures var t' := t.(seen := t.seen + {e.sn}, lastSeq := e.sn); AllFiled(l, t') && TookAll(t, t', {e.sn})
  {
    var t' := t.(seen := t.seen + {e.sn}, lastSeq := e.sn);
    assert SamePlaces(t, t') && Shape(t') && Cursors(t');
    forall i | 0 <= i < |t.segs| ensures !Owns(t, i, e.sn) { NobodyOwns(t, i, e.sn); }
    hide Shape, Cursors, Share, SamePlaces, Owns, Numbers;
    forall i | 0 <= i < |t.segs| ensures Filed(l, t', i) && Held(t', i) == Held(t, i) + Share(t, i, {e.sn}) {
      assert Filed(l, t, i);
      ShareIsSame(t, t', i, t.seen + {e.sn});
      ShareAdds(t, i, t.seen, {e.sn});
      ShareOfOne(t, i, e.sn);
    }
  }

  lemma SeenFiled(l: seq<Event>, t: View, e: Event)
    requires AllFiled(l, t) && (e.sn in t.seen || (e.sn <= t.lastSeq && SegOf(t, e.sn, |t.segs|).None?))
    ensures TookAll(t, t, {e.sn})
  {
    forall i | 0 <= i < |t.segs| ensures Held(t, i) == Held(t, i) + Share(t, i, {e.sn}) {
      ShareOfOne(t, i, e.sn);
      FiledAt(l, t, i);
      if Owns(t, i, e.sn) { OwnerIsFound(t, i, e.sn, |t.segs|); }
    }
  }

  lemma PushFolds(s: Seg, e: Event)
    requires Folded(s)
    ensures Folded(s.(events := s.events + [e], fold := Push(s.fold, e)))
  {
    assert (s.events + [e])[..|s.events|] == s.events;
  }

  lemma DeliverFiles(l: seq<Event>, t: View, e: Event)
    requires AllFiled(l, t) && OfLog(l, e)
    ensures AllFiled(l, Deliver(t, e).0) && TookAll(t, Deliver(t, e).0, {e.sn})
  {
    hide Filed, TookAll, Cursors, OfLog;
    NotEmptyShape(l, t);
    if e.sn in t.seen {
      SeenFiled(l, t, e);
    } else if e.sn > t.lastSeq {
      if t.detached { AwayFiled(l, t, e); } else { FollowIs(t, e); NextFiled(l, t, e); }
    } else {
      var k := SegOf(t, e.sn, |t.segs|);
      if k.None? { SeenFiled(l, t, e); } else { LateFiled(l, t, k.value, e); }
    }
  }

  lemma FollowIs(t: View, e: Event)
    requires t.segs != [] && e.sn !in t.seen && e.sn > t.lastSeq && !t.detached
    ensures var n := |t.segs| - 1;
      Deliver(t, e) == (Entered(t, n, t.segs[n].(events := t.segs[n].events + [e], fold := Push(t.segs[n].fold, e)),
        e.sn, e.sn), None)
  {
    var n, s := |t.segs| - 1, t.segs[|t.segs| - 1];
    var s' := s.(events := s.events + [e], fold := Push(s.fold, e));
    assert t.segs[..n] + [s'] == t.segs[n := s'];
  }

  lemma NotEmptyShape(l: seq<Event>, t: View)
    requires AllFiled(l, t)
    ensures t.segs != []
  {
  }

  // ---- batches ----

  lemma DeliverNone(t: View)
    ensures DeliverAll(t, []) == (t, {}) && TookAll(t, t, Numbers([]))
  {
    TookNone(t);
    assert Numbers([]) == {};
  }

  lemma ApplyRefolds(t: View, events: seq<Event>)
    ensures var (t1, late) := DeliverAll(t, events);
      && Apply(t, events) == t1.(segs := RefoldSegs(t1.segs, late)) && SamePlaces(t1, Apply(t, events))
      && forall i :: 0 <= i < |t1.segs| ==> Apply(t, events).segs[i].events == t1.segs[i].events
  {
    hide DeliverAll;
  }

  /** Folding again moves no event. */
  lemma SameEventsTook(t: View, t1: View, t2: View, numbers: set<nat>)
    requires TookAll(t, t1, numbers) && SamePlaces(t1, t2) && t2.lastSeq == t1.lastSeq
    requires forall i :: 0 <= i < |t1.segs| ==> t2.segs[i].events == t1.segs[i].events
    ensures TookAll(t, t2, numbers)
  {
    hide Share, Numbers;
    forall i | 0 <= i < |t.segs| ensures Held(t2, i) == Held(t, i) + Share(t, i, numbers) {
      assert Held(t2, i) == Held(t1, i);
    }
  }

  lemma SameEventsFiled(l: seq<Event>, t1: View, t2: View)
    requires AllFiled(l, t1) && SamePlaces(t1, t2) && t2.lastSeq == t1.lastSeq && t2.seen == t1.seen
    requires forall i :: 0 <= i < |t1.segs| ==> t2.segs[i].events == t1.segs[i].events
    ensures AllFiled(l, t2)
  {
    assert Shape(t2) && Cursors(t2);
    hide Shape, Cursors, SamePlaces, Share, Numbers, Ascending, AllOfLog;
    forall i | 0 <= i < |t2.segs| ensures Filed(l, t2, i) {
      assert Filed(l, t1, i);
      ShareIsSame(t1, t2, i, t1.seen);
    }
  }

  function ApplyEach(t: View, batches: seq<seq<Event>>): View {
    if batches == [] then t else Apply(ApplyEach(t, batches[..|batches| - 1]), batches[|batches| - 1])
  }

  function NumbersIn(batches: seq<seq<Event>>): set<nat> {
    if batches == [] then {} else NumbersIn(batches[..|batches| - 1]) + Numbers(batches[|batches| - 1])
  }

  lemma SameNumbers(t: View, ta: View, tb: View, numbers: set<nat>, i: nat)
    requires TookAll(t, ta, numbers) && TookAll(t, tb, numbers) && i < |t.segs|
    ensures Numbers(ta.segs[i].events) == Numbers(tb.segs[i].events)
  {
    hide Share, Numbers;
    assert Held(ta, i) == Held(tb, i);
  }

  // ---- what a segment holds ----

  lemma AllEvents(l: seq<Event>, evs: seq<Event>, a: nat, b: nat)
    requires Log(l) && 1 <= a <= b <= |l| + 1 && Ascending(evs) && AllOfLog(l, evs) && Exactly(Numbers(evs), a, b)
    ensures evs == l[a - 1..b - 1]
  {
    LogNumbered(l);
    hide Log;
    SliceOfLog(l, a, b);
    NumbersOfSlice(l, a, b);
    assert Numbers(evs) == Numbers(l[a - 1..b - 1]);
    AscendingUnique(l, evs, l[a - 1..b - 1]);
  }

  lemma HiOwns(t: View, i: nat)
    requires Shape(t) && Cursors(t) && i < |t.segs|
    ensures forall n :: n in t.seen ==> (Owns(t, i, n) <==> t.segs[i].first <= n < Hi(t, i))
  {
  }

  lemma SliceOfLog(l: seq<Event>, a: nat, b: nat)
    requires Numbered(l) && 1 <= a <= b <= |l| + 1
    ensures Ascending(l[a - 1..b - 1]) && AllOfLog(l, l[a - 1..b - 1])
  {
  }

  /** In a view that is in step each segment holds the events of its range. */
  lemma StepAllFiled(l: seq<Event>, t: View)
    requires Log(l) && Inv(l, t)
    ensures AllFiled(l, t)
  {
    hide Inv, Log, Filed, Shape, Cursors, SeenOK;
    StepShape(l, t);
    forall i | 0 <= i < |t.segs| ensures Filed(l, t, i) { StepFiled(l, t, i); }
  }

  lemma StepFiled(l: seq<Event>, t: View, i: nat)
    requires Log(l) && Inv(l, t) && i < |t.segs|
    ensures Filed(l, t, i)
  {
    hide Log, Inv;
    LogNumbered(l);
    LoadedEnds(l, t);
    StepShape(l, t);
    SegSlice(l, t, i);
    SliceOfLog(l, t.segs[i].first, Hi(t, i));
    NumbersOfSlice(l, t.segs[i].first, Hi(t, i));
    HiOwns(t, i);
    LoadedSeen(l, t, i);
    HeldShare(t, i);
  }

  lemma HeldShare(t: View, i: nat)
    requires i < |t.segs| && Exactly(Numbers(t.segs[i].events), t.segs[i].first, Hi(t, i))
    requires forall n :: n in t.seen ==> (Owns(t, i, n) <==> t.segs[i].first <= n < Hi(t, i))
    requires forall n :: t.segs[i].first <= n < Hi(t, i) ==> n in t.seen
    ensures Held(t, i) == Share(t, i, t.seen)
  {
    hide Owns, Hi, Numbers;
  }

  lemma StepShape(l: seq<Event>, t: View)
    requires Inv(l, t)
    ensures Shape(t) && Cursors(t) && SeenOK(t)
  {
    LoadedEnds(l, t);
    if t.below != [] { BelowFacts(l, t); }
  }

  lemma SegSlice(l: seq<Event>, t: View, i: nat)
    requires Inv(l, t) && i < |t.segs|
    ensures 1 <= t.segs[i].first <= Hi(t, i) <= |l| + 1 && t.segs[i].events == l[t.segs[i].first - 1..Hi(t, i) - 1]
  {
    assert SegOK(l, t.segs[i], Hi(t, i));
  }

  lemma LoadedSeen(l: seq<Event>, t: View, i: nat)
    requires Shape(t) && SeenOK(t) && i < |t.segs| && t.segs[|t.segs| - 1].first <= Hi(t, |t.segs| - 1)
    ensures forall n :: t.segs[i].first <= n < Hi(t, i) ==> n in t.seen
  {
    HiMonotone(t, i, |t.segs| - 1);
    assert t.segs[0].first <= t.segs[i].first;
  }

  // ---- back in step ----

  /** No loaded number up to the newest is missing. */
  ghost predicate NoGap(t: View)
    requires t.segs != []
  {
    forall n :: t.segs[0].first <= n < Hi(t, |t.segs| - 1) ==> n in t.seen
  }

  predicate Placed(l: seq<Event>, first: nat, seed: nat) { CleanCut(l, first) && SeedFits(l, first, seed) }

  /** What a view in step fixes for good: where its segments start and what they are seeded with. */
  ghost predicate Places(l: seq<Event>, t: View) {
    && (forall i :: 0 <= i < |t.segs| ==> Placed(l, t.segs[i].first, t.segs[i].seed))
    && CutsOK(l, t.below, t.lastSeq) && t.segs != [] && (t.hasOlder <==> t.segs[0].first > 1)
  }

  lemma PlacesOf(l: seq<Event>, t: View)
    requires Inv(l, t)
    ensures Places(l, t)
  {
    hide CleanCut, SeedFits, Shows, TailOK, CutsOK;
    forall i | 0 <= i < |t.segs| ensures Placed(l, t.segs[i].first, t.segs[i].seed) {
      assert SegOK(l, t.segs[i], Hi(t, i));
    }
  }

  lemma PlacesStay(l: seq<Event>, t: View, t': View)
    requires Places(l, t) && SamePlaces(t, t') && t.lastSeq <= t'.lastSeq <= |l|
    ensures Places(l, t')
  {
    hide CleanCut, Placed;
    forall i | 0 <= i < |t'.segs| ensures Placed(l, t'.segs[i].first, t'.segs[i].seed) {
      assert Placed(l, t.segs[i].first, t.segs[i].seed);
    }
  }

  lemma PlacesHave(l: seq<Event>, t: View)
    requires Places(l, t)
    ensures t.segs != [] && CutsOK(l, t.below, t.lastSeq) && (t.hasOlder <==> t.segs[0].first > 1)
  {
    hide CleanCut;
  }

  lemma TookPlaces(t: View, t': View, numbers: set<nat>)
    requires TookAll(t, t', numbers)
    ensures SamePlaces(t, t') && t.lastSeq <= t'.lastSeq
  {
  }

  lemma LastInLog(l: seq<Event>, t: View)
    requires Inv(l, t)
    ensures t.lastSeq <= |l|
  {
  }
}
