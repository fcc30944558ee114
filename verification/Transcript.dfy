/** The transcript as the client keeps it: an object that pages, live events and scrolling change in place. Each method
    is proved to change it as PagesSpec says; a request's answer is an argument. */
module TranscriptClass {
  import opened Options
  import opened FoldSpec
  import opened PagesSpec
  import opened PagesRun

  /** The segment a number belongs to, searched from the newest. */
  method FindSeg(segs: seq<Seg>, below: seq<nat>, sn: nat) returns (at: Option<nat>)
    ensures forall t: View :: t.segs == segs && t.below == below ==> at == SegOf(t, sn, |segs|)
  {
    var i := |segs|;
    while i > 0
      invariant 0 <= i <= |segs|
      invariant forall t: View :: t.segs == segs && t.below == below ==> SegOf(t, sn, i) == SegOf(t, sn, |segs|)
    {
      i := i - 1;
      if sn >= segs[i].first {
        var inside := if i < |segs| - 1 then sn < segs[i + 1].first else below == [] || sn < below[0];
        return if inside then Some(i) else None;
      }
    }
    return None;
  }

  /** A late event's place: behind the last event that is not newer. */
  method Splice(events: seq<Event>, e: Event) returns (out: seq<Event>)
    ensures out == InsertEvent(events, e)
  {
    var i := |events|;
    assert events[..i] == events && InsertEvent(events, e) + [] == InsertEvent(events, e);
    while i > 0 && events[i - 1].sn > e.sn
      invariant i <= |events| && InsertEvent(events[..i], e) + events[i..] == InsertEvent(events, e)
    {
      assert events[..i][..i - 1] == events[..i - 1] && events[i - 1..] == [events[i - 1]] + events[i..];
      i := i - 1;
    }
    out := events[..i] + [e] + events[i..];
  }

  /** The keys of the blocks opened before a cut, and the others. */
  method SplitKeys(keys: seq<Key>, cut: nat) returns (older: seq<Key>, newer: seq<Key>)
    ensures older == KeysBelow(keys, cut) && newer == KeysFrom(keys, cut)
  {
    older, newer := [], [];
    for i := 0 to |keys|
      invariant older == KeysBelow(keys[..i], cut) && newer == KeysFrom(keys[..i], cut)
    {
      assert keys[..i + 1][..i] == keys[..i];
      if keys[i] < cut { older := older + [keys[i]]; } else { newer := newer + [keys[i]]; }
    }
    assert keys[..|keys|] == keys;
  }

  class Transcript {
    var segs: seq<Seg>
    var seen: set<nat>
    var hasOlder: bool
    var detached: bool
    var below: seq<nat>
    var lastSeq: nat

    function V(): View
      reads this
    {
      View(segs, seen, hasOlder, detached, below, lastSeq)
    }

    constructor ()
      ensures V() == CLOSED
    {
      segs, seen, hasOlder, detached, below, lastSeq := [], {}, false, false, [], 0;
    }

    // ---- loading ----

    method OpenAtTail(p: Page)
      modifies this
      ensures V() == OpenTail(p)
    {
      hasOlder, detached, below := p.hasOlder, false, [];
      var first := if p.events != [] then p.events[0].sn else p.next + 1;
      segs := [MakeSeg(p.events, p.seed, first)];
      seen := Numbers(p.events);
      var last := if p.events != [] then p.events[|p.events| - 1].sn else 0;
      lastSeq := if p.next > last then p.next else last;
    }

    method AddOlder(p: Page) returns (changed: bool)
      modifies this
      ensures V() == LoadOlder(old(V()), p)
      ensures !changed ==> V() == old(V())
    {
      if !hasOlder || segs == [] { return false; }
      var first := segs[0].first;
      var evs: seq<Event> := [];
      for i := 0 to |p.events|
        invariant evs == Unseen(p.events[..i], first, seen)
      {
        assert p.events[..i + 1][..i] == p.events[..i];
        var e := p.events[i];
        if e.sn < first && e.sn !in seen { evs := evs + [e]; }
      }
      assert p.events[..|p.events|] == p.events;
      hasOlder := p.hasOlder && evs != [];
      if evs != [] {
        seen := seen + Numbers(evs);
        segs := [MakeSeg(evs, 0, evs[0].sn)] + segs;
      }
      return true;
    }

    method AddNewer(p: Page) returns (changed: bool)
      modifies this
      ensures V() == LoadNewer(old(V()), p)
      ensures !changed ==> V() == old(V())
    {
      if below == [] || segs == [] { return false; }
      var from, until := below[0], if |below| > 1 then Some(below[1]) else None;
      var evs: seq<Event> := [];
      for i := 0 to |p.events|
        invariant evs == Within(p.events[..i], from, until)
      {
        assert p.events[..i + 1][..i] == p.events[..i];
        var e := p.events[i];
        if e.sn >= from && (until.None? || e.sn < until.value) { evs := evs + [e]; }
      }
      assert p.events[..|p.events|] == p.events;
      segs := segs + [MakeSeg(evs, 0, from)];
      seen := seen + Numbers(evs);
      below := below[1..];
      if until.None? {
        detached, below := false, [];
        if evs != [] && evs[|evs| - 1].sn > lastSeq { lastSeq := evs[|evs| - 1].sn; }
      }
      return true;
    }

    /** The live tail falls in two at the server's cut; no block is folded again. */
    method SplitLiveTail(p: Page, limit: nat) returns (changed: bool)
      modifies this`segs
      ensures V() == SplitTail(old(V()), p, limit)
      ensures !changed ==> V() == old(V())
    {
      if detached || segs == [] || |segs[|segs| - 1].events| <= 3 * limit { return false; }
      var tail, cut := segs[|segs| - 1], p.nextBefore;
      var i := 0;
      while i < |tail.events| && tail.events[i].sn < cut
        invariant i <= |tail.events| && FirstFrom(tail.events, cut) == i + FirstFrom(tail.events[i..], cut)
      {
        assert tail.events[i..][1..] == tail.events[i + 1..];
        i := i + 1;
      }
      if !p.hasOlder || cut <= tail.first || i == |tail.events| { return false; }
      var older, newer := SplitKeys(tail.fold.blocks, cut);
      var f := tail.fold.(blocks := newer, heap := Reached(tail.fold, cut), tools := Without(tail.fold.tools, cut),
                          byId := Without(tail.fold.byId, cut), perms := Without(tail.fold.perms, cut),
                          asks := Without(tail.fold.asks, cut));
      var part := EMPTY.(blocks := older, heap := tail.fold.heap);
      segs := segs[..|segs| - 1] +
        [Seg(tail.first, tail.events[..i], part, tail.seed), Seg(cut, tail.events[i..], f, p.seed)];
      return true;
    }

    // ---- live events ----

    /** One event; a late one is filed in its segment, whose place is returned. */
    method Take(e: Event) returns (late: Option<nat>)
      modifies this
      ensures (V(), late) == Deliver(old(V()), e)
    {
      late := None;
      if e.sn in seen { return; }
      if e.sn > lastSeq {
        seen, lastSeq := seen + {e.sn}, e.sn;
        if !detached && segs != [] {
          var tail := segs[|segs| - 1];
          segs := segs[..|segs| - 1] + [tail.(events := tail.events + [e], fold := Push(tail.fold, e))];
        }
      } else {
        late := FindSeg(segs, below, e.sn);
        assert late == SegOf(V(), e.sn, |segs|);
        if late.Some? {
          var s := segs[late.value];
          var evs := Splice(s.events, e);
          seen := seen + {e.sn};
          segs := segs[late.value := s.(events := evs)];
        }
      }
    }

    /** A batch of live events, then the segments that got a late one are folded again. */
    method ApplyBatch(events: seq<Event>)
      modifies this
      ensures V() == Apply(old(V()), events)
    {
      var late: set<nat> := {};
      ghost var was := V();
      for i := 0 to |events|
        invariant (V(), late) == DeliverAll(was, events[..i])
      {
        assert events[..i + 1][..i] == events[..i];
        var k := Take(events[i]);
        if k.Some? { late := late + {k.value}; }
      }
      assert events[..|events|] == events;
      RefoldLate(late);
    }

    method RefoldLate(late: set<nat>)
      modifies this`segs
      ensures V() == old(V()).(segs := RefoldSegs(old(segs), late))
    {
      ghost var was := segs;
      for i := 0 to |segs|
        invariant |segs| == |was|
        invariant forall j :: 0 <= j < |was| ==> segs[j] == if j < i && j in late then Refold(was[j]) else was[j]
      {
        if i in late { segs := segs[i := Refold(segs[i])]; }
      }
      assert segs == RefoldSegs(was, late);
    }

    // ---- unloading ----

    method Unload(lo: int, hi: int, canDetach: bool) returns (changed: bool)
      modifies this
      ensures V() == Keep(old(V()), lo, hi, canDetach)
      ensures !changed ==> V() == old(V())
    {
      if |segs| < 2 { return false; }
      var ends: seq<nat> := [];
      for i := 0 to |segs|
        invariant |ends| == i && forall j :: 0 <= j < i ==> ends[j] == EndOf(segs, j + 1)
      {
        ends := ends + [(if i > 0 then ends[i - 1] else 0) + |segs[i].fold.blocks|];
      }
      var top, bottom := 0, |segs|;
      while top < |segs| - 1 && ends[top] <= lo
        invariant top < |segs| && DropTop(segs, lo, top) == DropTop(segs, lo, 0)
      {
        top := top + 1;
      }
      while bottom - 1 > top && ends[bottom - 2] >= hi
        invariant top < bottom <= |segs| && DropBottom(segs, hi, top, bottom) == DropBottom(segs, hi, top, |segs|)
      {
        bottom := bottom - 1;
      }
      if bottom < |segs| && !canDetach && !detached { bottom := |segs|; }
      if top == 0 && bottom == |segs| { return false; }
      Drop(top, bottom);
      return true;
    }

    method Drop(top: nat, bottom: nat)
      requires top < bottom <= |segs|
      modifies this
      ensures V() == Window(old(V()), top, bottom)
    {
      var gone := segs[..top] + segs[bottom..];
      if bottom < |segs| {
        below := Firsts(segs[bottom..]) + below;
        detached := true;
      }
      if top > 0 { hasOlder := true; }
      seen := seen - NumbersOf(gone);
      segs := segs[top..bottom];
    }

    // ---- reading ----

    method AllBlocks() returns (out: seq<Key>)
      ensures out == Blocks(segs)
    {
      out := [];
      for i := 0 to |segs|
        invariant out == Blocks(segs[..i])
      {
        assert segs[..i + 1][..i] == segs[..i];
        out := out + segs[i].fold.blocks;
      }
      assert segs[..|segs|] == segs;
    }
  }
}
