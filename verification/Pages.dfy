/** The loaded blocks are always one contiguous slice of the whole log's fold. */
module Pages {
  import opened Options
  import opened FoldSpec
  import opened FoldSim
  import opened FoldSplit
  import opened PagesSpec

  // ---- the log ----

  /** A session's log: numbered from 1, with rising turn numbers. */
  predicate Log(l: seq<Event>) { (forall i :: 0 <= i < |l| ==> l[i].sn == i + 1) && TurnsRise(0, l) }

  /** The fold of the first n events. */
  function Whole(l: seq<Event>, n: nat): Fold
    requires n <= |l|
  {
    FoldFrom(EMPTY, l[..n])
  }

  /** A fold may start at `cut`: no later event refers to anything before it. */
  predicate CleanCut(l: seq<Event>, cut: nat) {
    1 <= cut <= |l| + 1 && CleanRun(cut, Whole(l, cut - 1), l[cut - 1..])
  }

  /** A turn number a page starting at `cut` may be seeded with. */
  predicate SeedFits(l: seq<Event>, cut: nat, seed: nat)
    requires 1 <= cut <= |l| + 1
  {
    TurnsRise(Seeded(seed).turn, l[cut - 1..])
  }

  function Shown(l: seq<Event>, lo: nat, hi: nat): seq<Key>
    requires 1 <= lo <= hi <= |l| + 1
  {
    var a, b := Whole(l, lo - 1).blocks, Whole(l, hi - 1).blocks;
    if |a| <= |b| then b[|a|..] else []
  }

  /** f shows exactly what the whole fold opened in [lo, hi). */
  ghost predicate Shows(l: seq<Event>, lo: nat, hi: nat, f: Fold)
    requires 1 <= lo <= hi <= |l| + 1
  {
    && f.blocks == Shown(l, lo, hi)
    && forall k :: lo <= k < hi ==>
         && (k in f.heap <==> k in Whole(l, hi - 1).heap)
         && (k in f.heap ==> f.heap[k] == Whole(l, hi - 1).heap[k])
  }

  lemma WholeBelow(l: seq<Event>, n: nat)
    requires Log(l) && n <= |l|
    ensures Below(n + 1, Whole(l, n))
  {
    PrefixRises(0, l, n);
    FoldBelow(n + 1, EMPTY, l[..n]);
  }

  lemma WholeAfter(l: seq<Event>, c: nat, n: nat)
    requires 1 <= c <= n + 1 && n <= |l|
    ensures Whole(l, n) == FoldFrom(Whole(l, c - 1), l[c - 1..n])
  {
    FoldConcat(EMPTY, l[..c - 1], l[c - 1..n]);
    assert l[..c - 1] + l[c - 1..n] == l[..n];
  }

  lemma RisesFrom(l: seq<Event>, c: nat, n: nat)
    requires Log(l) && 1 <= c <= n + 1 && n <= |l|
    ensures TurnsRise(Whole(l, c - 1).turn, l[c - 1..n])
  {
    assert l == l[..c - 1] + l[c - 1..];
    SuffixRises(0, l[..c - 1], l[c - 1..]);
    FoldTurn(EMPTY, l[..c - 1]);
    PrefixRises(Whole(l, c - 1).turn, l[c - 1..], n - c + 1);
    assert l[c - 1..][..n - c + 1] == l[c - 1..n];
  }

  /** What a clean cut closes off never changes again, and a fold started there stays a piece of the whole. */
  lemma CutHolds(l: seq<Event>, c: nat, n: nat, h: Fold)
    requires Log(l) && CleanCut(l, c) && c - 1 <= n <= |l|
    requires Sim(c, |Whole(l, c - 1).blocks|, Whole(l, c - 1), h) && TurnsRise(h.turn, l[c - 1..])
    ensures Sim(c, |Whole(l, c - 1).blocks|, Whole(l, n), FoldFrom(h, l[c - 1..n]))
    ensures OldKept(c, |Whole(l, c - 1).blocks|, Whole(l, c - 1), Whole(l, n))
  {
    SliceIsPrefix(l, c, n);
    CleanTo(c, Whole(l, c - 1), l[c - 1..], l[c - 1..n], n - c + 1);
    RisesTo(l, c, n, h.turn);
    RisesFrom(l, c, n);
    WholeAfter(l, c, n);
    RunSim(c, |Whole(l, c - 1).blocks|, Whole(l, c - 1), h, l[c - 1..n]);
  }

  lemma SliceIsPrefix(l: seq<Event>, c: nat, n: nat)
    requires Log(l) && 1 <= c <= n + 1 && n <= |l|
    ensures l[c - 1..n] == l[c - 1..][..n - c + 1] && Between(c, |l| + 1, l[c - 1..n])
  {
  }

  lemma CleanTo(c: nat, f: Fold, suffix: seq<Event>, evs: seq<Event>, n: nat)
    requires CleanRun(c, f, suffix) && n <= |suffix| && evs == suffix[..n]
    ensures CleanRun(c, f, evs)
  {
    PrefixClean(c, f, suffix, n);
  }

  lemma RisesTo(l: seq<Event>, c: nat, n: nat, turn: int)
    requires 1 <= c <= n + 1 && n <= |l| && TurnsRise(turn, l[c - 1..]) && l[c - 1..n] == l[c - 1..][..n - c + 1]
    ensures TurnsRise(turn, l[c - 1..n])
  {
    PrefixRises(turn, l[c - 1..], n - c + 1);
  }

  lemma FreshHolds(l: seq<Event>, c: nat, n: nat, seed: nat)
    requires Log(l) && CleanCut(l, c) && c - 1 <= n <= |l| && SeedFits(l, c, seed)
    ensures Sim(c, |Whole(l, c - 1).blocks|, Whole(l, n), FoldFrom(Seeded(seed), l[c - 1..n]))
    ensures OldKept(c, |Whole(l, c - 1).blocks|, Whole(l, c - 1), Whole(l, n))
  {
    WholeBelow(l, c - 1);
    FreshPiece(c, Whole(l, c - 1), seed);
    CutHolds(l, c, n, Seeded(seed));
  }

  /** An unseeded fold may start at any cut. */
  lemma NoSeedFits(l: seq<Event>, c: nat)
    requires Log(l) && 1 <= c <= |l| + 1
    ensures SeedFits(l, c, 0)
  {
    RisesFrom(l, c, |l|);
    assert l[c - 1..|l|] == l[c - 1..];
    TurnsPositive(EMPTY.turn, l[..c - 1]);
    FoldTurn(EMPTY, l[..c - 1]);
    LowerStart(0, Whole(l, c - 1).turn, l[c - 1..]);
  }

  lemma {:induction false} TurnsPositive(turn: int, events: seq<Event>)
    requires turn >= 0
    ensures TurnAfter(turn, events) >= 0
  {
    if events != [] { TurnsPositive(turn, events[..|events| - 1]); }
  }

  lemma {:induction false} TurnMonotone(a: int, b: int, events: seq<Event>)
    requires a <= b
    ensures TurnAfter(a, events) <= TurnAfter(b, events)
  {
    if events != [] { TurnMonotone(a, b, events[..|events| - 1]); }
  }

  lemma LowerStart(a: int, b: int, events: seq<Event>)
    requires a <= b && TurnsRise(b, events)
    ensures TurnsRise(a, events)
  {
    forall i | 0 <= i < |events| ensures TurnAfter(a, events[..i]) <= TurnAfter(b, events[..i]) {
      TurnMonotone(a, b, events[..i]);
    }
  }

  lemma SimShows(l: seq<Event>, c: nat, hi: nat, f: Fold)
    requires Log(l) && 1 <= c <= hi <= |l| + 1
    requires Sim(c, |Whole(l, c - 1).blocks|, Whole(l, hi - 1), f)
    ensures Shows(l, c, hi, f)
  {
  }

  /** A segment fetched again shows what it showed, whatever it is seeded with. */
  lemma FetchedShows(l: seq<Event>, c: nat, hi: nat, seed: nat)
    requires Log(l) && CleanCut(l, c) && c <= hi <= |l| + 1 && SeedFits(l, c, seed)
    ensures Shows(l, c, hi, FoldFrom(Seeded(seed), l[c - 1..hi - 1]))
  {
    FreshHolds(l, c, hi - 1, seed);
    SimShows(l, c, hi, FoldFrom(Seeded(seed), l[c - 1..hi - 1]));
  }

  /** Two neighbouring slices are one. */
  lemma ShownJoins(l: seq<Event>, a: nat, b: nat, c: nat)
    requires 1 <= a <= b <= c <= |l| + 1
    requires Whole(l, a - 1).blocks <= Whole(l, b - 1).blocks <= Whole(l, c - 1).blocks
    ensures Shown(l, a, c) == Shown(l, a, b) + Shown(l, b, c)
  {
    hide FoldFrom;
    SlicesJoin(Whole(l, a - 1).blocks, Whole(l, b - 1).blocks, Whole(l, c - 1).blocks);
  }

  lemma SlicesJoin(x: seq<Key>, y: seq<Key>, z: seq<Key>)
    requires x <= y <= z
    ensures z[|x|..] == y[|x|..] + z[|y|..]
  {
  }

  lemma CutKept(l: seq<Event>, c: nat, n: nat)
    requires Log(l) && CleanCut(l, c) && c - 1 <= n <= |l|
    ensures Whole(l, c - 1).blocks <= Whole(l, n).blocks && SameOld(c, Whole(l, c - 1).heap, Whole(l, n).heap)
  {
    NoSeedFits(l, c);
    FreshHolds(l, c, n, 0);
    assert Whole(l, c - 1).blocks == Whole(l, c - 1).blocks[..|Whole(l, c - 1).blocks|];
  }

  // ---- splitting ----

  lemma {:induction false} KeysSplit(a: seq<Key>, b: seq<Key>, cut: nat)
    requires (forall i :: 0 <= i < |a| ==> a[i] < cut) && (forall i :: 0 <= i < |b| ==> b[i] >= cut)
    ensures KeysBelow(a + b, cut) == a && KeysFrom(a + b, cut) == b
  {
    if b != [] {
      var front, last := b[..|b| - 1], b[|b| - 1];
      KeysSplit(a, front, cut);
      assert (a + b)[..|a + b| - 1] == a + front && (a + b)[|a + b| - 1] == last;
      assert b == front + [last] && last >= cut;
    } else if a != [] {
      KeysSplit(a[..|a| - 1], [], cut);
      assert a + b == a && a[..|a| - 1] + [] == a[..|a| - 1];
    }
  }

  lemma WithoutIs<K>(m: map<K, Key>, cut: nat, k: K)
    ensures Find(Without(m, cut), k) == if k in m && m[k] >= cut then Some(m[k]) else None
  {
  }

  /** The tail cut at a later clean cut: its newer part goes on as a piece from there. */
  lemma NewPartHolds(lo: nat, cut: nat, na: nat, nc: nat, g: Fold, f: Fold)
    requires Sim(lo, na, g, f) && lo <= cut
    requires na <= nc <= |g.blocks| && (forall i :: 0 <= i < nc ==> g.blocks[i] < cut)
      && (forall i :: nc <= i < |g.blocks| ==> g.blocks[i] >= cut)
    requires Closed(cut, g.heap)
    ensures Sim(cut, nc, g, NewPart(f, cut))
    ensures KeysBelow(f.blocks, cut) == g.blocks[na..nc]
  {
    var h := NewPart(f, cut);
    assert f.blocks == g.blocks[na..nc] + g.blocks[nc..];
    KeysSplit(g.blocks[na..nc], g.blocks[nc..], cut);
    forall id
      ensures SamePointer(cut, Find(g.byId, id), Find(h.byId, id))
      ensures SamePointer(cut, Find(g.perms, id), Find(h.perms, id))
      ensures SamePointer(cut, Find(g.asks, id), Find(h.asks, id))
      ensures SamePointer(cut, ToolAt(g, id), ToolAt(h, id))
    {
      WithoutIs(f.byId, cut, id);
      WithoutIs(f.perms, cut, id);
      WithoutIs(f.asks, cut, id);
      WithoutIs(f.tools, cut, (f.turn, id));
      assert SamePointer(lo, Find(g.byId, id), Find(f.byId, id))
        && SamePointer(lo, Find(g.perms, id), Find(f.perms, id));
      assert SamePointer(lo, Find(g.asks, id), Find(f.asks, id)) && SamePointer(lo, ToolAt(g, id), ToolAt(f, id));
    }
  }
}
