/** The part of a session's log a client holds: consecutive segments, each folded on its own, that load, unload,
    split and refold. */
module PagesSpec {
  import opened Options
  import opened FoldSpec

  /** A page, or a piece split off the live tail: its first sequence number, its events, their fold, and the turn
      number it was seeded with (0: none). */
  datatype Seg = Seg(first: nat, events: seq<Event>, fold: Fold, seed: nat)

  /** `below` are the first numbers of the dropped segments after the last loaded one. */
  datatype View = View(
    segs: seq<Seg>, seen: set<nat>, hasOlder: bool, detached: bool, below: seq<nat>, lastSeq: nat)

  /** An answer of the events route: the events, whether the server holds older ones, where the page starts, the
      newest number and the turn number of the state header. */
  datatype Page = Page(events: seq<Event>, hasOlder: bool, nextBefore: nat, next: nat, seed: nat)

  const CLOSED := View([], {}, false, false, [], 0)

  function Numbers(events: seq<Event>): set<nat> { set e | e in events :: e.sn }

  function MakeSeg(events: seq<Event>, seed: nat, first: nat): Seg {
    Seg(first, events, FoldFrom(Seeded(seed), events), seed)
  }

  // ---- loading ----

  function OpenTail(p: Page): View {
    var first := if p.events != [] then p.events[0].sn else p.next + 1;
    var last := if p.events != [] then p.events[|p.events| - 1].sn else 0;
    View([MakeSeg(p.events, p.seed, first)], Numbers(p.events), p.hasOlder, false, [],
         if p.next > last then p.next else last)
  }

  /** The events before `first` that are not held yet. */
  function Unseen(events: seq<Event>, first: nat, seen: set<nat>): seq<Event> {
    if events == [] then []
    else
      var rest, e := Unseen(events[..|events| - 1], first, seen), events[|events| - 1];
      if e.sn < first && e.sn !in seen then rest + [e] else rest
  }

  /** The events from `from` on, and before `until` when that is given. */
  function Within(events: seq<Event>, from: nat, until: Option<nat>): seq<Event> {
    if events == [] then []
    else
      var rest, e := Within(events[..|events| - 1], from, until), events[|events| - 1];
      if e.sn >= from && (until.None? || e.sn < until.value) then rest + [e] else rest
  }

  function LoadOlder(t: View, p: Page): View {
    if !t.hasOlder || t.segs == [] then t
    else
      var first := t.segs[0].first;
      var evs := Unseen(p.events, first, t.seen);
      var t' := t.(hasOlder := p.hasOlder && evs != []);
      if evs == [] then t'
      else t'.(seen := t.seen + Numbers(evs), segs := [MakeSeg(evs, 0, evs[0].sn)] + t.segs)
  }

  function LoadNewer(t: View, p: Page): View {
    if t.below == [] || t.segs == [] then t
    else
      var from := t.below[0];
      var until := if |t.below| > 1 then Some(t.below[1]) else None;
      var evs := Within(p.events, from, until);
      var t' := t.(segs := t.segs + [MakeSeg(evs, 0, from)], seen := t.seen + Numbers(evs), below := t.below[1..]);
      if until.Some? then t'
      else
        var last := if evs != [] then evs[|evs| - 1].sn else 0;
        t'.(detached := false, below := [], lastSeq := if last > t.lastSeq then last else t.lastSeq)
  }

  // ---- splitting the tail ----

  function KeysBelow(ks: seq<Key>, cut: nat): seq<Key> {
    if ks == [] then []
    else
      var rest := KeysBelow(ks[..|ks| - 1], cut);
      if ks[|ks| - 1] < cut then rest + [ks[|ks| - 1]] else rest
  }

  function KeysFrom(ks: seq<Key>, cut: nat): seq<Key> {
    if ks == [] then []
    else
      var rest := KeysFrom(ks[..|ks| - 1], cut);
      if ks[|ks| - 1] < cut then rest else rest + [ks[|ks| - 1]]
  }

  function Without<K>(m: map<K, Key>, cut: nat): map<K, Key> { map k | k in m && m[k] >= cut :: m[k] }

  /** The older blocks of a fold, in a fold that points at nothing. */
  function OldPart(f: Fold, cut: nat): Fold { EMPTY.(blocks := KeysBelow(f.blocks, cut), heap := f.heap) }

  /** The blocks the rest of a fold still reaches: those from the cut on, and, however old, the text it goes on with and
      its plan. */
  function Reached(f: Fold, cut: nat): map<Key, Block> {
    map k | k in f.heap && (k >= cut || f.cur == Some(k) || f.plan == Some(k)) :: f.heap[k]
  }

  /** The fold without its older blocks. What it was appending to stays. */
  function NewPart(f: Fold, cut: nat): Fold {
    f.(blocks := KeysFrom(f.blocks, cut), heap := Reached(f, cut), tools := Without(f.tools, cut),
       byId := Without(f.byId, cut), perms := Without(f.perms, cut), asks := Without(f.asks, cut))
  }

  function FirstFrom(events: seq<Event>, cut: nat): (i: nat)
    ensures i <= |events|
    ensures forall j :: 0 <= j < i ==> events[j].sn < cut
    ensures i < |events| ==> events[i].sn >= cut
  {
    if events == [] || events[0].sn >= cut then 0 else 1 + FirstFrom(events[1..], cut)
  }

  function SplitTail(t: View, p: Page, limit: nat): View {
    if t.detached || t.segs == [] || |t.segs[|t.segs| - 1].events| <= 3 * limit then t
    else
      var n := |t.segs| - 1;
      var tail, cut := t.segs[n], p.nextBefore;
      var i := FirstFrom(tail.events, cut);
      if !p.hasOlder || cut <= tail.first || i == |tail.events| then t
      else t.(segs := t.segs[..n] + [Seg(tail.first, tail.events[..i], OldPart(tail.fold, cut), tail.seed),
                                     Seg(cut, tail.events[i..], NewPart(tail.fold, cut), p.seed)])
  }

  // ---- live events ----

  /** Where a segment ends: where the next one, or the first dropped one, starts. */
  predicate Before(t: View, i: nat, sn: nat)
    requires i < |t.segs|
  {
    if i < |t.segs| - 1 then sn < t.segs[i + 1].first else t.below != [] ==> sn < t.below[0]
  }

  /** The loaded segment a number belongs to, looking from the end. */
  function SegOf(t: View, sn: nat, n: nat): (i: Option<nat>)
    requires n <= |t.segs|
    ensures i.Some? ==> i.value < n && t.segs[i.value].first <= sn && Before(t, i.value, sn)
  {
    if n == 0 then None
    else if sn >= t.segs[n - 1].first then (if Before(t, n - 1, sn) then Some(n - 1) else None)
    else SegOf(t, sn, n - 1)
  }

  /** An event goes in behind the last one that is not newer. */
  function InsertEvent(events: seq<Event>, e: Event): seq<Event> {
    if events == [] || events[|events| - 1].sn <= e.sn then events + [e]
    else InsertEvent(events[..|events| - 1], e) + [events[|events| - 1]]
  }

  function Refold(s: Seg): Seg { s.(fold := FoldFrom(Seeded(s.seed), s.events)) }

  /** One delivered event. A late one only enters its segment, which is folded again when the batch is through. */
  function Deliver(t: View, e: Event): (View, Option<nat>) {
    if e.sn in t.seen then (t, None)
    else if e.sn > t.lastSeq then
      var t' := t.(seen := t.seen + {e.sn}, lastSeq := e.sn);
      if t.detached || t.segs == [] then (t', None)
      else
        var n := |t.segs| - 1;
        var tail := t.segs[n];
        (t'.(segs := t.segs[..n] + [tail.(events := tail.events + [e], fold := Push(tail.fold, e))]), None)
    else
      var i := SegOf(t, e.sn, |t.segs|);
      if i.None? then (t, None)
      else
        var s := t.segs[i.value];
        (t.(seen := t.seen + {e.sn}, segs := t.segs[i.value := s.(events := InsertEvent(s.events, e))]), i)
  }

  /** A batch: the view after it, and the segments that got a late event. */
  function DeliverAll(t: View, events: seq<Event>): (View, set<nat>) {
    if events == [] then (t, {})
    else
      var (t1, late) := DeliverAll(t, events[..|events| - 1]);
      var (t2, i) := Deliver(t1, events[|events| - 1]);
      (t2, if i.Some? then late + {i.value} else late)
  }

  function RefoldSegs(segs: seq<Seg>, late: set<nat>): (out: seq<Seg>)
    ensures |out| == |segs| && forall i :: 0 <= i < |segs| ==> out[i] == if i in late then Refold(segs[i]) else segs[i]
  {
    seq(|segs|, i requires 0 <= i < |segs| => if i in late then Refold(segs[i]) else segs[i])
  }

  function Apply(t: View, events: seq<Event>): View {
    var (t', late) := DeliverAll(t, events);
    t'.(segs := RefoldSegs(t'.segs, late))
  }

  // ---- unloading ----

  /** How many blocks the first n segments show. */
  function EndOf(segs: seq<Seg>, n: nat): nat
    requires n <= |segs|
  {
    if n == 0 then 0 else EndOf(segs, n - 1) + |segs[n - 1].fold.blocks|
  }

  function DropTop(segs: seq<Seg>, lo: int, from: nat): (top: nat)
    requires from < |segs|
    ensures from <= top < |segs|
    decreases |segs| - from
  {
    if from < |segs| - 1 && EndOf(segs, from + 1) <= lo then DropTop(segs, lo, from + 1) else from
  }

  function DropBottom(segs: seq<Seg>, hi: int, top: nat, from: nat): (bottom: nat)
    requires top < from <= |segs|
    ensures top < bottom <= from
  {
    if from - 1 > top && EndOf(segs, from - 1) >= hi then DropBottom(segs, hi, top, from - 1) else from
  }

  function Firsts(segs: seq<Seg>): (out: seq<nat>)
    ensures |out| == |segs| && forall i :: 0 <= i < |segs| ==> out[i] == segs[i].first
  {
    seq(|segs|, i requires 0 <= i < |segs| => segs[i].first)
  }

  function NumbersOf(segs: seq<Seg>): set<nat> { set s, e | s in segs && e in s.events :: e.sn }

  /** Drops the segments whose blocks all lie outside [lo, hi); the live tail only when that is allowed. */
  function Keep(t: View, lo: int, hi: int, canDetach: bool): View {
    if |t.segs| < 2 then t
    else
      var top := DropTop(t.segs, lo, 0);
      var b := DropBottom(t.segs, hi, top, |t.segs|);
      var bottom := if b < |t.segs| && !canDetach && !t.detached then |t.segs| else b;
      if top == 0 && bottom == |t.segs| then t
      else
        View(t.segs[top..bottom], t.seen - NumbersOf(t.segs[..top] + t.segs[bottom..]), top > 0 || t.hasOlder,
             t.detached || bottom < |t.segs|, Firsts(t.segs[bottom..]) + t.below, t.lastSeq)
  }

  // ---- reading ----

  /** Every loaded block, in order. */
  function Blocks(segs: seq<Seg>): seq<Key> {
    if segs == [] then [] else Blocks(segs[..|segs| - 1]) + segs[|segs| - 1].fold.blocks
  }
}
