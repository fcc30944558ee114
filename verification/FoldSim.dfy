/** A fold of a whole log (g) and a fold of a later piece of it (h) agree on everything opened at or after `lo`, as
    long as no event refers to an older block. */
module FoldSim {
  import opened Options
  import opened FoldSpec

  /** h points where g does, or nowhere when g points at an older block. */
  predicate SamePointer(lo: Key, g: Option<Key>, h: Option<Key>) {
    g == h || (h.None? && g.Some? && g.value < lo)
  }

  ghost predicate SameIndex(lo: Key, g: map<string, Key>, h: map<string, Key>) {
    forall id :: SamePointer(lo, Find(g, id), Find(h, id))
  }

  /** The heaps hold the same blocks from `lo` on, and h holds no older block that g does not. */
  ghost predicate SameHeap(lo: Key, g: map<Key, Block>, h: map<Key, Block>) {
    && (forall k :: k >= lo ==> (k in g <==> k in h))
    && (forall k :: k in h ==> k in g && g[k] == h[k])
  }

  predicate YoungPointer(lo: Key, k: Option<Key>) { k.Some? ==> k.value >= lo }

  predicate YoungContent(lo: Key, c: Content) {
    c.ToolBlock? ==>
      && YoungPointer(lo, c.cur)
      && (c.children.Some? ==> forall i :: 0 <= i < |c.children.value| ==> c.children.value[i] >= lo)
  }

  /** Blocks from `lo` on are nested in, and hold, blocks from `lo` on. */
  ghost predicate Closed(lo: Key, h: map<Key, Block>) {
    forall k :: k in h && k >= lo ==> YoungPointer(lo, h[k].up) && YoungContent(lo, h[k].c)
  }

  ghost predicate ToolsPast(f: Fold) { forall k :: k in f.tools ==> k.0 <= f.turn }

  /** At the log's level, h has exactly the young blocks, and in g they follow the old ones. */
  predicate SameBlocks(lo: Key, na: nat, g: seq<Key>, h: seq<Key>) {
    && na <= |g| && g[na..] == h
    && (forall i :: 0 <= i < na ==> g[i] < lo)
    && (forall i :: na <= i < |g| ==> g[i] >= lo)
  }

  ghost predicate SameTools(lo: Key, g: Fold, h: Fold) {
    forall id :: SamePointer(lo, ToolAt(g, id), ToolAt(h, id))
  }

  ghost predicate Sim(lo: Key, na: nat, g: Fold, h: Fold) {
    && SameBlocks(lo, na, g.blocks, h.blocks)
    && SameHeap(lo, g.heap, h.heap) && Closed(lo, h.heap)
    && SameIndex(lo, g.byId, h.byId) && SameIndex(lo, g.perms, h.perms) && SameIndex(lo, g.asks, h.asks)
    && SameTools(lo, g, h) && ToolsPast(g) && ToolsPast(h)
    && SamePointer(lo, g.cur, h.cur) && SamePointer(lo, g.plan, h.plan)
  }

  /** Nothing older than `lo` changed. */
  ghost predicate SameOld(lo: Key, g: map<Key, Block>, g': map<Key, Block>) {
    forall k :: k < lo ==> (k in g <==> k in g') && (k in g ==> g[k] == g'[k])
  }

  ghost predicate OldKept(lo: Key, na: nat, g: Fold, g': Fold) {
    SameOld(lo, g.heap, g'.heap) && na <= |g.blocks| && na <= |g'.blocks| && g'.blocks[..na] == g.blocks[..na]
  }

  // ---- events that stay clear of old blocks ----

  predicate Running(c: Option<Content>) { c.Some? && c.value.ThoughtBlock? && !c.value.done }

  /** No block the event resolves to was opened before `lo`. */
  predicate Clean(lo: Key, f: Fold, e: Event) {
    && (!LeavesThought(e.body) && Running(At(f, f.cur)) ==> YoungPointer(lo, f.cur))
    && match e.body
       case Message(_, _, _, parent, _, _) => CleanText(lo, f, e.body, parent)
       case Thought(_, parent) => CleanText(lo, f, e.body, parent)
       case Tool(id, parent, _, _, _, _) => YoungPointer(lo, ToolAt(f, id)) && YoungPointer(lo, ToolBox(f, id, parent))
       case FilesChanged(id, turn, _) =>
         if id != "" then YoungPointer(lo, ChangedTool(f, id))
         else var at := LastTurn(f.heap, f.blocks, turn); at.Some? ==> f.blocks[at.value] >= lo
       case Plan(_) => YoungPointer(lo, f.plan)
       case PermissionResolved(pid, _) => YoungPointer(lo, Find(f.perms, pid))
       case ElicitationResolved(eid, _) => YoungPointer(lo, Find(f.asks, eid))
       case _ => true
  }

  predicate CleanText(lo: Key, f: Fold, b: Body, parent: string) {
    YoungPointer(lo, Box(f, parent)) && (Box(f, parent).None? && Continues(At(f, f.cur), b) ==> YoungPointer(lo, f.cur))
  }

  /** A turn's number is above every earlier one's (and above the one a page was seeded with). */
  predicate TurnRises(f: Fold, e: Event) {
    e.body.TurnEnd? && e.body.turn.Some? && e.body.turn.value > 0 ==> 2 * e.body.turn.value + 1 > f.turn
  }

  // ---- the heap ----

  lemma {:induction false} BumpSim(lo: Key, g: map<Key, Block>, h: map<Key, Block>, k: Key)
    requires SameHeap(lo, g, h) && Closed(lo, h) && k >= lo
    ensures SameHeap(lo, Bump(g, k), Bump(h, k)) && Closed(lo, Bump(h, k)) && SameOld(lo, g, Bump(g, k))
    decreases k
  {
    if k in h {
      var b := h[k].(v := h[k].v + 1);
      if b.up.Some? && b.up.value < k { BumpSim(lo, g[k := b], h[k := b], b.up.value); }
    }
  }

  /** A bump changes versions only. */
  lemma {:induction false} BumpContents(h: map<Key, Block>, k: Key)
    ensures Bump(h, k).Keys == h.Keys
    ensures forall j :: j in h ==> Bump(h, k)[j].c == h[j].c && Bump(h, k)[j].up == h[j].up && Bump(h, k)[j].v >= h[j].v
    decreases k
  {
    if k in h {
      var b := h[k].(v := h[k].v + 1);
      if b.up.Some? && b.up.value < k { BumpContents(h[k := b], b.up.value); }
    }
  }

  lemma SimHeap(lo: Key, na: nat, g: Fold, h: Fold, gh: map<Key, Block>, hh: map<Key, Block>)
    requires Sim(lo, na, g, h) && SameHeap(lo, gh, hh) && Closed(lo, hh) && SameOld(lo, g.heap, gh)
    ensures Sim(lo, na, g.(heap := gh), h.(heap := hh)) && OldKept(lo, na, g, g.(heap := gh))
  {
    var g', h' := g.(heap := gh), h.(heap := hh);
    assert forall id :: ToolAt(g', id) == ToolAt(g, id) && ToolAt(h', id) == ToolAt(h, id);
  }

  /** A young block changes in both folds alike, and its cards are bumped. */
  lemma ChangeSim(lo: Key, na: nat, g: Fold, h: Fold, k: Key, c: Content)
    requires Sim(lo, na, g, h) && k in h.heap && k >= lo && YoungContent(lo, c)
    ensures Sim(lo, na, Change(g, k, c), Change(h, k, c)) && OldKept(lo, na, g, Change(g, k, c))
  {
    SimHeap(lo, na, g, h, Change(g, k, c).heap, Change(h, k, c).heap);
  }

  lemma BumpedSim(lo: Key, na: nat, g: Fold, h: Fold, k: Key)
    requires Sim(lo, na, g, h) && k >= lo
    ensures Sim(lo, na, Bumped(g, k), Bumped(h, k)) && OldKept(lo, na, g, Bumped(g, k))
  {
    BumpSim(lo, g.heap, h.heap, k);
    SimHeap(lo, na, g, h, Bump(g.heap, k), Bump(h.heap, k));
  }

  lemma DoneSim(lo: Key, na: nat, g: Fold, h: Fold, kg: Option<Key>, kh: Option<Key>, ts: nat)
    requires Sim(lo, na, g, h) && SamePointer(lo, kg, kh) && (Running(At(g, kg)) ==> YoungPointer(lo, kg))
    ensures Sim(lo, na, Done(g, kg, ts), Done(h, kh, ts)) && OldKept(lo, na, g, Done(g, kg, ts))
  {
    if Running(At(g, kg)) {
      var k := kg.value;
      var t := g.heap[k].c;
      var c := ThoughtBlock(t.text, t.t0, if ts > 0 then ts else t.t1, true);
      ChangeSim(lo, na, g, h, k, c);
      BumpedSim(lo, na, Change(g, k, c), Change(h, k, c), k);
    }
  }

  lemma {:induction false} DoneAllSim(lo: Key, na: nat, g: Fold, h: Fold, ks: seq<Key>)
    requires Sim(lo, na, g, h) && forall i :: 0 <= i < |ks| ==> ks[i] >= lo
    ensures Sim(lo, na, DoneAll(g, ks), DoneAll(h, ks)) && OldKept(lo, na, g, DoneAll(g, ks))
  {
    if ks != [] {
      var front, last := ks[..|ks| - 1], ks[|ks| - 1];
      DoneAllSim(lo, na, g, h, front);
      DoneSim(lo, na, DoneAll(g, front), DoneAll(h, front), Some(last), Some(last), 0);
    }
  }

  lemma SetCurSim(lo: Key, na: nat, g: Fold, h: Fold, into: Option<Key>, k: Option<Key>)
    requires Sim(lo, na, g, h) && YoungPointer(lo, into) && YoungPointer(lo, k)
    ensures Sim(lo, na, SetCur(g, into, k), SetCur(h, into, k)) && OldKept(lo, na, g, SetCur(g, into, k))
  {
    if At(h, into).Some? && At(h, into).value.ToolBlock? {
      ChangeSim(lo, na, g, h, into.value, h.heap[into.value].c.(cur := k));
    } else {
      var g', h' := g.(cur := k), h.(cur := k);
      assert forall id :: ToolAt(g', id) == ToolAt(g, id) && ToolAt(h', id) == ToolAt(h, id);
    }
  }

  lemma OpenAtEndSim(lo: Key, na: nat, g: Fold, h: Fold, k: Key, c: Content)
    requires Sim(lo, na, g, h) && k >= lo && YoungContent(lo, c)
    ensures var g', h' := Open(g, k, c, None), Open(h, k, c, None);
      Sim(lo, na, g', h') && OldKept(lo, na, g, g')
  {
    var g1, h1 := g.(heap := g.heap[k := Block(c, 0, None)]), h.(heap := h.heap[k := Block(c, 0, None)]);
    SimHeap(lo, na, g, h, g1.heap, h1.heap);
    var g', h' := Open(g, k, c, None), Open(h, k, c, None);
    assert forall id :: ToolAt(g', id) == ToolAt(g1, id) && ToolAt(h', id) == ToolAt(h1, id);
    assert g'.blocks[na..] == g.blocks[na..] + [k];
  }

  lemma OpenedInBox(lo: Key, g: map<Key, Block>, h: map<Key, Block>, k: Key, b: Block, box: Key)
    requires SameHeap(lo, g, h) && Closed(lo, h) && box >= lo && k >= lo && YoungContent(lo, b.c)
      && YoungPointer(lo, b.up)
    ensures var g', h' := Bump(g, box)[k := b], Bump(h, box)[k := b];
      SameHeap(lo, g', h') && Closed(lo, h') && SameOld(lo, g, g')
  {
    BumpSim(lo, g, h, box);
  }

  lemma OpenInBoxSim(lo: Key, na: nat, g: Fold, h: Fold, k: Key, c: Content, box: Key)
    requires Sim(lo, na, g, h) && box >= lo && k >= lo && YoungContent(lo, c) && IsBox(At(h, Some(box)))
    ensures var g', h' := Open(g, k, c, Some(box)), Open(h, k, c, Some(box));
      Sim(lo, na, g', h') && OldKept(lo, na, g, g')
  {
    hide Bump, SameIndex, SameTools;
    var b := Block(c, 0, Some(box));
    OpenedInBox(lo, g.heap, h.heap, k, b, box);
    var g1, h1 := g.(heap := Bump(g.heap, box)[k := b]), h.(heap := Bump(h.heap, box)[k := b]);
    SimHeap(lo, na, g, h, g1.heap, h1.heap);
    if box in h1.heap && h1.heap[box].c.ToolBlock? {
      var kids := h.heap[box].c.children.value + [k];
      assert YoungContent(lo, h1.heap[box].c) && YoungContent(lo, h.heap[box].c);
      ChangeSim(lo, na, g1, h1, box, h1.heap[box].c.(children := Some(kids)));
    }
  }

  /** A block opened in both folds alike. */
  lemma OpenSim(lo: Key, na: nat, g: Fold, h: Fold, k: Key, c: Content, into: Option<Key>)
    requires Sim(lo, na, g, h) && YoungPointer(lo, into) && k >= lo && YoungContent(lo, c)
    ensures Sim(lo, na, Open(g, k, c, into), Open(h, k, c, into)) && OldKept(lo, na, g, Open(g, k, c, into))
  {
    if IsBox(At(h, into)) {
      OpenInBoxSim(lo, na, g, h, k, c, into.value);
    } else {
      OpenAtEndSim(lo, na, g, h, k, c);
    }
  }

  // ---- events ----

  lemma IndexSet(lo: Key, g: map<string, Key>, h: map<string, Key>, id: string, k: Key)
    requires SameIndex(lo, g, h)
    ensures SameIndex(lo, g[id := k], h[id := k])
  {
    var g', h' := g[id := k], h[id := k];
    forall x ensures SamePointer(lo, Find(g', x), Find(h', x)) {
      assert SamePointer(lo, Find(g, x), Find(h, x));
    }
  }

  lemma BoxSim(lo: Key, na: nat, g: Fold, h: Fold, parent: string)
    requires Sim(lo, na, g, h) && YoungPointer(lo, Box(g, parent))
    ensures Box(h, parent) == Box(g, parent)
  {
    assert SamePointer(lo, Find(g.byId, parent), Find(h.byId, parent));
  }

  lemma CurSim(lo: Key, na: nat, g: Fold, h: Fold, into: Option<Key>)
    requires Sim(lo, na, g, h) && YoungPointer(lo, into)
    ensures SamePointer(lo, Cur(g, into), Cur(h, into))
    ensures into.Some? && IsBox(At(g, into)) ==> YoungPointer(lo, Cur(g, into))
  {
  }

  lemma ContinueSim(lo: Key, na: nat, g: Fold, h: Fold, k: Key, into: Option<Key>, e: Event)
    requires Sim(lo, na, g, h) && YoungPointer(lo, into) && k >= lo && Continues(At(g, Some(k)), e.body)
    ensures Continues(At(h, Some(k)), e.body)
    ensures var c := Continued(g.heap[k].c, e);
      var g', h' := SetCur(Bumped(Change(g, k, c), k), into, Some(k)),
        SetCur(Bumped(Change(h, k, c), k), into, Some(k));
      Sim(lo, na, g', h') && OldKept(lo, na, g, g')
  {
    var c := Continued(g.heap[k].c, e);
    ChangeSim(lo, na, g, h, k, c);
    BumpedSim(lo, na, Change(g, k, c), Change(h, k, c), k);
    SetCurSim(lo, na, Bumped(Change(g, k, c), k), Bumped(Change(h, k, c), k), into, Some(k));
  }

  /** Ending a thought continues nothing and moves no pointer. */
  lemma DoneSame(f: Fold, k: Option<Key>, ts: nat)
    ensures Done(f, k, ts) == f.(heap := Done(f, k, ts).heap) && Done(f, k, ts).heap.Keys == f.heap.Keys
    ensures forall j :: j in f.heap && !f.heap[j].c.ThoughtBlock? ==> Done(f, k, ts).heap[j].c == f.heap[j].c
    ensures forall j :: j in f.heap && f.heap[j].c.ThoughtBlock? ==> Done(f, k, ts).heap[j].c.ThoughtBlock?
    ensures forall j :: j in f.heap && Running(At(Done(f, k, ts), Some(j))) ==> Running(At(f, Some(j)))
  {
    if Running(At(f, k)) {
      var t := f.heap[k.value].c;
      var c := ThoughtBlock(t.text, t.t0, if ts > 0 then ts else t.t1, true);
      BumpContents(Change(f, k.value, c).heap, k.value);
    }
  }

  lemma TextSim(lo: Key, na: nat, g: Fold, h: Fold, e: Event, parent: string)
    requires Sim(lo, na, g, h) && (e.body.Message? || e.body.Thought?) && CleanText(lo, g, e.body, parent) && e.sn >= lo
    requires e.body.Message? && Running(At(g, g.cur)) ==> YoungPointer(lo, g.cur)
    ensures Sim(lo, na, PushText(g, e, parent), PushText(h, e, parent)) && OldKept(lo, na, g, PushText(g, e, parent))
  {
    hide Sim, OldKept, Done, Continues, Open, SetCur, Bump;
    var into := Box(g, parent);
    BoxSim(lo, na, g, h, parent);
    TextEnds(lo, na, g, h, e, into);
    var g1 := if e.body.Message? then Done(g, Cur(g, into), e.ts) else g;
    var h1 := if e.body.Message? then Done(h, Cur(h, into), e.ts) else h;
    NextTextSim(lo, na, g1, h1, e, Cur(g, into), Cur(h, into), into);
    OldKeptBoth(lo, na, g, g1, PushText(g, e, parent));
  }

  lemma OldKeptBoth(lo: Key, na: nat, a: Fold, b: Fold, c: Fold)
    requires OldKept(lo, na, a, b) && OldKept(lo, na, b, c)
    ensures OldKept(lo, na, a, c)
  {
  }

  /** A message ends the thought before it; and what it or a thought goes on with is young, and the same in both. */
  lemma TextEnds(lo: Key, na: nat, g: Fold, h: Fold, e: Event, into: Option<Key>)
    requires Sim(lo, na, g, h) && (e.body.Message? || e.body.Thought?) && YoungPointer(lo, into)
    requires into.Some? ==> IsBox(At(g, into))
    requires into.None? && Continues(At(g, g.cur), e.body) ==> YoungPointer(lo, g.cur)
    requires e.body.Message? && Running(At(g, g.cur)) ==> YoungPointer(lo, g.cur)
    ensures var cg, ch := Cur(g, into), Cur(h, into);
      var g1 := if e.body.Message? then Done(g, cg, e.ts) else g;
      var h1 := if e.body.Message? then Done(h, ch, e.ts) else h;
      && Sim(lo, na, g1, h1) && OldKept(lo, na, g, g1)
      && (Continues(At(g1, cg), e.body) ==> ch == cg && cg.value >= lo)
      && (!Continues(At(g1, cg), e.body) ==> !Continues(At(h1, ch), e.body))
  {
    CurSim(lo, na, g, h, into);
    var cg, ch := Cur(g, into), Cur(h, into);
    if e.body.Message? { DoneSim(lo, na, g, h, cg, ch, e.ts); }
    DoneSame(g, cg, e.ts);
    hide SameIndex, SameTools, Closed;
  }

  lemma YoungIsSame(lo: Key, na: nat, g: Fold, h: Fold, k: Key)
    requires Sim(lo, na, g, h) && k >= lo && k in g.heap
    ensures k in h.heap && h.heap[k] == g.heap[k]
  {
  }

  lemma NextTextSim(lo: Key, na: nat, g: Fold, h: Fold, e: Event, cg: Option<Key>, ch: Option<Key>, into: Option<Key>)
    requires Sim(lo, na, g, h) && (e.body.Message? || e.body.Thought?) && YoungPointer(lo, into) && e.sn >= lo
    requires Continues(At(g, cg), e.body) ==> ch == cg && cg.value >= lo
    requires !Continues(At(g, cg), e.body) ==> !Continues(At(h, ch), e.body)
    ensures var b := if e.body.Thought? then ThoughtBlock(e.body.text, e.ts, e.ts, false)
                     else MsgBlock(e.body.role, e.body.mid, e.body.text, e.body.files, e.body.steered);
      var g' := if Continues(At(g, cg), e.body)
                then SetCur(Bumped(Change(g, cg.value, Continued(g.heap[cg.value].c, e)), cg.value), into, cg)
                else SetCur(Open(g, e.sn, b, into), into, Some(e.sn));
      var h' := if Continues(At(h, ch), e.body)
                then SetCur(Bumped(Change(h, ch.value, Continued(h.heap[ch.value].c, e)), ch.value), into, ch)
                else SetCur(Open(h, e.sn, b, into), into, Some(e.sn));
      Sim(lo, na, g', h') && OldKept(lo, na, g, g')
  {
    hide Sim, OldKept, Open, SetCur, Bump;
    if Continues(At(g, cg), e.body) {
      ContinueSim(lo, na, g, h, cg.value, into, e);
      YoungIsSame(lo, na, g, h, cg.value);
    } else {
      var b := if e.body.Thought? then ThoughtBlock(e.body.text, e.ts, e.ts, false)
               else MsgBlock(e.body.role, e.body.mid, e.body.text, e.body.files, e.body.steered);
      OpenSim(lo, na, g, h, e.sn, b, into);
      SetCurSim(lo, na, Open(g, e.sn, b, into), Open(h, e.sn, b, into), into, Some(e.sn));
      OldKeptBoth(lo, na, g, Open(g, e.sn, b, into), SetCur(Open(g, e.sn, b, into), into, Some(e.sn)));
    }
  }

  lemma FoldToolSim(lo: Key, na: nat, g: Fold, h: Fold, t: Key, d: Body)
    requires Sim(lo, na, g, h) && t >= lo && d.Tool?
    ensures Sim(lo, na, FoldTool(g, t, d), FoldTool(h, t, d)) && OldKept(lo, na, g, FoldTool(g, t, d))
  {
    if t in h.heap && h.heap[t].c.ToolBlock? {
      var c := Merged(h.heap[t].c, d);
      ChangeSim(lo, na, g, h, t, c);
      var g1, h1 := Change(g, t, c).(byId := g.byId[d.id := t]), Change(h, t, c).(byId := h.byId[d.id := t]);
      IndexSet(lo, g.byId, h.byId, d.id, t);
      assert forall id :: ToolAt(g1, id) == ToolAt(g, id) && ToolAt(h1, id) == ToolAt(h, id);
      var kids := if c.children.Some? && Finished(c) then c.children.value else [];
      DoneAllSim(lo, na, g1, h1, kids);
      BumpedSim(lo, na, DoneAll(g1, kids), DoneAll(h1, kids), t);
    }
  }

  /** A call ends the text before it: in its card, or in the log. */
  lemma TextEndedSim(lo: Key, na: nat, g: Fold, h: Fold, into: Option<Key>)
    requires Sim(lo, na, g, h) && YoungPointer(lo, into) && (into.Some? ==> IsBox(At(g, into)))
    ensures var g', h' :=
        SetCur(if into.Some? then Done(g, Cur(g, into), 0) else g, into, None),
        SetCur(if into.Some? then Done(h, Cur(h, into), 0) else h, into, None);
      Sim(lo, na, g', h') && OldKept(lo, na, g, g')
  {
    CurSim(lo, na, g, h, into);
    var g0 := if into.Some? then Done(g, Cur(g, into), 0) else g;
    var h0 := if into.Some? then Done(h, Cur(h, into), 0) else h;
    if into.Some? { DoneSim(lo, na, g, h, Cur(g, into), Cur(h, into), 0); }
    SetCurSim(lo, na, g0, h0, into, None);
  }

  lemma OpenKeeps(f: Fold, k: Key, c: Content, into: Option<Key>)
    ensures var f' := Open(f, k, c, into); f' == f.(heap := f'.heap, blocks := f'.blocks)
  {
  }

  lemma ToolOpenedSim(lo: Key, na: nat, g: Fold, h: Fold, id: string, c: Content, k: Key, into: Option<Key>)
    requires Sim(lo, na, g, h) && YoungPointer(lo, into) && k >= lo && YoungContent(lo, c)
    ensures var g', h' :=
        Open(g, k, c, into).(tools := g.tools[(g.turn, id) := k]),
          Open(h, k, c, into).(tools := h.tools[(h.turn, id) := k]);
      Sim(lo, na, g', h') && OldKept(lo, na, g, g')
  {
    OpenSim(lo, na, g, h, k, c, into);
    OpenKeeps(g, k, c, into);
    OpenKeeps(h, k, c, into);
    ToolEntered(lo, na, Open(g, k, c, into), Open(h, k, c, into), id, k);
  }

  lemma ToolsResolveAlike(lo: Key, na: nat, g: Fold, h: Fold, id: string, parent: string)
    requires Sim(lo, na, g, h) && YoungPointer(lo, ToolAt(g, id)) && YoungPointer(lo, ToolBox(g, id, parent))
    ensures ToolAt(h, id) == ToolAt(g, id) && ToolBox(h, id, parent) == ToolBox(g, id, parent)
    ensures ToolBox(g, id, parent).Some? ==> IsBox(At(g, ToolBox(g, id, parent)))
  {
    assert SamePointer(lo, ToolAt(g, id), ToolAt(h, id));
    assert SamePointer(lo, Find(g.byId, parent), Find(h.byId, parent));
  }

  lemma PushToolSim(lo: Key, na: nat, g: Fold, h: Fold, e: Event)
    requires Sim(lo, na, g, h) && e.body.Tool? && e.sn >= lo
    requires YoungPointer(lo, ToolAt(g, e.body.id)) && YoungPointer(lo, ToolBox(g, e.body.id, e.body.parent))
    ensures Sim(lo, na, PushTool(g, e), PushTool(h, e)) && OldKept(lo, na, g, PushTool(g, e))
  {
    var d := e.body;
    ToolsResolveAlike(lo, na, g, h, d.id, d.parent);
    var known, into := ToolAt(g, d.id), ToolBox(g, d.id, d.parent);
    TextEndedSim(lo, na, g, h, into);
    var g1 := SetCur(if into.Some? then Done(g, Cur(g, into), 0) else g, into, None);
    var h1 := SetCur(if into.Some? then Done(h, Cur(h, into), 0) else h, into, None);
    if known.None? {
      ToolOpenedSim(lo, na, g1, h1, d.id, NewTool(d.id, e.ts), e.sn, into);
      var g2 := Open(g1, e.sn, NewTool(d.id, e.ts), into).(tools := g1.tools[(g1.turn, d.id) := e.sn]);
      var h2 := Open(h1, e.sn, NewTool(d.id, e.ts), into).(tools := h1.tools[(h1.turn, d.id) := e.sn]);
      FoldToolSim(lo, na, g2, h2, e.sn, d);
    } else {
      FoldToolSim(lo, na, g1, h1, known.value, d);
    }
  }

  lemma ToolEntered(lo: Key, na: nat, g: Fold, h: Fold, id: string, k: Key)
    requires Sim(lo, na, g, h) && k >= lo
    ensures Sim(lo, na, g.(tools := g.tools[(g.turn, id) := k]), h.(tools := h.tools[(h.turn, id) := k]))
  {
    var g', h' := g.(tools := g.tools[(g.turn, id) := k]), h.(tools := h.tools[(h.turn, id) := k]);
    forall x ensures SamePointer(lo, ToolAt(g', x), ToolAt(h', x)) {
      assert SamePointer(lo, ToolAt(g, x), ToolAt(h, x));
    }
  }

  lemma {:induction false} LastTurnAfter(heap: map<Key, Block>, a: seq<Key>, b: seq<Key>, turn: Option<nat>)
    ensures var whole, piece := LastTurn(heap, a + b, turn), LastTurn(heap, b, turn);
      if piece.Some? then piece.value < |b| && whole == Some(|a| + piece.value) else whole == LastTurn(heap, a, turn)
    ensures LastTurn(heap, a, turn).Some? ==> LastTurn(heap, a, turn).value < |a|
  {
    if b == [] {
      assert a + b == a;
      if a != [] { LastTurnAfter(heap, a[..|a| - 1], [], turn); }
    } else {
      LastTurnAfter(heap, a, b[..|b| - 1], turn);
      assert (a + b)[..|a + b| - 1] == a + b[..|b| - 1];
    }
  }

  lemma {:induction false} LastTurnLocal(g: map<Key, Block>, h: map<Key, Block>, b: seq<Key>, turn: Option<nat>)
    requires forall i :: 0 <= i < |b| ==> (b[i] in g <==> b[i] in h) && (b[i] in g ==> g[b[i]] == h[b[i]])
    ensures LastTurn(g, b, turn) == LastTurn(h, b, turn)
  {
    if b != [] { LastTurnLocal(g, h, b[..|b| - 1], turn); }
  }

  lemma PlaceAfter(lo: Key, before: seq<Key>, hb: seq<Key>, g: map<Key, Block>, turn: Option<nat>)
    requires forall i :: 0 <= i < |before| ==> before[i] < lo
    requires var at := LastTurn(g, before + hb, turn); at.Some? ==> (before + hb)[at.value] >= lo
    ensures Place(g, before + hb, turn) == |before| + Place(g, hb, turn)
  {
    LastTurnAfter(g, before, hb, turn);
  }

  /** The place before a turn's end marker is found alike, or nowhere. */
  lemma PlaceSim(lo: Key, na: nat, g: Fold, h: Fold, turn: Option<nat>)
    requires SameBlocks(lo, na, g.blocks, h.blocks) && SameHeap(lo, g.heap, h.heap)
    requires var at := LastTurn(g.heap, g.blocks, turn); at.Some? ==> g.blocks[at.value] >= lo
    ensures Place(g.heap, g.blocks, turn) == na + Place(h.heap, h.blocks, turn)
  {
    LastTurnLocal(g.heap, h.heap, h.blocks, turn);
    assert g.blocks[..na] + h.blocks == g.blocks;
    PlaceAfter(lo, g.blocks[..na], h.blocks, g.heap, turn);
  }

  lemma InsertedSim(lo: Key, na: nat, g: Fold, h: Fold, k: Key, b: Block, at: nat)
    requires Sim(lo, na, g, h) && k >= lo && at <= |h.blocks| && YoungContent(lo, b.c) && b.up.None?
    ensures Sim(lo, na, Inserted(g, k, b, na + at), Inserted(h, k, b, at))
      && OldKept(lo, na, g, Inserted(g, k, b, na + at))
  {
    SimHeap(lo, na, g, h, g.heap[k := b], h.heap[k := b]);
    BlocksInserted(lo, na, g.blocks, h.blocks, k, at);
    var g', h' := Inserted(g, k, b, na + at), Inserted(h, k, b, at);
    assert forall id :: ToolAt(g', id) == ToolAt(g, id) && ToolAt(h', id) == ToolAt(h, id);
  }

  lemma BlocksInserted(lo: Key, na: nat, g: seq<Key>, h: seq<Key>, k: Key, at: nat)
    requires SameBlocks(lo, na, g, h) && k >= lo && at <= |h|
    ensures SameBlocks(lo, na, g[..na + at] + [k] + g[na + at..], h[..at] + [k] + h[at..])
    ensures (g[..na + at] + [k] + g[na + at..])[..na] == g[..na]
  {
    var g', h' := g[..na + at] + [k] + g[na + at..], h[..at] + [k] + h[at..];
    assert g == g[..na] + h;
    assert g' == g[..na] + h';
  }

  lemma FilesInsertedSim(lo: Key, na: nat, g: Fold, h: Fold, e: Event)
    requires Sim(lo, na, g, h) && e.body.FilesChanged? && e.body.toolCallId == "" && Clean(lo, g, e) && e.sn >= lo
    ensures Sim(lo, na, PushFiles(g, e), PushFiles(h, e)) && OldKept(lo, na, g, PushFiles(g, e))
  {
    PlaceSim(lo, na, g, h, e.body.turn);
    InsertedSim(lo, na, g, h, e.sn, Block(ChangesBlock(e.body.turn, e.body.patch), 0, None),
      Place(h.heap, h.blocks, e.body.turn));
  }

  lemma ToolFilesSim(lo: Key, na: nat, g: Fold, h: Fold, e: Event)
    requires Sim(lo, na, g, h) && e.body.FilesChanged? && e.body.toolCallId != "" && Clean(lo, g, e)
    ensures Sim(lo, na, PushFiles(g, e), PushFiles(h, e)) && OldKept(lo, na, g, PushFiles(g, e))
  {
    var id := e.body.toolCallId;
    assert SamePointer(lo, ToolAt(g, id), ToolAt(h, id)) && SamePointer(lo, Find(g.byId, id), Find(h.byId, id));
    var t := ChangedTool(g, id);
    assert ChangedTool(h, id) == t;
    if At(g, t).Some? && At(g, t).value.ToolBlock? {
      var c := At(g, t).value.(diff := Some(e.body.patch));
      ChangeSim(lo, na, g, h, t.value, c);
      BumpedSim(lo, na, Change(g, t.value, c), Change(h, t.value, c), t.value);
    }
  }

  lemma PlanSim(lo: Key, na: nat, g: Fold, h: Fold, e: Event)
    requires Sim(lo, na, g, h) && e.body.Plan? && YoungPointer(lo, g.plan) && e.sn >= lo
    ensures Sim(lo, na, PushPlan(g, e), PushPlan(h, e)) && OldKept(lo, na, g, PushPlan(g, e))
  {
    SetCurSim(lo, na, g, h, None, None);
    var g1, h1 := g.(cur := None), h.(cur := None);
    assert At(g, None) == None && SetCur(g, None, None) == g1 && SetCur(h, None, None) == h1;
    if g.plan.None? {
      OpenSim(lo, na, g1, h1, e.sn, PlanBlock(""), None);
      var g2, h2 := Open(g1, e.sn, PlanBlock(""), None), Open(h1, e.sn, PlanBlock(""), None);
      PlanSet(lo, na, g2, h2, e.sn);
      PlanFilled(lo, na, g2.(plan := Some(e.sn)), h2.(plan := Some(e.sn)), e);
    } else {
      PlanFilled(lo, na, g1, h1, e);
    }
  }

  lemma PlanSet(lo: Key, na: nat, g: Fold, h: Fold, k: Key)
    requires Sim(lo, na, g, h) && k >= lo
    ensures Sim(lo, na, g.(plan := Some(k)), h.(plan := Some(k)))
  {
    var g', h' := g.(plan := Some(k)), h.(plan := Some(k));
    assert forall id :: ToolAt(g', id) == ToolAt(g, id) && ToolAt(h', id) == ToolAt(h, id);
  }

  lemma PlanFilled(lo: Key, na: nat, g: Fold, h: Fold, e: Event)
    requires Sim(lo, na, g, h) && e.body.Plan? && g.plan == h.plan && YoungPointer(lo, g.plan)
    ensures var g', h' :=
        if At(g, g.plan).Some? then Bumped(Change(g, g.plan.value, PlanBlock(e.body.entries)), g.plan.value) else g,
        if At(h, h.plan).Some? then Bumped(Change(h, h.plan.value, PlanBlock(e.body.entries)), h.plan.value) else h;
      Sim(lo, na, g', h') && OldKept(lo, na, g, g')
  {
    if At(g, g.plan).Some? {
      ChangeSim(lo, na, g, h, g.plan.value, PlanBlock(e.body.entries));
      BumpedSim(lo, na, Change(g, g.plan.value, PlanBlock(e.body.entries)),
        Change(h, g.plan.value, PlanBlock(e.body.entries)), g.plan.value);
    }
  }

  lemma AnsweredSim(lo: Key, na: nat, g: Fold, h: Fold, kg: Option<Key>, kh: Option<Key>, answer: string)
    requires Sim(lo, na, g, h) && SamePointer(lo, kg, kh) && YoungPointer(lo, kg)
    ensures Sim(lo, na, Answered(g, kg, answer), Answered(h, kh, answer)) && OldKept(lo, na, g, Answered(g, kg, answer))
  {
    if At(g, kg).Some? && At(g, kg).value.AskBlock? {
      var c := At(g, kg).value.(answer := Some(answer));
      ChangeSim(lo, na, g, h, kg.value, c);
      BumpedSim(lo, na, Change(g, kg.value, c), Change(h, kg.value, c), kg.value);
    }
  }

  lemma RequestSim(lo: Key, na: nat, g: Fold, h: Fold, g1: Fold, h1: Fold, k: Key, c: Content)
    requires Sim(lo, na, g, h) && k >= lo && YoungContent(lo, c)
    requires g1 == g.(cur := None, perms := g1.perms, asks := g1.asks)
      && h1 == h.(cur := None, perms := h1.perms, asks := h1.asks)
    requires SameIndex(lo, g1.perms, h1.perms) && SameIndex(lo, g1.asks, h1.asks)
    ensures Sim(lo, na, Open(g1, k, c, None), Open(h1, k, c, None)) && OldKept(lo, na, g, Open(g1, k, c, None))
  {
    assert forall id :: ToolAt(g1, id) == ToolAt(g, id) && ToolAt(h1, id) == ToolAt(h, id);
    OpenSim(lo, na, g1, h1, k, c, None);
  }

  lemma TurnEndSim(lo: Key, na: nat, g: Fold, h: Fold, e: Event)
    requires Sim(lo, na, g, h) && e.body.TurnEnd? && TurnRises(g, e) && TurnRises(h, e) && e.sn >= lo
    ensures Sim(lo, na, Route(g, e), Route(h, e)) && OldKept(lo, na, g, Route(g, e))
  {
    var g1 := g.(cur := None, plan := None, turn := NextTurn(g.turn, e.body.turn));
    var h1 := h.(cur := None, plan := None, turn := NextTurn(h.turn, e.body.turn));
    forall id ensures ToolAt(g1, id) == None && ToolAt(h1, id) == None {
      assert (g1.turn, id) in g.tools ==> (g1.turn, id).0 <= g.turn;
      assert (h1.turn, id) in h.tools ==> (h1.turn, id).0 <= h.turn;
    }
    OpenSim(lo, na, g1, h1, e.sn, TurnBlock(e.body.turn, e.body.stop), None);
  }

  lemma AskSim(lo: Key, na: nat, g: Fold, h: Fold, e: Event)
    requires Sim(lo, na, g, h) && Clean(lo, g, e) && e.sn >= lo
    requires e.body.PermissionRequest? || e.body.ElicitationRequest? || e.body.PermissionResolved?
      || e.body.ElicitationResolved?
    ensures Sim(lo, na, Route(g, e), Route(h, e)) && OldKept(lo, na, g, Route(g, e))
  {
    match e.body {
      case PermissionRequest(pid, ask) =>
        IndexSet(lo, g.perms, h.perms, pid, e.sn);
        RequestSim(lo, na, g, h, g.(cur := None, perms := g.perms[pid := e.sn]),
          h.(cur := None, perms := h.perms[pid := e.sn]),
                   e.sn, AskBlock(pid, ask, None));
      case ElicitationRequest(eid, ask) =>
        IndexSet(lo, g.asks, h.asks, eid, e.sn);
        RequestSim(lo, na, g, h, g.(cur := None, asks := g.asks[eid := e.sn]),
          h.(cur := None, asks := h.asks[eid := e.sn]),
                   e.sn, AskBlock(eid, ask, None));
      case PermissionResolved(pid, answer) =>
        assert SamePointer(lo, Find(g.perms, pid), Find(h.perms, pid));
        AnsweredSim(lo, na, g, h, Find(g.perms, pid), Find(h.perms, pid), answer);
      case ElicitationResolved(eid, answer) =>
        assert SamePointer(lo, Find(g.asks, eid), Find(h.asks, eid));
        AnsweredSim(lo, na, g, h, Find(g.asks, eid), Find(h.asks, eid), answer);
    }
  }

  lemma RouteSim(lo: Key, na: nat, g: Fold, h: Fold, e: Event)
    requires Sim(lo, na, g, h) && Clean(lo, g, e) && TurnRises(g, e) && TurnRises(h, e) && e.sn >= lo
    ensures Sim(lo, na, Route(g, e), Route(h, e)) && OldKept(lo, na, g, Route(g, e))
  {
    match e.body {
      case Message(_, _, _, parent, _, _) => TextSim(lo, na, g, h, e, parent);
      case Thought(_, parent) => TextSim(lo, na, g, h, e, parent);
      case Tool(_, _, _, _, _, _) => PushToolSim(lo, na, g, h, e);
      case FilesChanged(id, _, _) =>
        if id == "" { FilesInsertedSim(lo, na, g, h, e); } else { ToolFilesSim(lo, na, g, h, e); }
      case Plan(_) => PlanSim(lo, na, g, h, e);
      case TurnEnd(_, _) => TurnEndSim(lo, na, g, h, e);
      case Notice(text) => OpenSim(lo, na, g, h, e.sn, NoticeBlock(text), None);
      case Status(_) =>
      case Queue(_) =>
      case _ => AskSim(lo, na, g, h, e);
    }
  }
}
