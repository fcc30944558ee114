/** What a block's version is for: while it stays, the block and everything nested in it are as they were, so what was
    rendered of it may be used again. */
module FoldVersions {
  import opened Options
  import opened FoldSpec
  import opened FoldSim
  import opened FoldSplit
  import opened FoldOrder

  /** What of a block is shown: not what a card goes on with. */
  function Shown(c: Content): Content { if c.ToolBlock? then c.(cur := None) else c }

  /** The block is as it was, or has a later version; and then so has the card it is nested in. */
  ghost predicate Moved(h: map<Key, Block>, h': map<Key, Block>, k: Key)
    requires k in h
  {
    && k in h' && h'[k].up == h[k].up && h[k].v <= h'[k].v
    && (h'[k].v == h[k].v ==> Shown(h'[k].c) == Shown(h[k].c))
    && (h[k].v < h'[k].v && h[k].up.Some? && h[k].up.value in h ==>
         h[k].up.value in h' && h[h[k].up.value].v < h'[h[k].up.value].v)
  }

  ghost predicate Moves(h: map<Key, Block>, h': map<Key, Block>) { forall k :: k in h ==> Moved(h, h', k) }

  lemma MovesBoth(a: map<Key, Block>, b: map<Key, Block>, c: map<Key, Block>)
    requires Moves(a, b) && Moves(b, c)
    ensures Moves(a, c)
  {
    forall k | k in a ensures Moved(a, c, k) {
      assert Moved(a, b, k) && Moved(b, c, k);
      if a[k].up.Some? && a[k].up.value in a { assert Moved(a, b, a[k].up.value) && Moved(b, c, a[k].up.value); }
    }
  }

  lemma MovesSelf(h: map<Key, Block>)
    ensures Moves(h, h)
  {
  }

  // ---- bumps ----

  /** The block and every card around it get a later version, and nothing else does. */
  lemma {:induction false} BumpClimbs(h: map<Key, Block>, k: Key)
    requires CardsFirst(h)
    ensures Bump(h, k).Keys == h.Keys && (k in h ==> h[k].v < Bump(h, k)[k].v)
    ensures forall j :: j in h ==>
      && Bump(h, k)[j].c == h[j].c && Bump(h, k)[j].up == h[j].up && h[j].v <= Bump(h, k)[j].v
      && (h[j].v < Bump(h, k)[j].v && h[j].up.Some? && h[j].up.value in h ==>
           h[h[j].up.value].v < Bump(h, k)[h[j].up.value].v)
    decreases k
  {
    if k in h {
      var h1 := h[k := h[k].(v := h[k].v + 1)];
      if h[k].up.Some? { BumpClimbs(h1, h[k].up.value); }
    }
  }

  /** A block changes, and is bumped. */
  lemma ChangeMoves(f: Fold, k: Key, c: Content)
    requires CardsFirst(f.heap) && k in f.heap
    ensures Moves(f.heap, Bumped(Change(f, k, c), k).heap) && CardsFirst(Bumped(Change(f, k, c), k).heap)
  {
    var h := Change(f, k, c).heap;
    BumpClimbs(h, k);
    hide Bump;
    forall j | j in f.heap ensures Moved(f.heap, Bump(h, k), j) {}
  }

  lemma DoneMoves(f: Fold, k: Option<Key>, ts: nat)
    requires CardsFirst(f.heap)
    ensures Moves(f.heap, Done(f, k, ts).heap) && CardsFirst(Done(f, k, ts).heap)
  {
    MovesSelf(f.heap);
    if Running(At(f, k)) {
      var t := f.heap[k.value].c;
      ChangeMoves(f, k.value, ThoughtBlock(t.text, t.t0, if ts > 0 then ts else t.t1, true));
    }
  }

  lemma {:induction false} DoneAllMoves(f: Fold, ks: seq<Key>)
    requires CardsFirst(f.heap)
    ensures Moves(f.heap, DoneAll(f, ks).heap) && CardsFirst(DoneAll(f, ks).heap)
  {
    hide Moves, CardsFirst;
    if ks == [] {
      MovesSelf(f.heap);
    } else {
      var f1 := DoneAll(f, ks[..|ks| - 1]);
      DoneAllMoves(f, ks[..|ks| - 1]);
      DoneMoves(f1, Some(ks[|ks| - 1]), 0);
      MovesBoth(f.heap, f1.heap, DoneAll(f, ks).heap);
    }
  }

  /** A block opens in a card, which is bumped, or in the log. */
  lemma OpenMoves(f: Fold, k: Key, c: Content, into: Option<Key>)
    requires CardsFirst(f.heap) && k !in f.heap && (into.Some? ==> IsBox(At(f, into)) && into.value < k)
    ensures Moves(f.heap, Open(f, k, c, into).heap) && CardsFirst(Open(f, k, c, into).heap)
  {
    if into.Some? {
      BumpClimbs(f.heap, into.value);
      OpenIn(f, k, c, into.value);
      hide Bump, Open;
      var h' := Open(f, k, c, into).heap;
      forall j | j in f.heap ensures Moved(f.heap, h', j) {}
      forall j | j in h' && h'[j].up.Some? ensures h'[j].up.value < j {}
    }
  }

  lemma OpenIn(f: Fold, k: Key, c: Content, into: Key)
    requires k !in f.heap && IsBox(At(f, Some(into)))
    ensures var h, h' := Bump(f.heap, into), Open(f, k, c, Some(into)).heap;
      && h.Keys == f.heap.Keys && h'.Keys == f.heap.Keys + {k} && h'[k] == Block(c, 0, Some(into))
      && forall j :: j in f.heap ==> h'[j].v == h[j].v && h'[j].up == h[j].up && (j != into ==> h'[j].c == h[j].c)
  {
    hide Bump, Open;
    BumpContents(f.heap, into);
    var card := OpenHeap(f, k, c, into);
  }

  lemma OpenHeap(f: Fold, k: Key, c: Content, into: Key) returns (card: Content)
    requires k !in f.heap && IsBox(At(f, Some(into)))
    ensures var h := Bump(f.heap, into);
      into in h && Open(f, k, c, Some(into)).heap == h[k := Block(c, 0, Some(into))][into := h[into].(c := card)]
  {
    hide Bump;
    BumpContents(f.heap, into);
    card := f.heap[into].c.(children := Some(f.heap[into].c.children.value + [k]));
  }

  lemma SetCurMoves(f: Fold, into: Option<Key>, k: Option<Key>)
    requires CardsFirst(f.heap)
    ensures Moves(f.heap, SetCur(f, into, k).heap) && CardsFirst(SetCur(f, into, k).heap)
    ensures SetCur(f, into, k).heap.Keys == f.heap.Keys
  {
    forall j | j in f.heap ensures Moved(f.heap, SetCur(f, into, k).heap, j) {}
  }

  // ---- events ----

  lemma TextMoves(f: Fold, e: Event, parent: string)
    requires (e.body.Message? || e.body.Thought?) && CardsFirst(f.heap) && forall k :: k in f.heap ==> k < e.sn
    ensures Moves(f.heap, PushText(f, e, parent).heap)
  {
    hide Moves, CardsFirst, Done, SetCur, Open, Bump;
    var into := Box(f, parent);
    var c := Cur(f, into);
    DoneMoves(f, c, e.ts);
    DoneSame(f, c, e.ts);
    var f1 := if e.body.Message? then Done(f, c, e.ts) else f;
    MovesSelf(f.heap);
    if Continues(At(f1, c), e.body) {
      ChangeMoves(f1, c.value, Continued(f1.heap[c.value].c, e));
      var f2 := Bumped(Change(f1, c.value, Continued(f1.heap[c.value].c, e)), c.value);
      SetCurMoves(f2, into, c);
      MovesBoth(f.heap, f1.heap, f2.heap);
      MovesBoth(f.heap, f2.heap, SetCur(f2, into, c).heap);
    } else {
      var b := if e.body.Thought? then ThoughtBlock(e.body.text, e.ts, e.ts, false)
               else MsgBlock(e.body.role, e.body.mid, e.body.text, e.body.files, e.body.steered);
      OpenMoves(f1, e.sn, b, into);
      var f2 := Open(f1, e.sn, b, into);
      SetCurMoves(f2, into, Some(e.sn));
      MovesBoth(f.heap, f1.heap, f2.heap);
      MovesBoth(f.heap, f2.heap, SetCur(f2, into, Some(e.sn)).heap);
    }
  }

  lemma MergeMoves(f: Fold, t: Key, d: Body)
    requires d.Tool? && CardsFirst(f.heap)
    ensures Moves(f.heap, FoldTool(f, t, d).heap)
  {
    MovesSelf(f.heap);
    if t in f.heap && f.heap[t].c.ToolBlock? {
      var c := Merged(f.heap[t].c, d);
      var g := Change(f, t, c).(byId := f.byId[d.id := t]);
      var g1 := if c.children.Some? && Finished(c) then DoneAll(g, c.children.value) else g;
      DoneAllMoves(g, if c.children.Some? then c.children.value else []);
      MovesSelf(g.heap);
      hide DoneAll, Merged, Finished, Bump;
      ChangedThen(f, t, c, g1.heap);
    }
  }

  /** A block changes, others move, and then it is bumped. */
  lemma ChangedThen(f: Fold, t: Key, c: Content, h: map<Key, Block>)
    requires CardsFirst(f.heap) && t in f.heap && Moves(Change(f, t, c).heap, h) && CardsFirst(h)
    ensures Moves(f.heap, Bump(h, t))
  {
    var h0 := Change(f, t, c).heap;
    BumpClimbs(h, t);
    hide Bump;
    forall k | k in f.heap ensures Moved(f.heap, Bump(h, t), k) {
      assert Moved(h0, h, k);
      if f.heap[k].up.Some? && f.heap[k].up.value in f.heap { assert Moved(h0, h, f.heap[k].up.value); }
    }
  }

  lemma ToolMoves(f: Fold, e: Event)
    requires e.body.Tool? && CardsFirst(f.heap) && forall k :: k in f.heap ==> k < e.sn
    ensures Moves(f.heap, PushTool(f, e).heap)
  {
    hide Moves, CardsFirst, Done, SetCur, Open, FoldTool, Cur;
    var d := e.body;
    var known, into := ToolAt(f, d.id), ToolBox(f, d.id, d.parent);
    var f0 := if into.Some? then Done(f, Cur(f, into), 0) else f;
    var f1 := SetCur(f0, into, None);
    DoneMoves(f, Cur(f, into), 0);
    DoneSame(f, Cur(f, into), 0);
    MovesSelf(f.heap);
    SetCurMoves(f0, into, None);
    MovesBoth(f.heap, f0.heap, f1.heap);
    StillCard(f0, into);
    if known.Some? {
      MergeMoves(f1, known.value, d);
      MovesBoth(f.heap, f1.heap, PushTool(f, e).heap);
    } else {
      OpenMoves(f1, e.sn, NewTool(d.id, e.ts), into);
      var f2 := Open(f1, e.sn, NewTool(d.id, e.ts), into).(tools := f1.tools[(f1.turn, d.id) := e.sn]);
      MergeMoves(f2, e.sn, d);
      MovesBoth(f.heap, f1.heap, f2.heap);
      MovesBoth(f.heap, f2.heap, PushTool(f, e).heap);
    }
  }

  lemma StillCard(f: Fold, into: Option<Key>)
    ensures IsBox(At(f, into)) ==> IsBox(At(SetCur(f, into, None), into))
  {
  }

  lemma OtherMoves(f: Fold, e: Event)
    requires !e.body.Tool? && !e.body.Message? && !e.body.Thought?
    requires CardsFirst(f.heap) && forall k :: k in f.heap ==> k < e.sn
    ensures Moves(f.heap, Route(f, e).heap)
  {
    hide Moves, CardsFirst, Open, Bump, PushPlan;
    MovesSelf(f.heap);
    match e.body {
      case FilesChanged(id, ended, patch) => FilesMoves(f, e);
      case Plan(_) => PlanMoves(f, e);
      case PermissionRequest(pid, ask) =>
        OpenMoves(f.(cur := None, perms := f.perms[pid := e.sn]), e.sn, AskBlock(pid, ask, None), None);
      case ElicitationRequest(eid, ask) =>
        OpenMoves(f.(cur := None, asks := f.asks[eid := e.sn]), e.sn, AskBlock(eid, ask, None), None);
      case PermissionResolved(pid, answer) => AnswerMoves(f, Find(f.perms, pid), answer);
      case ElicitationResolved(eid, answer) => AnswerMoves(f, Find(f.asks, eid), answer);
      case TurnEnd(turn, stop) =>
        OpenMoves(f.(cur := None, plan := None, turn := NextTurn(f.turn, turn)), e.sn, TurnBlock(turn, stop), None);
      case Notice(text) => OpenMoves(f, e.sn, NoticeBlock(text), None);
      case _ =>
    }
  }

  lemma FilesMoves(f: Fold, e: Event)
    requires e.body.FilesChanged? && CardsFirst(f.heap) && e.sn !in f.heap
    ensures Moves(f.heap, PushFiles(f, e).heap)
  {
    hide Bump;
    MovesSelf(f.heap);
    var t := ChangedTool(f, e.body.toolCallId);
    if e.body.toolCallId != "" && At(f, t).Some? && At(f, t).value.ToolBlock? {
      ChangeMoves(f, t.value, At(f, t).value.(diff := Some(e.body.patch)));
    }
  }

  lemma AnswerMoves(f: Fold, k: Option<Key>, answer: string)
    requires CardsFirst(f.heap)
    ensures Moves(f.heap, Answered(f, k, answer).heap)
  {
    hide Bump;
    MovesSelf(f.heap);
    if At(f, k).Some? && At(f, k).value.AskBlock? {
      ChangeMoves(f, k.value, At(f, k).value.(answer := Some(answer)));
    }
  }

  lemma PlanMoves(f: Fold, e: Event)
    requires e.body.Plan? && CardsFirst(f.heap) && e.sn !in f.heap
    ensures Moves(f.heap, PushPlan(f, e).heap)
  {
    hide Moves, CardsFirst, Open, Bump;
    MovesSelf(f.heap);
    var f1 := f.(cur := None);
    OpenMoves(f1, e.sn, PlanBlock(""), None);
    var f2 := if f.plan.Some? then f1 else Open(f1, e.sn, PlanBlock(""), None).(plan := Some(e.sn));
    if At(f2, f2.plan).Some? {
      ChangeMoves(f2, f2.plan.value, PlanBlock(e.body.entries));
      MovesBoth(f.heap, f2.heap, PushPlan(f, e).heap);
    }
  }

  lemma PushMoves(f: Fold, e: Event)
    requires CardsFirst(f.heap) && forall k :: k in f.heap ==> k < e.sn
    ensures Moves(f.heap, Push(f, e).heap)
  {
    hide Moves, CardsFirst, Done, PushText, PushTool;
    var f0 := f.(lastSeq := if e.sn > f.lastSeq then e.sn else f.lastSeq);
    var f1 := if LeavesThought(e.body) then f0 else Done(f0, f0.cur, e.ts);
    DoneMoves(f0, f0.cur, e.ts);
    DoneSame(f0, f0.cur, e.ts);
    MovesSelf(f.heap);
    match e.body {
      case Message(_, _, _, parent, _, _) => TextMoves(f1, e, parent);
      case Thought(_, parent) => TextMoves(f1, e, parent);
      case Tool(_, _, _, _, _, _) => ToolMoves(f1, e);
      case _ => OtherMoves(f1, e);
    }
    MovesBoth(f.heap, f1.heap, Push(f, e).heap);
  }

  // ---- runs ----

  predicate InOrder(events: seq<Event>) { forall i, j :: 0 <= i < j < |events| ==> events[i].sn < events[j].sn }

  /** As a log grows, a block whose version stays is as it was. */
  lemma {:induction false} VersionsTell(seed: nat, log: seq<Event>, n: nat, m: nat)
    requires InOrder(log) && n <= m <= |log|
    ensures Moves(FoldFrom(Seeded(seed), log[..n]).heap, FoldFrom(Seeded(seed), log[..m]).heap)
  {
    hide Moves, Push;
    if n == m {
      MovesSelf(FoldFrom(Seeded(seed), log[..n]).heap);
    } else {
      VersionsTell(seed, log, n, m - 1);
      assert log[..m][..m - 1] == log[..m - 1];
      FoldOrder.FoldOrder(seed, log[..m - 1]);
      var f := FoldFrom(Seeded(seed), log[..m - 1]);
      PushMoves(f, log[m - 1]);
      MovesBoth(FoldFrom(Seeded(seed), log[..n]).heap, f.heap, Push(f, log[m - 1]).heap);
    }
  }

  /** Nested in a block, however deep. */
  ghost predicate Within(h: map<Key, Block>, x: Key, k: Key)
    decreases x
  {
    x in h && h[x].up.Some? && h[x].up.value in h && h[x].up.value < x
    && (h[x].up.value == k || Within(h, h[x].up.value, k))
  }

  /** And so is everything nested in it: what was made of a block and what is in it holds while its version does. */
  lemma {:induction false} VersionCoversNested(seed: nat, log: seq<Event>, n: nat, m: nat, x: Key, k: Key)
    requires InOrder(log) && n <= m <= |log|
    requires var h, h' := FoldFrom(Seeded(seed), log[..n]).heap, FoldFrom(Seeded(seed), log[..m]).heap;
      k in h && k in h' && h'[k].v == h[k].v && (x == k || Within(h, x, k))
    ensures var h, h' := FoldFrom(Seeded(seed), log[..n]).heap, FoldFrom(Seeded(seed), log[..m]).heap;
      x in h && x in h' && h'[x].v == h[x].v && Shown(h'[x].c) == Shown(h[x].c) && h'[x].up == h[x].up
    decreases x
  {
    VersionsTell(seed, log, n, m);
    var h, h' := FoldFrom(Seeded(seed), log[..n]).heap, FoldFrom(Seeded(seed), log[..m]).heap;
    hide FoldFrom;
    assert x in h && Moved(h, h', x);
    if x != k { VersionCoversNested(seed, log, n, m, h[x].up.value, k); }
  }
}
