/** What a later part of a log does to the blocks of an earlier part: they stay as they were exactly when no later event
    writes to one. */
module FoldWrites {
  import opened Options
  import opened FoldSpec
  import opened FoldSim
  import opened FoldSplit
  import opened FoldSeed
  import opened FoldYoung

  predicate OldPointer(lo: Key, k: Option<Key>) { k.Some? && k.value < lo }

  /** The event writes to a block older than `lo`: it ends that block's thought, goes on with its text, or resolves to
      it. */
  predicate Writes(lo: Key, f: Fold, e: Event) {
    || (!LeavesThought(e.body) && Running(At(f, f.cur)) && OldPointer(lo, f.cur))
    || WritesTo(lo, f, e.body)
  }

  predicate WritesTo(lo: Key, f: Fold, b: Body) {
    match b
    case Message(_, _, _, parent, _, _) => WritesText(lo, f, b, parent)
    case Thought(_, parent) => WritesText(lo, f, b, parent)
    case Tool(id, parent, _, _, _, _) =>
      var known, into := ToolAt(f, id), ToolBox(f, id, parent);
      OldPointer(lo, known) || (OldPointer(lo, into) && (known.None? || Cur(f, into).Some?))
    case FilesChanged(id, _, _) => id != "" && OldPointer(lo, ChangedTool(f, id))
    case Plan(_) => OldPointer(lo, f.plan)
    case PermissionResolved(pid, _) => OldPointer(lo, Find(f.perms, pid))
    case ElicitationResolved(eid, _) => OldPointer(lo, Find(f.asks, eid))
    case _ => false
  }

  predicate WritesText(lo: Key, f: Fold, b: Body, parent: string) {
    OldPointer(lo, Box(f, parent)) || (Box(f, parent).None? && Continues(At(f, f.cur), b) && OldPointer(lo, f.cur))
  }

  /** No event of a run does. */
  predicate WritesNothing(lo: Key, f: Fold, events: seq<Event>) {
    forall i :: 0 <= i < |events| ==> !Writes(lo, FoldFrom(f, events[..i]), events[i])
  }

  // ---- heaps only grow ----

  /** A card's running text stays or ends. */
  predicate CurKept(c: Content, d: Content) { c.ToolBlock? && d.ToolBlock? ==> d.cur == c.cur || d.cur.None? }

  predicate CurEnded(c: Content, d: Content) { c.ToolBlock? && d.ToolBlock? && c.cur.Some? && d.cur.None? }

  predicate SameKind(c: Content, d: Content) {
    (c.ToolBlock? <==> d.ToolBlock?) && (c.AskBlock? <==> d.AskBlock?) && (c.PlanBlock? <==> d.PlanBlock?)
  }

  predicate Newer(a: Block, b: Block) { SameKind(a.c, b.c) && (a.v < b.v || (a.v == b.v && CurKept(a.c, b.c))) }

  predicate Altered(a: Block, b: Block) { a.v < b.v || (a.v == b.v && CurEnded(a.c, b.c)) }

  /** Every block stays, at its version or a later one; new ones are not older than `lo`. */
  ghost predicate Grows(lo: Key, h: map<Key, Block>, h': map<Key, Block>) {
    && (forall k :: k in h ==> k in h' && Newer(h[k], h'[k]))
    && forall k :: k in h' && k < lo ==> k in h
  }

  /** An older block is not what it was. */
  ghost predicate Wrote(lo: Key, h: map<Key, Block>, h': map<Key, Block>) {
    exists k :: k in h && k in h' && k < lo && Altered(h[k], h'[k])
  }

  /** The indexes point at blocks of their kind. */
  ghost predicate Indexed(f: Fold) {
    && (forall k :: k in f.tools ==> f.tools[k] in f.heap && f.heap[f.tools[k]].c.ToolBlock?)
    && (forall k :: k in f.byId ==> f.byId[k] in f.heap && f.heap[f.byId[k]].c.ToolBlock?)
    && (forall k :: k in f.perms ==> f.perms[k] in f.heap && f.heap[f.perms[k]].c.AskBlock?)
    && (forall k :: k in f.asks ==> f.asks[k] in f.heap && f.heap[f.asks[k]].c.AskBlock?)
    && (f.plan.Some? ==> f.plan.value in f.heap && f.heap[f.plan.value].c.PlanBlock?)
  }

  /** What an older card goes on with is older too. */
  ghost predicate OldCards(lo: Key, h: map<Key, Block>) {
    forall k :: k in h && k < lo && h[k].c.ToolBlock? && h[k].c.cur.Some? ==> h[k].c.cur.value < lo
  }

  lemma GrowsBoth(lo: Key, a: map<Key, Block>, b: map<Key, Block>, c: map<Key, Block>)
    requires Grows(lo, a, b) && Grows(lo, b, c)
    ensures Grows(lo, a, c) && (Wrote(lo, a, b) || Wrote(lo, b, c) ==> Wrote(lo, a, c))
  {
  }

  lemma GrownIndexed(lo: Key, f: Fold, h: map<Key, Block>)
    requires Indexed(f) && Grows(lo, f.heap, h)
    ensures Indexed(f.(heap := h))
  {
  }

  lemma BumpGrows(lo: Key, h: map<Key, Block>, k: Key)
    ensures Grows(lo, h, Bump(h, k)) && (k in h ==> Bump(h, k)[k].v > h[k].v)
      && (k in h && k < lo ==> Wrote(lo, h, Bump(h, k)))
  {
    BumpContents(h, k);
    if k in h {
      var h1 := h[k := h[k].(v := h[k].v + 1)];
      if h[k].up.Some? { BumpContents(h1, h[k].up.value); }
      assert Bump(h, k)[k].v > h[k].v;
    }
  }

  lemma ChangeGrows(lo: Key, f: Fold, k: Key, c: Content)
    requires k in f.heap && SameKind(f.heap[k].c, c) && CurKept(f.heap[k].c, c)
    ensures Grows(lo, f.heap, Change(f, k, c).heap)
    ensures k < lo && CurEnded(f.heap[k].c, c) ==> Wrote(lo, f.heap, Change(f, k, c).heap)
  {
  }

  lemma BumpedGrows(lo: Key, f: Fold, k: Key, c: Content)
    requires k in f.heap && SameKind(f.heap[k].c, c) && CurKept(f.heap[k].c, c)
    ensures Grows(lo, f.heap, Bumped(Change(f, k, c), k).heap)
    ensures k < lo ==> Wrote(lo, f.heap, Bumped(Change(f, k, c), k).heap)
  {
    var h := Change(f, k, c).heap;
    ChangeGrows(lo, f, k, c);
    BumpGrows(lo, h, k);
    GrowsBoth(lo, f.heap, h, Bump(h, k));
  }

  lemma DoneGrows(lo: Key, f: Fold, k: Option<Key>, ts: nat)
    ensures Grows(lo, f.heap, Done(f, k, ts).heap)
    ensures Running(At(f, k)) && k.value < lo ==> Wrote(lo, f.heap, Done(f, k, ts).heap)
  {
    match At(f, k)
    case Some(ThoughtBlock(text, t0, t1, false)) =>
      BumpedGrows(lo, f, k.value, ThoughtBlock(text, t0, if ts > 0 then ts else t1, true));
    case _ =>
  }

  lemma {:induction false} DoneAllGrows(lo: Key, f: Fold, ks: seq<Key>)
    ensures Grows(lo, f.heap, DoneAll(f, ks).heap)
  {
    if ks != [] {
      var f1 := DoneAll(f, ks[..|ks| - 1]);
      DoneAllGrows(lo, f, ks[..|ks| - 1]);
      DoneGrows(lo, f1, Some(ks[|ks| - 1]), 0);
      GrowsBoth(lo, f.heap, f1.heap, DoneAll(f, ks).heap);
    }
  }

  lemma AddGrows(lo: Key, h: map<Key, Block>, k: Key, b: Block)
    requires k !in h && k >= lo
    ensures Grows(lo, h, h[k := b])
  {
  }

  /** A block opened in a card gives the card a new version. */
  lemma OpenGrows(lo: Key, f: Fold, k: Key, c: Content, into: Option<Key>)
    requires k !in f.heap && k >= lo && (into.Some? ==> IsBox(At(f, into)))
    ensures var h := Open(f, k, c, into).heap;
      && Grows(lo, f.heap, h) && k in h && h[k].c == c
      && (into.Some? ==> into.value in h && h[into.value].c.ToolBlock? && h[into.value].v > f.heap[into.value].v)
  {
    hide Bump, Grows, Wrote;
    if into.Some? {
      BumpGrows(lo, f.heap, into.value);
      BumpContents(f.heap, into.value);
      var h := Bump(f.heap, into.value);
      var h1 := h[k := Block(c, 0, into)];
      AddGrows(lo, h, k, Block(c, 0, into));
      var g := f.(heap := h1);
      ChangeGrows(lo, g, into.value, h1[into.value].c.(children := Some(f.heap[into.value].c.children.value + [k])));
      GrowsBoth(lo, f.heap, h, h1);
      GrowsBoth(lo, f.heap, h1, Open(f, k, c, into).heap);
    } else {
      AddGrows(lo, f.heap, k, Block(c, 0, None));
    }
  }

  /** What was given a new version may go on with anything. */
  lemma NewerMayPoint(lo: Key, h: map<Key, Block>, f: Fold, into: Key, k: Option<Key>)
    requires Grows(lo, h, f.heap) && into in h && into in f.heap && h[into].v < f.heap[into].v
      && f.heap[into].c.ToolBlock?
    ensures Grows(lo, h, SetCur(f, Some(into), k).heap) && (into < lo ==> Wrote(lo, h, SetCur(f, Some(into), k).heap))
  {
  }

  lemma SetCurGrows(lo: Key, f: Fold, into: Option<Key>, k: Option<Key>)
    requires k.None? || k == Cur(f, into)
    ensures Grows(lo, f.heap, SetCur(f, into, k).heap)
    ensures k.None? && OldPointer(lo, into) && IsBox(At(f, into)) && Cur(f, into).Some? ==>
      Wrote(lo, f.heap, SetCur(f, into, k).heap)
  {
    match At(f, into)
    case Some(ToolBlock(_, _, _, _, _, _, _)) => ChangeGrows(lo, f, into.value, f.heap[into.value].c.(cur := k));
    case _ =>
  }

  // ---- one event ----

  lemma TextGoesOn(lo: Key, f: Fold, e: Event, into: Option<Key>, c: Key)
    requires Continues(At(f, Some(c)), e.body) && Cur(f, into) == Some(c)
    ensures var f' := SetCur(Bumped(Change(f, c, Continued(f.heap[c].c, e)), c), into, Some(c));
      Grows(lo, f.heap, f'.heap) && (c < lo ==> Wrote(lo, f.heap, f'.heap))
  {
    var f1 := Change(f, c, Continued(f.heap[c].c, e));
    BumpedGrows(lo, f, c, Continued(f.heap[c].c, e));
    BumpContents(f1.heap, c);
    hide Bump, Grows, Wrote;
    SetCurGrows(lo, Bumped(f1, c), into, Some(c));
    GrowsBoth(lo, f.heap, Bumped(f1, c).heap, SetCur(Bumped(f1, c), into, Some(c)).heap);
  }

  lemma TextOpens(lo: Key, f: Fold, sn: Key, c: Content, into: Option<Key>)
    requires sn !in f.heap && sn >= lo && (into.Some? ==> IsBox(At(f, into)))
    ensures var f' := SetCur(Open(f, sn, c, into), into, Some(sn));
      Grows(lo, f.heap, f'.heap) && (OldPointer(lo, into) ==> Wrote(lo, f.heap, f'.heap))
  {
    OpenGrows(lo, f, sn, c, into);
    hide Open, Grows, Wrote;
    if into.Some? { NewerMayPoint(lo, f.heap, Open(f, sn, c, into), into.value, Some(sn)); }
  }

  lemma TextGrows(lo: Key, f: Fold, e: Event, parent: string)
    requires (e.body.Message? || e.body.Thought?) && e.sn !in f.heap && e.sn >= lo
    ensures var h := PushText(f, e, parent).heap;
      Grows(lo, f.heap, h) && (OldCards(lo, f.heap) && WritesText(lo, f, e.body, parent) ==> Wrote(lo, f.heap, h))
  {
    var into := Box(f, parent);
    var c := Cur(f, into);
    var f1 := if e.body.Message? then Done(f, c, e.ts) else f;
    DoneGrows(lo, f, c, e.ts);
    DoneSame(f, c, e.ts);
    StaysBox(f, into, c, e.ts);
    hide Done, Grows, Wrote, OldCards;
    if OldCards(lo, f.heap) { OldCardAt(lo, f, into); }
    if Continues(At(f1, c), e.body) {
      GoesOnAlike(f, c, e);
      TextGoesOn(lo, f1, e, into, c.value);
    } else {
      var b := if e.body.Thought? then ThoughtBlock(e.body.text, e.ts, e.ts, false)
               else MsgBlock(e.body.role, e.body.mid, e.body.text, e.body.files, e.body.steered);
      NotOnAlike(f, c, e);
      TextOpens(lo, f1, e.sn, b, into);
    }
    GrowsSelf(lo, f.heap);
    GrowsBoth(lo, f.heap, f1.heap, PushText(f, e, parent).heap);
  }

  lemma GrowsSelf(lo: Key, h: map<Key, Block>)
    ensures Grows(lo, h, h)
  {
  }

  lemma StaysBox(f: Fold, into: Option<Key>, c: Option<Key>, ts: nat)
    ensures IsBox(At(f, into)) ==> IsBox(At(Done(f, c, ts), into)) && Cur(Done(f, c, ts), into) == Cur(f, into)
    ensures into.None? ==> Cur(Done(f, c, ts), into) == Cur(f, into)
  {
    DoneSame(f, c, ts);
  }

  lemma OldCardAt(lo: Key, f: Fold, into: Option<Key>)
    requires OldCards(lo, f.heap)
    ensures OldPointer(lo, into) && IsBox(At(f, into)) && Cur(f, into).Some? ==> Cur(f, into).value < lo
  {
  }

  lemma GoesOnAlike(f: Fold, c: Option<Key>, e: Event)
    ensures e.body.Message? && Continues(At(Done(f, c, e.ts), c), e.body) ==> Continues(At(f, c), e.body)
  {
    DoneSame(f, c, e.ts);
  }

  lemma NotOnAlike(f: Fold, c: Option<Key>, e: Event)
    ensures e.body.Message? && Continues(At(f, c), e.body) ==> Continues(At(Done(f, c, e.ts), c), e.body)
  {
  }

  lemma FoldToolGrows(lo: Key, f: Fold, t: Key, d: Body)
    requires d.Tool? && t in f.heap && f.heap[t].c.ToolBlock?
    ensures var h := FoldTool(f, t, d).heap; Grows(lo, f.heap, h) && (t < lo ==> Wrote(lo, f.heap, h))
  {
    var c := Merged(f.heap[t].c, d);
    var g := Change(f, t, c).(byId := f.byId[d.id := t]);
    ChangeGrows(lo, f, t, c);
    var ks := if c.children.Some? then c.children.value else [];
    DoneAllGrows(lo, g, ks);
    var g1 := if c.children.Some? && Finished(c) then DoneAll(g, ks) else g;
    GrowsSelf(lo, g.heap);
    hide Merged, Change, DoneAll, Bump, Wrote, Finished;
    BumpGrows(lo, g1.heap, t);
    assert t in g1.heap;
    hide Grows;
    GrowsBoth(lo, f.heap, g.heap, g1.heap);
    GrowsBoth(lo, f.heap, g1.heap, Bump(g1.heap, t));
  }

  /** A card that a tool call enters ends its running text. */
  lemma EnterGrows(lo: Key, f: Fold, into: Option<Key>)
    requires into.Some? ==> IsBox(At(f, into))
    ensures var f1 := SetCur(if into.Some? then Done(f, Cur(f, into), 0) else f, into, None);
      && Grows(lo, f.heap, f1.heap) && f1.heap.Keys == f.heap.Keys
      && (OldPointer(lo, into) && Cur(f, into).Some? ==> Wrote(lo, f.heap, f1.heap))
      && (into.Some? ==> IsBox(At(f1, into)))
  {
    var g := if into.Some? then Done(f, Cur(f, into), 0) else f;
    DoneGrows(lo, f, Cur(f, into), 0);
    DoneSame(f, Cur(f, into), 0);
    StaysBox(f, into, Cur(f, into), 0);
    GrowsSelf(lo, f.heap);
    hide Done, Grows, Wrote;
    SetCurGrows(lo, g, into, None);
    GrowsBoth(lo, f.heap, g.heap, SetCur(g, into, None).heap);
  }

  lemma ToolGrows(lo: Key, f: Fold, e: Event)
    requires e.body.Tool? && Indexed(f) && e.sn !in f.heap && e.sn >= lo
    ensures var h := PushTool(f, e).heap; Grows(lo, f.heap, h) && (WritesTo(lo, f, e.body) ==> Wrote(lo, f.heap, h))
  {
    var d := e.body;
    var known, into := ToolAt(f, d.id), ToolBox(f, d.id, d.parent);
    assert known.Some? ==> known.value in f.heap && f.heap[known.value].c.ToolBlock?;
    EnterGrows(lo, f, into);
    var f1 := SetCur(if into.Some? then Done(f, Cur(f, into), 0) else f, into, None);
    hide Grows, Wrote, SetCur, Done, Open, FoldTool, IsBox;
    if known.Some? {
      ToolStays(lo, f.heap, f1.heap, known.value);
      FoldToolGrows(lo, f1, known.value, d);
      GrowsBoth(lo, f.heap, f1.heap, FoldTool(f1, known.value, d).heap);
    } else {
      var o := Open(f1, e.sn, NewTool(d.id, e.ts), into);
      var f2 := o.(tools := f1.tools[(f1.turn, d.id) := e.sn]);
      OpenGrows(lo, f1, e.sn, NewTool(d.id, e.ts), into);
      OpenInto(lo, f1, e.sn, NewTool(d.id, e.ts), into);
      FoldToolGrows(lo, f2, e.sn, d);
      GrowsBoth(lo, f.heap, f1.heap, f2.heap);
      GrowsBoth(lo, f.heap, f2.heap, FoldTool(f2, e.sn, d).heap);
    }
  }

  lemma ToolStays(lo: Key, h: map<Key, Block>, h': map<Key, Block>, k: Key)
    requires Grows(lo, h, h') && k in h && h[k].c.ToolBlock?
    ensures k in h' && h'[k].c.ToolBlock?
  {
  }

  lemma OpenInto(lo: Key, f: Fold, k: Key, c: Content, into: Option<Key>)
    requires k !in f.heap && k >= lo && (into.Some? ==> IsBox(At(f, into)))
    ensures OldPointer(lo, into) ==> Wrote(lo, f.heap, Open(f, k, c, into).heap)
  {
    OpenGrows(lo, f, k, c, into);
    hide Open;
  }

  lemma FilesGrow(lo: Key, f: Fold, e: Event)
    requires e.body.FilesChanged? && Indexed(f) && e.sn !in f.heap && e.sn >= lo
    ensures var h := PushFiles(f, e).heap; Grows(lo, f.heap, h) && (WritesTo(lo, f, e.body) ==> Wrote(lo, f.heap, h))
  {
    var d := e.body;
    if d.toolCallId != "" {
      var t := ChangedTool(f, d.toolCallId);
      if t.Some? { BumpedGrows(lo, f, t.value, f.heap[t.value].c.(diff := Some(d.patch))); }
    } else {
      AddGrows(lo, f.heap, e.sn, Block(ChangesBlock(d.turn, d.patch), 0, None));
    }
  }

  lemma PlanGrows(lo: Key, f: Fold, e: Event)
    requires e.body.Plan? && Indexed(f) && e.sn !in f.heap && e.sn >= lo
    ensures var h := PushPlan(f, e).heap; Grows(lo, f.heap, h) && (WritesTo(lo, f, e.body) ==> Wrote(lo, f.heap, h))
  {
    var f1 := f.(cur := None);
    if f.plan.Some? {
      BumpedGrows(lo, f1, f.plan.value, PlanBlock(e.body.entries));
    } else {
      var f2 := Open(f1, e.sn, PlanBlock(""), None).(plan := Some(e.sn));
      AddGrows(lo, f.heap, e.sn, Block(PlanBlock(""), 0, None));
      BumpedGrows(lo, f2, e.sn, PlanBlock(e.body.entries));
      hide Bump;
      GrowsBoth(lo, f.heap, f2.heap, PushPlan(f, e).heap);
    }
  }

  lemma AnsweredGrows(lo: Key, f: Fold, k: Option<Key>, answer: string)
    requires k.Some? ==> k.value in f.heap && f.heap[k.value].c.AskBlock?
    ensures var h := Answered(f, k, answer).heap; Grows(lo, f.heap, h) && (OldPointer(lo, k) ==> Wrote(lo, f.heap, h))
  {
    match At(f, k)
    case Some(AskBlock(id, ask, was)) => BumpedGrows(lo, f, k.value, AskBlock(id, ask, Some(answer)));
    case _ =>
  }

  lemma RouteGrows(lo: Key, f: Fold, e: Event)
    requires Indexed(f) && e.sn !in f.heap && e.sn >= lo
    ensures var h := Route(f, e).heap;
      Grows(lo, f.heap, h) && (OldCards(lo, f.heap) && WritesTo(lo, f, e.body) ==> Wrote(lo, f.heap, h))
  {
    hide PushText, PushTool, PushFiles, PushPlan, Answered, Grows, Wrote, OldCards, WritesText, Open;
    match e.body {
      case Message(_, _, _, parent, _, _) => TextGrows(lo, f, e, parent);
      case Thought(_, parent) => TextGrows(lo, f, e, parent);
      case Tool(_, _, _, _, _, _) => ToolGrows(lo, f, e);
      case FilesChanged(_, _, _) => FilesGrow(lo, f, e);
      case Plan(_) => PlanGrows(lo, f, e);
      case PermissionResolved(pid, answer) =>
        FoundIsAsk(f.perms, f.heap, pid);
        AnsweredGrows(lo, f, Find(f.perms, pid), answer);
      case ElicitationResolved(eid, answer) =>
        FoundIsAsk(f.asks, f.heap, eid);
        AnsweredGrows(lo, f, Find(f.asks, eid), answer);
      case _ => OpensOne(lo, f, e);
    }
  }

  lemma FoundIsAsk(m: map<string, Key>, h: map<Key, Block>, id: string)
    requires forall k :: k in m ==> m[k] in h && h[m[k]].c.AskBlock?
    ensures Find(m, id).Some? ==> Find(m, id).value in h && h[Find(m, id).value].c.AskBlock?
  {
  }

  /** The events that open a block at the end, or do nothing. */
  lemma OpensOne(lo: Key, f: Fold, e: Event)
    requires e.sn !in f.heap && e.sn >= lo
    requires match e.body
             case PermissionRequest(_, _) => true
             case ElicitationRequest(_, _) => true
             case TurnEnd(_, _) => true
             case Notice(_) => true
             case Status(_) => true
             case Queue(_) => true
             case _ => false
    ensures Grows(lo, f.heap, Route(f, e).heap) && !WritesTo(lo, f, e.body)
  {
    GrowsSelf(lo, f.heap);
    hide Grows;
    match e.body {
      case PermissionRequest(pid, ask) => AddGrows(lo, f.heap, e.sn, Block(AskBlock(pid, ask, None), 0, None));
      case ElicitationRequest(eid, ask) => AddGrows(lo, f.heap, e.sn, Block(AskBlock(eid, ask, None), 0, None));
      case TurnEnd(turn, stop) => AddGrows(lo, f.heap, e.sn, Block(TurnBlock(turn, stop), 0, None));
      case Notice(text) => AddGrows(lo, f.heap, e.sn, Block(NoticeBlock(text), 0, None));
      case _ =>
    }
  }

  // ---- the indexes ----

  /** Every entry of an index points at a call's block. */
  ghost predicate Calls<K(!new)>(m: map<K, Key>, h: map<Key, Block>) {
    forall k :: k in m ==> m[k] in h && h[m[k]].c.ToolBlock?
  }

  lemma CallsGrow<K(!new)>(lo: Key, m: map<K, Key>, h: map<Key, Block>, h': map<Key, Block>)
    requires Calls(m, h) && Grows(lo, h, h')
    ensures Calls(m, h')
  {
  }

  lemma CallAdded<K(!new)>(m: map<K, Key>, h: map<Key, Block>, id: K, k: Key)
    requires Calls(m, h) && k in h && h[k].c.ToolBlock?
    ensures Calls(m[id := k], h)
  {
  }

  /** A new call is filed under a block that is one; so is whatever it is merged into. */
  lemma ToolIndexed(lo: Key, f: Fold, e: Event)
    requires e.body.Tool? && Indexed(f) && e.sn !in f.heap && e.sn >= lo
    ensures Indexed(PushTool(f, e))
  {
    hide PushTool, Grows, Wrote, WritesTo, Indexed, Calls;
    var f' := PushTool(f, e);
    var known := ToolAt(f, e.body.id);
    var t := if known.Some? then known.value else e.sn;
    ToolPointers(f, e);
    ToolTables(f, e);
    ToolGrows(lo, f, e);
    IndexedCalls(f);
    CallsGrow(lo, f.tools, f.heap, f'.heap);
    CallsGrow(lo, f.byId, f.heap, f'.heap);
    if known.None? { NewToolIs(lo, f, e); } else { CallAt(f.tools, f'.heap, (f.turn, e.body.id)); }
    CallAdded(f.tools, f'.heap, (f.turn, e.body.id), t);
    CallAdded(f.byId, f'.heap, e.body.id, t);
    StillIndexed(lo, f, f');
  }

  lemma IndexedCalls(f: Fold)
    requires Indexed(f)
    ensures Calls(f.tools, f.heap) && Calls(f.byId, f.heap)
  {
  }

  lemma CallAt<K(!new)>(m: map<K, Key>, h: map<Key, Block>, id: K)
    requires Calls(m, h) && id in m
    ensures m[id] in h && h[m[id]].c.ToolBlock?
  {
  }

  lemma StillIndexed(lo: Key, f: Fold, f': Fold)
    requires Indexed(f) && Grows(lo, f.heap, f'.heap) && f'.perms == f.perms && f'.asks == f.asks && f'.plan == f.plan
    requires Calls(f'.tools, f'.heap) && Calls(f'.byId, f'.heap)
    ensures Indexed(f')
  {
  }

  lemma ToolTables(f: Fold, e: Event)
    requires e.body.Tool?
    ensures PushTool(f, e).tools == FiledTools(f, e)
  {
    ToolRenumbered(f, f, e);
  }

  lemma NewToolIs(lo: Key, f: Fold, e: Event)
    requires e.body.Tool? && Indexed(f) && e.sn !in f.heap && e.sn >= lo && ToolAt(f, e.body.id).None?
    ensures e.sn in PushTool(f, e).heap && PushTool(f, e).heap[e.sn].c.ToolBlock?
  {
    var d := e.body;
    var into := ToolBox(f, d.id, d.parent);
    EnterGrows(lo, f, into);
    var f1 := SetCur(if into.Some? then Done(f, Cur(f, into), 0) else f, into, None);
    hide Grows, Wrote, SetCur, Done, Open, FoldTool, IsBox;
    OpenGrows(lo, f1, e.sn, NewTool(d.id, e.ts), into);
    var f2 := Open(f1, e.sn, NewTool(d.id, e.ts), into).(tools := f1.tools[(f1.turn, d.id) := e.sn]);
    FoldToolGrows(lo, f2, e.sn, d);
    ToolStays(lo, f2.heap, FoldTool(f2, e.sn, d).heap, e.sn);
  }

  lemma RouteIndexed(lo: Key, f: Fold, e: Event)
    requires Indexed(f) && e.sn !in f.heap && e.sn >= lo
    ensures Indexed(Route(f, e))
  {
    hide Grows, Wrote, WritesTo, PushText, PushTool, PushPlan, PushFiles, OldCards;
    if e.body.Tool? {
      ToolIndexed(lo, f, e);
    } else {
      RouteGrows(lo, f, e);
      GrownIndexed(lo, f, Route(f, e).heap);
      OtherTables(f, e);
      if e.body.Message? || e.body.Thought? {
        TextPointers(f, e, e.body.parent);
      } else {
        OtherPointers(f, e);
        PlanPoints(f, e);
        OpenedIs(f, e);
      }
      hide Route;
    }
  }

  lemma OtherTables(f: Fold, e: Event)
    requires !e.body.Tool?
    ensures Route(f, e).tools == f.tools
  {
    hide Route;
    RouteRenumbered(f, f, e);
  }

  lemma OpenedIs(f: Fold, e: Event)
    requires Indexed(f) && e.sn !in f.heap
    ensures var h := Route(f, e).heap;
      && (e.body.PermissionRequest? || e.body.ElicitationRequest? ==> e.sn in h && h[e.sn].c.AskBlock?)
      && (e.body.Plan? && f.plan.None? ==> e.sn in h && h[e.sn].c.PlanBlock?)
  {
    if e.body.Plan? && f.plan.None? {
      var f2 := Open(f.(cur := None), e.sn, PlanBlock(""), None);
      BumpContents(Change(f2, e.sn, PlanBlock(e.body.entries)).heap, e.sn);
    }
  }

  lemma PlanPoints(f: Fold, e: Event)
    requires !e.body.Tool? && !e.body.Message? && !e.body.Thought?
    ensures var f' := Route(f, e);
      f'.plan == f.plan || f'.plan == None || (e.body.Plan? && f.plan.None? && f'.plan == Some(e.sn))
  {
    if e.body.Plan? { PlanPointers(f, e); } else if e.body.FilesChanged? { FilesPointers(f, e); }
    hide PushPlan, PushFiles;
  }

  // ---- a whole event ----

  function Ended(f: Fold, e: Event): Fold { if LeavesThought(e.body) then f else Done(f, f.cur, e.ts) }

  lemma EndedSame(lo: Key, f: Fold, e: Event)
    ensures var f' := Ended(f, e);
      && Grows(lo, f.heap, f'.heap) && f' == f.(heap := f'.heap) && f'.heap.Keys == f.heap.Keys
      && (OldCards(lo, f.heap) ==> OldCards(lo, f'.heap))
      && (!LeavesThought(e.body) && Running(At(f, f.cur)) && OldPointer(lo, f.cur) ==> Wrote(lo, f.heap, f'.heap))
  {
    DoneGrows(lo, f, f.cur, e.ts);
    DoneSame(f, f.cur, e.ts);
    GrowsSelf(lo, f.heap);
  }

  lemma EndedBox(f: Fold, e: Event, parent: string)
    ensures Box(Ended(f, e), parent) == Box(f, parent)
    ensures Box(f, parent).Some? ==> Cur(Ended(f, e), Box(f, parent)) == Cur(f, Box(f, parent))
  {
    DoneSame(f, f.cur, e.ts);
  }

  lemma EndedWrites(lo: Key, f: Fold, e: Event)
    ensures WritesTo(lo, f, e.body) ==> WritesTo(lo, Ended(f, e), e.body)
  {
    EndedSame(lo, f, e);
    if e.body.Message? {
      EndedBox(f, e, e.body.parent);
      NotOnAlike(f, f.cur, e);
    } else if e.body.Tool? {
      EndedBox(f, e, e.body.parent);
    }
    hide Ended, Grows, Wrote, OldCards, Done, Box, Cur;
  }

  lemma PushGrows(lo: Key, f: Fold, e: Event)
    requires Indexed(f) && e.sn !in f.heap && e.sn >= lo
    ensures Indexed(Push(f, e)) && Grows(lo, f.heap, Push(f, e).heap)
    ensures OldCards(lo, f.heap) && Writes(lo, f, e) ==> Wrote(lo, f.heap, Push(f, e).heap)
  {
    var f0 := f.(lastSeq := if e.sn > f.lastSeq then e.sn else f.lastSeq);
    var f1 := Ended(f0, e);
    EndedSame(lo, f0, e);
    EndedWrites(lo, f0, e);
    WritesSeq(lo, f, e, f0.lastSeq);
    GrownIndexed(lo, f0, f1.heap);
    assert Push(f, e) == Route(f1, e);
    hide Push, Ended, Route, Wrote, Grows, OldCards, WritesTo;
    RouteIndexed(lo, f1, e);
    RouteGrows(lo, f1, e);
    GrowsBoth(lo, f.heap, f1.heap, Route(f1, e).heap);
  }

  lemma WritesSeq(lo: Key, f: Fold, e: Event, a: nat)
    ensures WritesTo(lo, f.(lastSeq := a), e.body) <==> WritesTo(lo, f, e.body)
  {
    var g := f.(lastSeq := a);
    assert forall parent :: Box(g, parent) == Box(f, parent);
    assert forall into :: Cur(g, into) == Cur(f, into);
  }

  // ---- what does not write leaves everything old as it was ----

  /** The fold without its list of blocks, which only says where a turn's changes go. */
  function Bare(f: Fold): Fold { f.(blocks := []) }

  predicate SameButBlocks(f: Fold, g: Fold) { g == f.(blocks := g.blocks) }

  lemma {:induction false} DoneAllBare(f: Fold, g: Fold, ks: seq<Key>)
    requires SameButBlocks(f, g)
    ensures SameButBlocks(DoneAll(f, ks), DoneAll(g, ks))
  {
    if ks != [] { DoneAllBare(f, g, ks[..|ks| - 1]); }
  }

  lemma FoldToolBare(f: Fold, g: Fold, t: Key, d: Body)
    requires SameButBlocks(f, g) && d.Tool?
    ensures SameButBlocks(FoldTool(f, t, d), FoldTool(g, t, d))
  {
    if t in f.heap && f.heap[t].c.ToolBlock? {
      var c := Merged(f.heap[t].c, d);
      var f1 := Change(f, t, c).(byId := f.byId[d.id := t]);
      var g1 := Change(g, t, c).(byId := g.byId[d.id := t]);
      DoneAllBare(f1, g1, if c.children.Some? then c.children.value else []);
    }
  }

  lemma OpenBare(f: Fold, g: Fold, k: Key, c: Content, into: Option<Key>)
    requires SameButBlocks(f, g)
    ensures SameButBlocks(Open(f, k, c, into), Open(g, k, c, into))
  {
    assert At(g, into) == At(f, into);
    OpenKeeps(f, k, c, into);
    OpenKeeps(g, k, c, into);
    assert Open(g, k, c, into).heap == Open(f, k, c, into).heap;
  }

  lemma DoneBare(f: Fold, g: Fold, k: Option<Key>, ts: nat)
    requires SameButBlocks(f, g)
    ensures SameButBlocks(Done(f, k, ts), Done(g, k, ts)) && Done(f, k, ts).blocks == f.blocks
  {
    DoneSame(f, k, ts);
  }

  lemma SetCurBare(f: Fold, g: Fold, into: Option<Key>, k: Option<Key>)
    requires SameButBlocks(f, g)
    ensures SameButBlocks(SetCur(f, into, k), SetCur(g, into, k))
  {
    assert At(g, into) == At(f, into);
    if At(f, into).Some? && At(f, into).value.ToolBlock? {
      var c := f.heap[into.value].c.(cur := k);
      assert SetCur(f, into, k) == Change(f, into.value, c) && SetCur(g, into, k) == Change(g, into.value, c);
    } else {
      assert SetCur(f, into, k) == f.(cur := k) && SetCur(g, into, k) == g.(cur := k);
    }
  }

  lemma EnterBare(f: Fold, g: Fold, into: Option<Key>)
    requires SameButBlocks(f, g)
    ensures SameButBlocks(SetCur(if into.Some? then Done(f, Cur(f, into), 0) else f, into, None),
                          SetCur(if into.Some? then Done(g, Cur(g, into), 0) else g, into, None))
  {
    assert Cur(g, into) == Cur(f, into);
    DoneBare(f, g, Cur(f, into), 0);
    hide Done, SetCur;
    var f1 := if into.Some? then Done(f, Cur(f, into), 0) else f;
    var g1 := if into.Some? then Done(g, Cur(g, into), 0) else g;
    SetCurBare(f1, g1, into, None);
  }

  lemma ToolBare(f: Fold, g: Fold, e: Event)
    requires SameButBlocks(f, g) && e.body.Tool?
    ensures SameButBlocks(PushTool(f, e), PushTool(g, e))
  {
    var d := e.body;
    var known, into := ToolAt(f, d.id), ToolBox(f, d.id, d.parent);
    assert ToolAt(g, d.id) == known && ToolBox(g, d.id, d.parent) == into;
    EnterBare(f, g, into);
    var f1 := SetCur(if into.Some? then Done(f, Cur(f, into), 0) else f, into, None);
    var g1 := SetCur(if into.Some? then Done(g, Cur(g, into), 0) else g, into, None);
    hide Open, SetCur, Done, FoldTool, ToolBox;
    OpenBare(f1, g1, e.sn, NewTool(d.id, e.ts), into);
    var f2 := if known.Some? then f1
              else Open(f1, e.sn, NewTool(d.id, e.ts), into).(tools := f1.tools[(f1.turn, d.id) := e.sn]);
    var g2 := if known.Some? then g1
              else Open(g1, e.sn, NewTool(d.id, e.ts), into).(tools := g1.tools[(g1.turn, d.id) := e.sn]);
    FoldToolBare(f2, g2, if known.Some? then known.value else e.sn, d);
  }

  lemma TextBare(f: Fold, g: Fold, e: Event, parent: string)
    requires SameButBlocks(f, g) && (e.body.Message? || e.body.Thought?)
    ensures SameButBlocks(PushText(f, e, parent), PushText(g, e, parent))
  {
    var into := Box(f, parent);
    var c := Cur(f, into);
    assert Box(g, parent) == into && Cur(g, into) == c;
    DoneBare(f, g, c, e.ts);
    hide Done;
    var f1 := if e.body.Message? then Done(f, c, e.ts) else f;
    var g1 := if e.body.Message? then Done(g, c, e.ts) else g;
    NextTextBare(f1, g1, e, c, into);
  }

  lemma NextTextBare(f: Fold, g: Fold, e: Event, c: Option<Key>, into: Option<Key>)
    requires SameButBlocks(f, g) && (e.body.Message? || e.body.Thought?)
    ensures var b := if e.body.Thought? then ThoughtBlock(e.body.text, e.ts, e.ts, false)
                     else MsgBlock(e.body.role, e.body.mid, e.body.text, e.body.files, e.body.steered);
      SameButBlocks(
        if Continues(At(f, c), e.body)
          then SetCur(Bumped(Change(f, c.value, Continued(f.heap[c.value].c, e)), c.value), into, c)
        else SetCur(Open(f, e.sn, b, into), into, Some(e.sn)),
        if Continues(At(g, c), e.body)
          then SetCur(Bumped(Change(g, c.value, Continued(g.heap[c.value].c, e)), c.value), into, c)
        else SetCur(Open(g, e.sn, b, into), into, Some(e.sn)))
  {
    assert At(g, c) == At(f, c);
    if Continues(At(f, c), e.body) {
      var f1 := Bumped(Change(f, c.value, Continued(f.heap[c.value].c, e)), c.value);
      var g1 := Bumped(Change(g, c.value, Continued(g.heap[c.value].c, e)), c.value);
      assert SameButBlocks(f1, g1);
      hide SetCur;
      SetCurBare(f1, g1, into, c);
    } else {
      var b := if e.body.Thought? then ThoughtBlock(e.body.text, e.ts, e.ts, false)
               else MsgBlock(e.body.role, e.body.mid, e.body.text, e.body.files, e.body.steered);
      OpenBare(f, g, e.sn, b, into);
      hide SetCur, Open;
      SetCurBare(Open(f, e.sn, b, into), Open(g, e.sn, b, into), into, Some(e.sn));
    }
  }

  lemma FilesBare(f: Fold, g: Fold, e: Event)
    requires SameButBlocks(f, g) && e.body.FilesChanged?
    ensures SameButBlocks(PushFiles(f, e), PushFiles(g, e))
  {
    var d := e.body;
    hide Place;
    if d.toolCallId != "" {
      var t := ChangedTool(f, d.toolCallId);
      assert ChangedTool(g, d.toolCallId) == t && At(g, t) == At(f, t);
    }
  }

  lemma PlanBare(f: Fold, g: Fold, e: Event)
    requires SameButBlocks(f, g) && e.body.Plan?
    ensures SameButBlocks(PushPlan(f, e), PushPlan(g, e))
  {
    hide Open, Bump;
    OpenBare(f.(cur := None), g.(cur := None), e.sn, PlanBlock(""), None);
    var f1, g1 := f.(cur := None), g.(cur := None);
    var f2 := if f.plan.Some? then f1 else Open(f1, e.sn, PlanBlock(""), None).(plan := Some(e.sn));
    var g2 := if f.plan.Some? then g1 else Open(g1, e.sn, PlanBlock(""), None).(plan := Some(e.sn));
    assert SameButBlocks(f2, g2) && At(f2, f2.plan) == At(g2, g2.plan);
  }

  lemma RouteBare(f: Fold, g: Fold, e: Event)
    requires SameButBlocks(f, g)
    ensures SameButBlocks(Route(f, e), Route(g, e))
  {
    hide PushTool, PushText, PushFiles, PushPlan;
    match e.body {
      case Message(_, _, _, parent, _, _) => TextBare(f, g, e, parent);
      case Thought(_, parent) => TextBare(f, g, e, parent);
      case Tool(_, _, _, _, _, _) => ToolBare(f, g, e);
      case FilesChanged(_, _, _) => FilesBare(f, g, e);
      case Plan(_) => PlanBare(f, g, e);
      case PermissionResolved(_, _) => AnsweredBare(f, g, e);
      case ElicitationResolved(_, _) => AnsweredBare(f, g, e);
      case _ =>
    }
  }

  lemma AnsweredBare(f: Fold, g: Fold, e: Event)
    requires SameButBlocks(f, g) && (e.body.PermissionResolved? || e.body.ElicitationResolved?)
    ensures SameButBlocks(Route(f, e), Route(g, e))
  {
    hide Bump;
    var k := if e.body.PermissionResolved? then Find(f.perms, e.body.pid) else Find(f.asks, e.body.eid);
    assert Route(f, e) == Answered(f, k, e.body.answer) && Route(g, e) == Answered(g, k, e.body.answer);
    assert At(g, k) == At(f, k);
  }

  lemma PushBare(f: Fold, e: Event)
    ensures Bare(Push(Bare(f), e)) == Bare(Push(f, e))
  {
    var f0 := f.(lastSeq := if e.sn > f.lastSeq then e.sn else f.lastSeq);
    var g0 := Bare(f0);
    DoneBare(f0, g0, f0.cur, e.ts);
    assert Push(f, e) == Route(Ended(f0, e), e) && Push(Bare(f), e) == Route(Ended(g0, e), e);
    hide Route, Done;
    RouteBare(Ended(f0, e), Ended(g0, e), e);
  }

  lemma WritesNotClean(lo: Key, f: Fold, e: Event)
    requires !Writes(lo, f, e)
    ensures Clean(lo, Bare(f), e) ||
      (e.body.Tool? && ToolAt(f, e.body.id).Some? && ToolAt(f, e.body.id).value >= lo
       && OldPointer(lo, ToolBox(f, e.body.id, e.body.parent)) && Cur(f, ToolBox(f, e.body.id, e.body.parent)).None?)
  {
    var g := Bare(f);
    assert forall parent :: Box(g, parent) == Box(f, parent);
  }

  lemma BareSim(lo: Key, g: Fold, h: Fold)
    requires Sim(lo, 0, g, h)
    ensures Sim(lo, 0, Bare(g), Bare(h))
  {
    BareTools(lo, g, h);
    hide SameTools, SameIndex, SameHeap, Closed, SamePointer;
  }

  lemma BareTools(lo: Key, g: Fold, h: Fold)
    requires SameTools(lo, g, h)
    ensures SameTools(lo, Bare(g), Bare(h))
  {
    hide SamePointer;
    forall id ensures SamePointer(lo, ToolAt(Bare(g), id), ToolAt(Bare(h), id)) {
      assert ToolAt(Bare(g), id) == ToolAt(g, id) && ToolAt(Bare(h), id) == ToolAt(h, id);
    }
  }

  /** A known call that names a card which goes on with nothing leaves that card alone. */
  lemma EntersNothing(f: Fold, e: Event)
    requires e.body.Tool? && ToolAt(f, e.body.id).Some? && IsBox(At(f, ToolBox(f, e.body.id, e.body.parent)))
    requires Cur(f, ToolBox(f, e.body.id, e.body.parent)).None?
    ensures PushTool(f, e) == FoldTool(f, ToolAt(f, e.body.id).value, e.body)
  {
    var into := ToolBox(f, e.body.id, e.body.parent);
    assert Done(f, None, 0) == f;
    var b := f.heap[into.value];
    assert b.(c := b.c.(cur := None)) == b && f.heap[into.value := b] == f.heap;
    hide FoldTool, Done;
    assert SetCur(f, into, None) == f;
  }

  /** Beside a fold, a piece of it (h) shows that the old blocks stay. */
  lemma StepFrame(lo: Key, f: Fold, h: Fold, e: Event) returns (h': Fold)
    requires Sim(lo, 0, Bare(f), h) && h.turn == f.turn && !Writes(lo, f, e) && TurnRises(f, e) && e.sn >= lo
    ensures Sim(lo, 0, Bare(Push(f, e)), h') && h'.turn == Push(f, e).turn && SameOld(lo, f.heap, Push(f, e).heap)
  {
    var g := Bare(f);
    PushShape(f, e);
    PushBare(f, e);
    if Clean(lo, g, e) {
      PushShape(h, e);
      hide Push, Sim, Clean, Writes;
      PushSim(lo, 0, g, h, e);
      BareSim(lo, Push(g, e), Push(h, e));
      h' := Bare(Push(h, e));
    } else {
      WritesNotClean(lo, f, e);
      hide Push, Sim, Clean, Writes;
      h' := KnownFrame(lo, g, h, e);
      BareSim(lo, Push(g, e), h');
      h' := Bare(h');
    }
  }

  lemma KnownFrame(lo: Key, g: Fold, h: Fold, e: Event) returns (h': Fold)
    requires Sim(lo, 0, g, h) && e.body.Tool? && ToolAt(g, e.body.id).Some? && ToolAt(g, e.body.id).value >= lo
    requires var into := ToolBox(g, e.body.id, e.body.parent); into.Some? && Cur(g, into).None?
    requires Running(At(g, g.cur)) ==> YoungPointer(lo, g.cur)
    ensures Sim(lo, 0, Push(g, e), h') && h'.turn == h.turn && SameOld(lo, g.heap, Push(g, e).heap)
  {
    var g0 := g.(lastSeq := if e.sn > g.lastSeq then e.sn else g.lastSeq);
    SeqSim(lo, 0, g, h, g0.lastSeq, h.lastSeq);
    KnownPush(g, e);
    hide Push, PushTool;
    h' := EndedFrame(lo, g0, h, e, ToolAt(g, e.body.id).value);
  }

  lemma EndedFrame(lo: Key, g: Fold, h: Fold, e: Event, t: Key) returns (h': Fold)
    requires Sim(lo, 0, g, h) && e.body.Tool? && t >= lo && (Running(At(g, g.cur)) ==> YoungPointer(lo, g.cur))
    ensures var g' := FoldTool(Done(g, g.cur, e.ts), t, e.body);
      Sim(lo, 0, g', h') && h'.turn == h.turn && SameOld(lo, g.heap, g'.heap)
  {
    DoneSim(lo, 0, g, h, g.cur, h.cur, e.ts);
    DoneSame(h, h.cur, e.ts);
    hide Done, Sim, FoldTool;
    var g1, h1 := Done(g, g.cur, e.ts), Done(h, h.cur, e.ts);
    FoldToolSim(lo, 0, g1, h1, t, e.body);
    FoldToolShape(h1, t, e.body);
    h' := FoldTool(h1, t, e.body);
  }

  lemma KnownPush(g: Fold, e: Event)
    requires e.body.Tool? && ToolAt(g, e.body.id).Some?
    requires var into := ToolBox(g, e.body.id, e.body.parent); into.Some? && Cur(g, into).None?
    ensures var g0 := g.(lastSeq := if e.sn > g.lastSeq then e.sn else g.lastSeq);
      Push(g, e) == FoldTool(Done(g0, g0.cur, e.ts), ToolAt(g, e.body.id).value, e.body)
  {
    var g0 := g.(lastSeq := if e.sn > g.lastSeq then e.sn else g.lastSeq);
    EndedBox(g0, e, e.body.parent);
    DoneSame(g0, g0.cur, e.ts);
    var g1 := Done(g0, g0.cur, e.ts);
    assert Push(g, e) == PushTool(g1, e) && IsBox(At(g1, ToolBox(g1, e.body.id, e.body.parent)));
    hide Push, Done, FoldTool, PushTool;
    EntersNothing(g1, e);
  }

  // ---- a run of events ----

  predicate Ascends(events: seq<Event>, lo: Key) {
    && (forall i :: 0 <= i < |events| ==> events[i].sn >= lo)
    && forall i, j :: 0 <= i < j < |events| ==> events[i].sn < events[j].sn
  }

  lemma NothingYet(lo: Key, f: Fold)
    requires Below(lo, f)
    ensures Sim(lo, 0, Bare(f), EMPTY.(turn := f.turn))
  {
    var h := EMPTY.(turn := f.turn);
    assert forall id :: ToolAt(h, id) == None;
    assert forall id :: ToolAt(Bare(f), id) == ToolAt(f, id);
  }

  lemma SameOldTwice(lo: Key, a: map<Key, Block>, b: map<Key, Block>, c: map<Key, Block>)
    requires SameOld(lo, a, b) && SameOld(lo, b, c)
    ensures SameOld(lo, a, c)
  {
  }

  lemma WritesFront(lo: Key, f: Fold, events: seq<Event>)
    requires events != []
    ensures WritesNothing(lo, f, events) <==>
      WritesNothing(lo, f, events[..|events| - 1])
        && !Writes(lo, FoldFrom(f, events[..|events| - 1]), events[|events| - 1])
  {
    hide Writes, FoldFrom;
    var n := |events| - 1;
    assert forall i :: 0 <= i < n ==> events[..n][..i] == events[..i] && events[..n][i] == events[i];
  }

  lemma {:induction false} RunFrame(lo: Key, f: Fold, events: seq<Event>) returns (h: Fold)
    requires Below(lo, f) && TurnsRise(f.turn, events) && Ascends(events, lo) && WritesNothing(lo, f, events)
    ensures var f' := FoldFrom(f, events);
      Sim(lo, 0, Bare(f'), h) && h.turn == f'.turn && SameOld(lo, f.heap, f'.heap)
  {
    if events == [] {
      NothingYet(lo, f);
      h := EMPTY.(turn := f.turn);
    } else {
      var n := |events| - 1;
      WritesFront(lo, f, events);
      PrefixRises(f.turn, events, n);
      hide Below, TurnsRise, WritesNothing, Writes, Sim, SameOld, Push, Bare;
      h := RunFrame(lo, f, events[..n]);
      TurnRisesAt(f, events, n);
      var f1 := FoldFrom(f, events[..n]);
      h := StepFrame(lo, f1, h, events[n]);
      SameOldTwice(lo, f.heap, f1.heap, Push(f1, events[n]).heap);
    }
  }

  lemma OldCardsStay(lo: Key, h: map<Key, Block>, h': map<Key, Block>)
    requires OldCards(lo, h) && SameOld(lo, h, h')
    ensures OldCards(lo, h')
  {
  }

  lemma BelowCards(lo: Key, f: Fold)
    requires Below(lo, f)
    ensures OldCards(lo, f.heap) && forall k :: k in f.heap ==> k < lo
  {
  }

  lemma NotOpenedYet(f: Fold, events: seq<Event>, lo: Key, n: nat)
    requires (forall k :: k in f.heap ==> k < lo) && Ascends(events, lo) && n < |events|
    ensures events[n].sn !in FoldFrom(f, events[..n]).heap
  {
    FoldKeys(f, events[..n]);
  }

  lemma {:induction false} RunGrows(lo: Key, f: Fold, events: seq<Event>)
    requires Below(lo, f) && Indexed(f) && TurnsRise(f.turn, events) && Ascends(events, lo)
    ensures var f' := FoldFrom(f, events);
      Indexed(f') && Grows(lo, f.heap, f'.heap) && (!WritesNothing(lo, f, events) ==> Wrote(lo, f.heap, f'.heap))
  {
    if events == [] {
      GrowsSelf(lo, f.heap);
    } else {
      var n := |events| - 1;
      PrefixRises(f.turn, events, n);
      RunGrows(lo, f, events[..n]);
      OneMoreGrows(lo, f, events);
    }
  }

  lemma OneMoreGrows(lo: Key, f: Fold, events: seq<Event>)
    requires Below(lo, f) && TurnsRise(f.turn, events) && Ascends(events, lo) && events != []
    requires var front := events[..|events| - 1];
      var f1 := FoldFrom(f, front);
      Indexed(f1) && Grows(lo, f.heap, f1.heap) && (!WritesNothing(lo, f, front) ==> Wrote(lo, f.heap, f1.heap))
    ensures var f' := FoldFrom(f, events);
      Indexed(f') && Grows(lo, f.heap, f'.heap) && (!WritesNothing(lo, f, events) ==> Wrote(lo, f.heap, f'.heap))
  {
    hide Below, TurnsRise, WritesNothing, Writes, Sim, SameOld, Push, Grows, Indexed, Wrote, OldCards;
    var n := |events| - 1;
    var f1, e := FoldFrom(f, events[..n]), events[n];
    BelowCards(lo, f);
    NotOpenedYet(f, events, lo, n);
    WritesFront(lo, f, events);
    PushGrows(lo, f1, e);
    GrowsBoth(lo, f.heap, f1.heap, Push(f1, e).heap);
    if WritesNothing(lo, f, events[..n]) {
      PrefixRises(f.turn, events, n);
      var h := RunFrame(lo, f, events[..n]);
      OldCardsStay(lo, f.heap, f1.heap);
    }
  }

  lemma WroteIsSeen(lo: Key, h: map<Key, Block>, h': map<Key, Block>)
    requires Wrote(lo, h, h')
    ensures !SameOld(lo, h, h')
  {
  }

  /** Whatever comes after, the blocks a fold had stay as they were exactly when no later event writes to one. */
  lemma KeptExactly(lo: Key, f: Fold, events: seq<Event>)
    requires Below(lo, f) && Indexed(f) && TurnsRise(f.turn, events) && Ascends(events, lo)
    ensures SameOld(lo, f.heap, FoldFrom(f, events).heap) <==> WritesNothing(lo, f, events)
  {
    hide Below, TurnsRise, WritesNothing, SameOld, Grows, Indexed, Wrote, FoldFrom, Ascends, Sim;
    RunGrows(lo, f, events);
    if WritesNothing(lo, f, events) {
      var h := RunFrame(lo, f, events);
    } else {
      WroteIsSeen(lo, f.heap, FoldFrom(f, events).heap);
    }
  }

  /** A fold of a piece of a log is indexed. */
  lemma FreshIsIndexed(seed: nat, events: seq<Event>)
    requires Ascends(events, 0) && TurnsRise(Seeded(seed).turn, events)
    ensures Indexed(FoldFrom(Seeded(seed), events))
  {
    RunGrows(0, Seeded(seed), events);
  }
}
