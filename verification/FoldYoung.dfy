/** A fold of a piece of a log that points at nothing older any more takes events as a fresh one does, whether or not
    some are missing. */
module FoldYoung {
  import opened Options
  import opened FoldSpec
  import opened FoldSim
  import opened FoldSplit
  import opened FoldSeed

  /** What calls, permissions and elicitations are looked up by leads to nothing older. */
  ghost predicate YoungIndex(lo: Key, f: Fold) {
    && (forall id :: id in f.byId ==> f.byId[id] >= lo)
    && (forall id :: id in f.perms ==> f.perms[id] >= lo) && (forall id :: id in f.asks ==> f.asks[id] >= lo)
    && (forall k :: k in f.tools ==> f.tools[k] >= lo)
  }

  /** A text block the next text of its kind would be added to. */
  predicate Catches(c: Option<Content>) {
    c.Some? && (c.value.ThoughtBlock? || (c.value.MsgBlock? && c.value.files.None? && !c.value.steered))
  }

  /** The fold still holds on to an older block it would write to: a text that goes on, or a plan. */
  predicate Holds(lo: Key, f: Fold) {
    (f.cur.Some? && f.cur.value < lo && Catches(At(f, f.cur))) || (f.plan.Some? && f.plan.value < lo)
  }

  // ---- what an event does to the pointers ----

  lemma TextPointers(f: Fold, e: Event, parent: string)
    requires e.body.Message? || e.body.Thought?
    ensures var f' := PushText(f, e, parent);
      && f'.byId == f.byId && f'.perms == f.perms && f'.asks == f.asks && f'.plan == f.plan
      && (f'.cur == f.cur || f'.cur == Some(e.sn))
  {
    var into := Box(f, parent);
    var c := Cur(f, into);
    DoneSame(f, c, e.ts);
    hide Done;
    var f1 := if e.body.Message? then Done(f, c, e.ts) else f;
    NextTextPointers(f1, e, c, into);
  }

  lemma NextTextPointers(f: Fold, e: Event, c: Option<Key>, into: Option<Key>)
    requires e.body.Message? || e.body.Thought?
    requires into.None? || IsBox(At(f, into))
    requires into.None? ==> c == f.cur
    ensures var b := if e.body.Thought? then ThoughtBlock(e.body.text, e.ts, e.ts, false)
                     else MsgBlock(e.body.role, e.body.mid, e.body.text, e.body.files, e.body.steered);
      var f' :=
        if Continues(At(f, c), e.body)
          then SetCur(Bumped(Change(f, c.value, Continued(f.heap[c.value].c, e)), c.value), into, c)
        else SetCur(Open(f, e.sn, b, into), into, Some(e.sn));
      && f'.byId == f.byId && f'.perms == f.perms && f'.asks == f.asks && f'.plan == f.plan
      && (f'.cur == f.cur || f'.cur == Some(e.sn))
  {
    hide Bump;
    if Continues(At(f, c), e.body) {
      BumpContents(Change(f, c.value, Continued(f.heap[c.value].c, e)).heap, c.value);
    } else {
      var b := if e.body.Thought? then ThoughtBlock(e.body.text, e.ts, e.ts, false)
               else MsgBlock(e.body.role, e.body.mid, e.body.text, e.body.files, e.body.steered);
      OpenKeeps(f, e.sn, b, into);
      OpenedBox(f, e.sn, b, into);
      hide Open;
    }
  }

  /** What is opened in a card leaves it a card, unless it takes the card's own key. */
  lemma OpenedBox(f: Fold, k: Key, c: Content, into: Option<Key>)
    ensures IsBox(At(f, into)) && into.value != k ==> IsBox(At(Open(f, k, c, into), into))
  {
    hide Bump;
    if IsBox(At(f, into)) { BumpContents(f.heap, into.value); }
  }

  lemma ToolPointers(f: Fold, e: Event)
    requires e.body.Tool?
    ensures var f' := PushTool(f, e);
      && (f'.byId == f.byId
          || (ToolAt(f, e.body.id).Some? && f'.byId == f.byId[e.body.id := ToolAt(f, e.body.id).value])
          || (ToolAt(f, e.body.id).None? && f'.byId == f.byId[e.body.id := e.sn]))
      && f'.perms == f.perms && f'.asks == f.asks && f'.plan == f.plan && (f'.cur == f.cur || f'.cur == None)
  {
    var d := e.body;
    var into := ToolBox(f, d.id, d.parent);
    DoneSame(f, Cur(f, into), 0);
    var f1 := SetCur(if into.Some? then Done(f, Cur(f, into), 0) else f, into, None);
    assert f1 == f.(heap := f1.heap, cur := f1.cur) && (f1.cur == f.cur || f1.cur == None);
    hide Open, Done, SetCur, FoldTool, ToolBox, Cur;
    OpenKeeps(f1, e.sn, NewTool(d.id, e.ts), into);
    var f2 := if ToolAt(f, d.id).Some? then f1
              else Open(f1, e.sn, NewTool(d.id, e.ts), into).(tools := f1.tools[(f1.turn, d.id) := e.sn]);
    var t := if ToolAt(f, d.id).Some? then ToolAt(f, d.id).value else e.sn;
    MergePointers(f2, t, d);
  }

  lemma MergePointers(f: Fold, t: Key, d: Body)
    requires d.Tool?
    ensures var f' := FoldTool(f, t, d);
      f' == f.(heap := f'.heap, byId := f'.byId) && (f'.byId == f.byId || f'.byId == f.byId[d.id := t])
  {
    if t in f.heap && f.heap[t].c.ToolBlock? {
      var c := Merged(f.heap[t].c, d);
      var g := Change(f, t, c).(byId := f.byId[d.id := t]);
      DoneAllSame(g, if c.children.Some? then c.children.value else []);
    }
  }

  lemma AnsweredPointers(f: Fold, k: Option<Key>, answer: string)
    ensures var f' := Answered(f, k, answer); f' == f.(heap := f'.heap)
  {
  }

  lemma FilesPointers(f: Fold, e: Event)
    requires e.body.FilesChanged?
    ensures var f' := PushFiles(f, e); f' == f.(heap := f'.heap, blocks := f'.blocks)
  {
  }

  lemma PlanPointers(f: Fold, e: Event)
    requires e.body.Plan?
    ensures var f' := PushPlan(f, e);
      f' == f.(heap := f'.heap, blocks := f'.blocks, cur := None, plan := if f.plan.Some? then f.plan else Some(e.sn))
  {
    OpenKeeps(f.(cur := None), e.sn, PlanBlock(""), None);
    hide Open;
  }

  lemma OtherPointers(f: Fold, e: Event)
    requires !e.body.Tool? && !e.body.Message? && !e.body.Thought?
    ensures var f' := Route(f, e);
      && f'.byId == f.byId
      && f'.perms == (if e.body.PermissionRequest? then f.perms[e.body.pid := e.sn] else f.perms)
      && f'.asks == (if e.body.ElicitationRequest? then f.asks[e.body.eid := e.sn] else f.asks)
      && (f'.plan == f.plan || f'.plan == None || f'.plan == Some(e.sn))
      && (f'.cur == f.cur || f'.cur == None)
  {
    hide Open, PushFiles, PushPlan, Answered;
    match e.body {
      case PermissionRequest(pid, ask) =>
        OpenKeeps(f.(cur := None, perms := f.perms[pid := e.sn]), e.sn, AskBlock(pid, ask, None), None);
      case ElicitationRequest(eid, ask) =>
        OpenKeeps(f.(cur := None, asks := f.asks[eid := e.sn]), e.sn, AskBlock(eid, ask, None), None);
      case PermissionResolved(pid, answer) => AnsweredPointers(f, Find(f.perms, pid), answer);
      case ElicitationResolved(eid, answer) => AnsweredPointers(f, Find(f.asks, eid), answer);
      case Plan(_) => PlanPointers(f, e);
      case FilesChanged(_, _, _) => FilesPointers(f, e);
      case TurnEnd(ended, stop) =>
        OpenKeeps(f.(cur := None, plan := None, turn := NextTurn(f.turn, ended)), e.sn, TurnBlock(ended, stop), None);
      case Notice(text) => OpenKeeps(f, e.sn, NoticeBlock(text), None);
      case _ =>
    }
  }

  /** The pointers after an event: the old ones, nothing, or the block it opened. */
  predicate Pointers(f: Fold, f': Fold, sn: Key) {
    && (f'.cur == f.cur || f'.cur == None || f'.cur == Some(sn))
    && (f'.plan == f.plan || f'.plan == None || f'.plan == Some(sn))
  }

  lemma RoutePointers(lo: Key, f: Fold, e: Event)
    requires YoungIndex(lo, f) && e.sn >= lo
    ensures Pointers(f, Route(f, e), e.sn)
    ensures var f' := Route(f, e);
      && (forall id :: id in f'.byId ==> f'.byId[id] >= lo)
      && (forall id :: id in f'.perms ==> f'.perms[id] >= lo) && (forall id :: id in f'.asks ==> f'.asks[id] >= lo)
  {
    hide PushText, PushTool;
    match e.body {
      case Message(_, _, _, parent, _, _) => TextPointers(f, e, parent);
      case Thought(_, parent) => TextPointers(f, e, parent);
      case Tool(_, _, _, _, _, _) => ToolPointers(f, e);
      case _ => hide Route; OtherPointers(f, e);
    }
  }

  lemma PushYoungTools(lo: Key, f: Fold, e: Event)
    requires YoungIndex(lo, f) && e.sn >= lo
    ensures forall k :: k in Push(f, e).tools ==> Push(f, e).tools[k] >= lo
  {
    hide Push;
    PushRenumbered(f, f, e);
  }

  lemma PushPointers(lo: Key, f: Fold, e: Event)
    requires YoungIndex(lo, f) && e.sn >= lo
    ensures YoungIndex(lo, Push(f, e)) && Pointers(f, Push(f, e), e.sn)
  {
    var f0 := f.(lastSeq := if e.sn > f.lastSeq then e.sn else f.lastSeq);
    DoneSame(f0, f0.cur, e.ts);
    PushYoungTools(lo, f, e);
    hide Done, Route;
    RoutePointers(lo, if LeavesThought(e.body) then f0 else Done(f0, f0.cur, e.ts), e);
  }

  // ---- a fold on its own ----

  /** A fold that is a piece of itself from `lo` on and writes to nothing older. */
  ghost predicate Free(lo: Key, f: Fold) { Sim(lo, 0, f, f) && YoungIndex(lo, f) && !Holds(lo, f) }

  lemma FreeIsClean(lo: Key, f: Fold, e: Event)
    requires Free(lo, f)
    ensures Clean(lo, f, e)
  {
    assert f.blocks[0..] == f.blocks;
    assert forall i :: 0 <= i < |f.blocks| ==> f.blocks[i] >= lo;
  }

  lemma StillFree(lo: Key, f: Fold, f': Fold, e: Event)
    requires !Holds(lo, f) && SameOld(lo, f.heap, f'.heap) && e.sn >= lo
    requires Pointers(f, f', e.sn)
    ensures !Holds(lo, f')
  {
  }

  /** An event leaves it so, and leaves everything older alone. */
  lemma PushFree(lo: Key, f: Fold, e: Event)
    requires Free(lo, f) && e.sn >= lo && TurnRises(f, e)
    ensures Free(lo, Push(f, e)) && SameOld(lo, f.heap, Push(f, e).heap)
  {
    FreeIsClean(lo, f, e);
    PushPointers(lo, f, e);
    hide Push, Sim, YoungIndex, Holds, Clean;
    PushSim(lo, 0, f, f, e);
    StillFree(lo, f, Push(f, e), e);
  }

  /** And a fresh fold of the same events goes along. */
  lemma PushAlong(lo: Key, f: Fold, h: Fold, e: Event)
    requires Free(lo, f) && Sim(lo, 0, f, h) && e.sn >= lo && TurnRises(f, e) && TurnRises(h, e)
    ensures Sim(lo, 0, Push(f, e), Push(h, e))
  {
    FreeIsClean(lo, f, e);
    hide Push, Sim, Clean;
    PushSim(lo, 0, f, h, e);
  }

  lemma FreshIsFree(lo: Key, seed: nat)
    ensures Free(lo, Seeded(seed))
  {
    var f := Seeded(seed);
    assert forall id :: ToolAt(f, id) == None;
    assert f.blocks[0..] == f.blocks;
  }

  // ---- going on from a whole log's fold ----

  /** Everything a fold points at was opened from `lo` on. */
  ghost predicate Young(lo: Key, f: Fold) {
    YoungIndex(lo, f) && YoungPointer(lo, f.cur) && YoungPointer(lo, f.plan) && forall k :: k in f.heap ==> k >= lo
  }

  lemma {:induction false} FreshIsYoung(lo: Key, seed: nat, events: seq<Event>)
    requires forall i :: 0 <= i < |events| ==> events[i].sn >= lo
    ensures Young(lo, FoldFrom(Seeded(seed), events))
  {
    if events != [] {
      var front, e := events[..|events| - 1], events[|events| - 1];
      FreshIsYoung(lo, seed, front);
      hide FoldFrom, Push, Young;
      PushYoung(lo, FoldFrom(Seeded(seed), front), e);
      FoldStep(Seeded(seed), events);
    }
  }

  lemma PushYoung(lo: Key, f: Fold, e: Event)
    requires Young(lo, f) && e.sn >= lo
    ensures Young(lo, Push(f, e))
  {
    PushPointers(lo, f, e);
    PushShape(f, e);
    hide Push;
  }

  lemma IndexesMeet(lo: Key, g: map<string, Key>, f: map<string, Key>, h: map<string, Key>)
    requires SameIndex(lo, g, f) && SameIndex(lo, g, h)
    requires (forall id :: id in f ==> f[id] >= lo) && (forall id :: id in h ==> h[id] >= lo)
    ensures SameIndex(lo, f, h)
  {
    forall id ensures SamePointer(lo, Find(f, id), Find(h, id)) {
      assert SamePointer(lo, Find(g, id), Find(f, id)) && SamePointer(lo, Find(g, id), Find(h, id));
    }
  }

  lemma ToolsMeet(lo: Key, g: Fold, f: Fold, h: Fold)
    requires SameTools(lo, g, f) && SameTools(lo, g, h) && YoungIndex(lo, f) && YoungIndex(lo, h)
    ensures SameTools(lo, f, h)
  {
    forall id ensures SamePointer(lo, ToolAt(f, id), ToolAt(h, id)) {
      assert SamePointer(lo, ToolAt(g, id), ToolAt(f, id)) && SamePointer(lo, ToolAt(g, id), ToolAt(h, id));
    }
  }

  /** Two folds that go on from the same point of a log, one of which points at nothing older, are alike from there. */
  lemma PiecesAlike(lo: Key, na: nat, g: Fold, f: Fold, h: Fold)
    requires Sim(lo, na, g, f) && Sim(lo, na, g, h) && YoungIndex(lo, f) && Young(lo, h)
    ensures Sim(lo, 0, f, h)
  {
    assert f.blocks[0..] == f.blocks && g.blocks[na..] == f.blocks == h.blocks;
    forall i | 0 <= i < |f.blocks| ensures f.blocks[i] >= lo { assert f.blocks[i] == g.blocks[na + i]; }
    IndexesMeet(lo, g.byId, f.byId, h.byId);
    IndexesMeet(lo, g.perms, f.perms, h.perms);
    IndexesMeet(lo, g.asks, f.asks, h.asks);
    ToolsMeet(lo, g, f, h);
    hide SameIndex, SameTools, ToolsPast, YoungIndex;
    PointersMeet(lo, g.cur, f.cur, h.cur);
    PointersMeet(lo, g.plan, f.plan, h.plan);
  }

  /** And the other takes any event, if it holds on to nothing older either. */
  lemma PiecesMeet(lo: Key, na: nat, g: Fold, f: Fold, h: Fold)
    requires Sim(lo, na, g, f) && Sim(lo, na, g, h) && YoungIndex(lo, f) && !Holds(lo, f) && Young(lo, h)
    ensures Sim(lo, 0, f, h) && Free(lo, f)
  {
    PiecesAlike(lo, na, g, f, h);
    assert f.blocks[0..] == f.blocks;
    hide SameIndex, SameTools, ToolsPast, Holds, YoungIndex, Young;
    SelfSim(lo, f);
  }

  /** And one that is alike a piece of a whole, when neither points at anything older, is a piece of it too. */
  lemma PieceToo(lo: Key, na: nat, g: Fold, f: Fold, h: Fold)
    requires Sim(lo, na, g, h) && Sim(lo, 0, f, h) && Young(lo, f) && Young(lo, h)
    ensures Sim(lo, na, g, f)
  {
    assert f.blocks[0..] == f.blocks;
    IndexesToo(lo, g.byId, f.byId, h.byId);
    IndexesToo(lo, g.perms, f.perms, h.perms);
    IndexesToo(lo, g.asks, f.asks, h.asks);
    ToolsToo(lo, g, f, h);
    hide SameIndex, SameTools, ToolsPast;
  }

  lemma IndexesToo(lo: Key, g: map<string, Key>, f: map<string, Key>, h: map<string, Key>)
    requires SameIndex(lo, g, h) && SameIndex(lo, f, h) && forall id :: id in f ==> f[id] >= lo
    ensures SameIndex(lo, g, f)
  {
    forall id ensures SamePointer(lo, Find(g, id), Find(f, id)) {
      assert SamePointer(lo, Find(g, id), Find(h, id)) && SamePointer(lo, Find(f, id), Find(h, id));
    }
  }

  lemma ToolsToo(lo: Key, g: Fold, f: Fold, h: Fold)
    requires SameTools(lo, g, h) && SameTools(lo, f, h) && YoungIndex(lo, f)
    ensures SameTools(lo, g, f)
  {
    forall id ensures SamePointer(lo, ToolAt(g, id), ToolAt(f, id)) {
      assert SamePointer(lo, ToolAt(g, id), ToolAt(h, id)) && SamePointer(lo, ToolAt(f, id), ToolAt(h, id));
    }
  }

  lemma PointersMeet(lo: Key, g: Option<Key>, f: Option<Key>, h: Option<Key>)
    requires SamePointer(lo, g, f) && SamePointer(lo, g, h) && YoungPointer(lo, h)
    ensures SamePointer(lo, f, h)
  {
  }

  lemma SelfSim(lo: Key, f: Fold)
    requires SameBlocks(lo, 0, f.blocks, f.blocks) && Closed(lo, f.heap) && ToolsPast(f)
    ensures Sim(lo, 0, f, f)
  {
  }

  // ---- exactly ----

  /** A text or a plan that the fold holds on to swallows the next one: an event of its kind opens a block in a fold
      that points at nothing older, and none in this one. */
  lemma HeldSwallows(lo: Key, f: Fold, h: Fold, sn: nat) returns (e: Event)
    requires Sim(lo, 0, f, h) && Young(lo, h) && Holds(lo, f) && sn >= lo && sn !in h.heap
    ensures e.sn == sn && !e.body.TurnEnd? && Push(f, e).blocks != Push(h, e).blocks
  {
    assert f.blocks[0..] == f.blocks;
    if f.plan.Some? && f.plan.value < lo {
      e := Event(sn, 0, Plan(""));
      PlanSwallowed(f, h, e);
    } else {
      var c := At(f, f.cur).value;
      if c.ThoughtBlock? {
        e := Event(sn, 0, Thought("", ""));
        ThoughtSwallowed(f, h, e);
      } else {
        e := Event(sn, 0, Message(c.role, "", c.mid, "", None, false));
        MessageSwallowed(f, h, e);
      }
    }
  }

  lemma DoneBlocks(f: Fold, k: Option<Key>, ts: nat)
    ensures Done(f, k, ts).blocks == f.blocks && Done(f, k, ts).plan == f.plan && Done(f, k, ts).cur == f.cur
  {
    DoneSame(f, k, ts);
  }

  lemma PlanSwallowed(f: Fold, h: Fold, e: Event)
    requires e.body == Plan("") && f.plan.Some? && h.plan.None? && f.blocks == h.blocks
    ensures Push(f, e).blocks != Push(h, e).blocks
  {
    var f0 := f.(lastSeq := if e.sn > f.lastSeq then e.sn else f.lastSeq);
    var h0 := h.(lastSeq := if e.sn > h.lastSeq then e.sn else h.lastSeq);
    DoneBlocks(f0, f0.cur, e.ts);
    DoneBlocks(h0, h0.cur, e.ts);
    hide Done;
    assert Push(f, e).blocks == f.blocks && Push(h, e).blocks == h.blocks + [e.sn];
  }

  lemma ThoughtSwallowed(f: Fold, h: Fold, e: Event)
    requires e.body == Thought("", "") && At(f, f.cur).Some? && At(f, f.cur).value.ThoughtBlock? && h.cur.None?
    requires f.blocks == h.blocks
    ensures Push(f, e).blocks != Push(h, e).blocks
  {
    assert Push(f, e).blocks == f.blocks && Push(h, e).blocks == h.blocks + [e.sn];
  }

  lemma MessageSwallowed(f: Fold, h: Fold, e: Event)
    requires At(f, f.cur).Some? && At(f, f.cur).value.MsgBlock? && Catches(At(f, f.cur)) && h.cur.None?
      && f.blocks == h.blocks
    requires var c := At(f, f.cur).value; e.body == Message(c.role, "", c.mid, "", None, false)
    ensures Push(f, e).blocks != Push(h, e).blocks
  {
    assert Push(f, e).blocks == f.blocks && Push(h, e).blocks == h.blocks + [e.sn];
  }
}
