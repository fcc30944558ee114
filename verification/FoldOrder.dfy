/** A card opens before what is nested in it, so the walk that bumps a block's enclosing cards always goes to the
    end. */
module FoldOrder {
  import opened Options
  import opened FoldSpec
  import opened FoldSim
  import opened FoldSplit

  ghost predicate CardsFirst(h: map<Key, Block>) { forall k :: k in h && h[k].up.Some? ==> h[k].up.value < k }

  /** The new heap nests what the old one had as before, and what opened at `sn` in a block of the old one. */
  ghost predicate Nested(h: map<Key, Block>, h': map<Key, Block>, sn: Key) {
    forall k :: k in h' ==>
      (k in h && h'[k].up == h[k].up) || (k == sn && (h'[k].up.Some? ==> h'[k].up.value in h))
  }

  /** A change that opens nothing. */
  ghost predicate SameNesting(h: map<Key, Block>, h': map<Key, Block>) {
    h'.Keys == h.Keys && forall k :: k in h ==> h'[k].up == h[k].up
  }

  lemma BumpNesting(h: map<Key, Block>, k: Key)
    ensures SameNesting(h, Bump(h, k))
  {
    BumpContents(h, k);
  }

  lemma DoneNesting(f: Fold, k: Option<Key>, ts: nat)
    ensures SameNesting(f.heap, Done(f, k, ts).heap) && Done(f, k, ts) == f.(heap := Done(f, k, ts).heap)
  {
    DoneSame(f, k, ts);
    if Running(At(f, k)) {
      var t := f.heap[k.value].c;
      BumpNesting(Change(f, k.value, ThoughtBlock(t.text, t.t0, if ts > 0 then ts else t.t1, true)).heap, k.value);
    }
  }

  lemma {:induction false} DoneAllNesting(f: Fold, ks: seq<Key>)
    ensures SameNesting(f.heap, DoneAll(f, ks).heap)
  {
    if ks != [] {
      DoneAllNesting(f, ks[..|ks| - 1]);
      DoneNesting(DoneAll(f, ks[..|ks| - 1]), Some(ks[|ks| - 1]), 0);
    }
  }

  lemma OpenNesting(f: Fold, k: Key, c: Content, into: Option<Key>)
    requires k !in f.heap
    ensures var h := Open(f, k, c, into).heap;
      && h.Keys == f.heap.Keys + {k} && (h[k].up.Some? ==> h[k].up.value in f.heap)
      && forall x :: x in f.heap ==> h[x].up == f.heap[x].up
  {
    hide Bump;
    if IsBox(At(f, into)) { BumpNesting(f.heap, into.value); }
  }

  lemma TextNesting(f: Fold, e: Event, parent: string)
    requires (e.body.Message? || e.body.Thought?) && e.sn !in f.heap
    ensures Nested(f.heap, PushText(f, e, parent).heap, e.sn)
  {
    var into := Box(f, parent);
    var c := Cur(f, into);
    var f1 := if e.body.Message? then Done(f, c, e.ts) else f;
    DoneNesting(f, c, e.ts);
    if Continues(At(f1, c), e.body) {
      ContinuedNesting(f1, e, c.value, into);
    } else {
      var b := if e.body.Thought? then ThoughtBlock(e.body.text, e.ts, e.ts, false)
               else MsgBlock(e.body.role, e.body.mid, e.body.text, e.body.files, e.body.steered);
      NewTextNesting(f1, e.sn, b, into);
    }
  }

  lemma ContinuedNesting(f: Fold, e: Event, c: Key, into: Option<Key>)
    requires Continues(At(f, Some(c)), e.body)
    ensures SameNesting(f.heap, SetCur(Bumped(Change(f, c, Continued(f.heap[c].c, e)), c), into, Some(c)).heap)
  {
    hide Bump;
    var f2 := Change(f, c, Continued(f.heap[c].c, e));
    BumpNesting(f2.heap, c);
    SetCurNesting(Bumped(f2, c), into, Some(c));
    hide SetCur;
  }

  lemma NewTextNesting(f: Fold, sn: Key, b: Content, into: Option<Key>)
    requires sn !in f.heap
    ensures Nested(f.heap, SetCur(Open(f, sn, b, into), into, Some(sn)).heap, sn)
  {
    hide Open;
    OpenNesting(f, sn, b, into);
    SetCurNesting(Open(f, sn, b, into), into, Some(sn));
    hide SetCur;
  }

  lemma SetCurNesting(f: Fold, into: Option<Key>, k: Option<Key>)
    ensures SameNesting(f.heap, SetCur(f, into, k).heap)
  {
  }

  lemma MergeNesting(f: Fold, t: Key, d: Body)
    requires d.Tool?
    ensures SameNesting(f.heap, FoldTool(f, t, d).heap)
  {
    if t in f.heap && f.heap[t].c.ToolBlock? {
      var c := Merged(f.heap[t].c, d);
      var g := Change(f, t, c).(byId := f.byId[d.id := t]);
      var kids := if c.children.Some? && Finished(c) then c.children.value else [];
      DoneAllNesting(g, kids);
      BumpNesting(DoneAll(g, kids).heap, t);
    }
  }

  lemma ToolNesting(f: Fold, e: Event)
    requires e.body.Tool? && e.sn !in f.heap
    ensures Nested(f.heap, PushTool(f, e).heap, e.sn)
  {
    hide Done, SetCur, Open, FoldTool, ToolBox, Cur;
    var d := e.body;
    var into := ToolBox(f, d.id, d.parent);
    var f0 := if into.Some? then Done(f, Cur(f, into), 0) else f;
    var f1 := SetCur(f0, into, None);
    DoneNesting(f, Cur(f, into), 0);
    SetCurNesting(f0, into, None);
    assert SameNesting(f.heap, f1.heap);
    if ToolAt(f, d.id).Some? {
      MergeNesting(f1, ToolAt(f, d.id).value, d);
    } else {
      OpenNesting(f1, e.sn, NewTool(d.id, e.ts), into);
      MergeNesting(Open(f1, e.sn, NewTool(d.id, e.ts), into).(tools := f1.tools[(f1.turn, d.id) := e.sn]), e.sn, d);
    }
  }

  lemma PlanNesting(f: Fold, e: Event)
    requires e.body.Plan? && e.sn !in f.heap
    ensures Nested(f.heap, PushPlan(f, e).heap, e.sn)
  {
    var f1 := f.(cur := None);
    OpenNesting(f1, e.sn, PlanBlock(""), None);
    var f2 := if f.plan.Some? then f1 else Open(f1, e.sn, PlanBlock(""), None).(plan := Some(e.sn));
    if At(f2, f2.plan).Some? { BumpNesting(Change(f2, f2.plan.value, PlanBlock(e.body.entries)).heap, f2.plan.value); }
  }

  lemma FilesNesting(f: Fold, e: Event)
    requires e.body.FilesChanged? && e.sn !in f.heap
    ensures Nested(f.heap, PushFiles(f, e).heap, e.sn)
  {
    var t := ChangedTool(f, e.body.toolCallId);
    if e.body.toolCallId != "" && At(f, t).Some? && At(f, t).value.ToolBlock? {
      BumpNesting(Change(f, t.value, At(f, t).value.(diff := Some(e.body.patch))).heap, t.value);
    }
  }

  lemma RouteNesting(f: Fold, e: Event)
    requires e.sn !in f.heap
    ensures Nested(f.heap, Route(f, e).heap, e.sn)
  {
    hide Open, PushText, PushTool, PushPlan, PushFiles, Answered;
    match e.body {
      case Message(_, _, _, parent, _, _) => TextNesting(f, e, parent);
      case Thought(_, parent) => TextNesting(f, e, parent);
      case Tool(_, _, _, _, _, _) => ToolNesting(f, e);
      case Plan(_) => PlanNesting(f, e);
      case FilesChanged(_, _, _) => FilesNesting(f, e);
      case PermissionRequest(pid, ask) =>
        OpenNesting(f.(cur := None, perms := f.perms[pid := e.sn]), e.sn, AskBlock(pid, ask, None), None);
      case ElicitationRequest(eid, ask) =>
        OpenNesting(f.(cur := None, asks := f.asks[eid := e.sn]), e.sn, AskBlock(eid, ask, None), None);
      case TurnEnd(turn, stop) =>
        OpenNesting(f.(cur := None, plan := None, turn := NextTurn(f.turn, turn)), e.sn, TurnBlock(turn, stop), None);
      case Notice(text) => OpenNesting(f, e.sn, NoticeBlock(text), None);
      case PermissionResolved(pid, answer) => AnsweredNesting(f, Find(f.perms, pid), answer);
      case ElicitationResolved(eid, answer) => AnsweredNesting(f, Find(f.asks, eid), answer);
      case _ =>
    }
  }

  lemma AnsweredNesting(f: Fold, k: Option<Key>, answer: string)
    ensures SameNesting(f.heap, Answered(f, k, answer).heap)
  {
    if At(f, k).Some? && At(f, k).value.AskBlock? {
      BumpNesting(Change(f, k.value, At(f, k).value.(answer := Some(answer))).heap, k.value);
    }
  }

  lemma PushOrder(f: Fold, e: Event)
    requires CardsFirst(f.heap) && forall k :: k in f.heap ==> k < e.sn
    ensures CardsFirst(Push(f, e).heap)
  {
    var f0 := f.(lastSeq := if e.sn > f.lastSeq then e.sn else f.lastSeq);
    DoneNesting(f0, f0.cur, e.ts);
    RouteNesting(if LeavesThought(e.body) then f0 else Done(f0, f0.cur, e.ts), e);
  }

  /** In a fold of events in order, every block is nested in an older one. */
  lemma {:induction false} FoldOrder(seed: nat, events: seq<Event>)
    requires forall i, j :: 0 <= i < j < |events| ==> events[i].sn < events[j].sn
    ensures CardsFirst(FoldFrom(Seeded(seed), events).heap)
    ensures forall k :: k in FoldFrom(Seeded(seed), events).heap ==> exists i :: 0 <= i < |events| && events[i].sn == k
  {
    if events != [] {
      var front, e := events[..|events| - 1], events[|events| - 1];
      FoldOrder(seed, front);
      PushOrder(FoldFrom(Seeded(seed), front), e);
      PushShape(FoldFrom(Seeded(seed), front), e);
      forall k | k in FoldFrom(Seeded(seed), events).heap ensures exists i :: 0 <= i < |events| && events[i].sn == k {
        if k == e.sn { assert events[|events| - 1].sn == k; }
        else { var i :| 0 <= i < |front| && front[i].sn == k; assert events[i].sn == k; }
      }
    }
  }
}
