/** A log folded whole equals its pieces folded separately, when it is cut where no later event refers back. */
module FoldSplit {
  import opened Options
  import opened FoldSpec
  import opened FoldSim

  // ---- a fold points only at what it opened ----

  predicate BelowPointer(hi: Key, k: Option<Key>) { k.Some? ==> k.value < hi }

  ghost predicate BelowHeap(hi: Key, h: map<Key, Block>) {
    forall k :: k in h ==> k < hi && (h[k].c.ToolBlock? ==> BelowPointer(hi, h[k].c.cur))
  }

  ghost predicate BelowIndex(hi: Key, m: map<string, Key>) { forall id :: id in m ==> m[id] < hi }

  /** Everything in the fold was opened before `hi`, and its calls belong to turns up to the current one. */
  ghost predicate Below(hi: Key, f: Fold) {
    && (forall i :: 0 <= i < |f.blocks| ==> f.blocks[i] < hi)
    && BelowHeap(hi, f.heap) && BelowIndex(hi, f.byId) && BelowIndex(hi, f.perms) && BelowIndex(hi, f.asks)
    && (forall k :: k in f.tools ==> f.tools[k] < hi) && ToolsPast(f)
    && BelowPointer(hi, f.cur) && BelowPointer(hi, f.plan)
  }

  lemma BumpBelow(hi: Key, f: Fold, k: Key)
    requires Below(hi, f)
    ensures Below(hi, Bumped(f, k))
  {
    BumpContents(f.heap, k);
  }

  lemma DoneBelow(hi: Key, f: Fold, k: Option<Key>, ts: nat)
    requires Below(hi, f)
    ensures Below(hi, Done(f, k, ts))
  {
    DoneSame(f, k, ts);
    var f' := Done(f, k, ts);
    forall j | j in f'.heap ensures j < hi && (f'.heap[j].c.ToolBlock? ==> BelowPointer(hi, f'.heap[j].c.cur)) {}
  }

  lemma {:induction false} DoneAllBelow(hi: Key, f: Fold, ks: seq<Key>)
    requires Below(hi, f)
    ensures Below(hi, DoneAll(f, ks))
  {
    if ks != [] {
      DoneAllBelow(hi, f, ks[..|ks| - 1]);
      DoneBelow(hi, DoneAll(f, ks[..|ks| - 1]), Some(ks[|ks| - 1]), 0);
    }
  }

  lemma HeapBelow(hi: Key, f: Fold, h: map<Key, Block>)
    requires Below(hi, f) && BelowHeap(hi, h)
    ensures Below(hi, f.(heap := h))
  {
  }

  lemma OpenHeapBelow(hi: Key, f: Fold, k: Key, c: Content, into: Option<Key>)
    requires BelowHeap(hi, f.heap) && k < hi && (c.ToolBlock? ==> c.cur.None?)
    ensures BelowHeap(hi, Open(f, k, c, into).heap)
  {
    hide Bump;
    if IsBox(At(f, into)) {
      BumpContents(f.heap, into.value);
      var h := Bump(f.heap, into.value);
      var h1 := h[k := Block(c, 0, into)];
      assert BelowHeap(hi, h) && BelowHeap(hi, h1);
    }
  }

  lemma OpenBelow(hi: Key, f: Fold, k: Key, c: Content, into: Option<Key>)
    requires Below(hi, f) && k < hi && (c.ToolBlock? ==> c.cur.None?)
    ensures Below(hi, Open(f, k, c, into))
  {
    OpenHeapBelow(hi, f, k, c, into);
    OpenedAtEnd(f, k, c, into);
    hide Open, BelowHeap;
    OpenKeeps(f, k, c, into);
  }

  lemma OpenedAtEnd(f: Fold, k: Key, c: Content, into: Option<Key>)
    ensures var bs := Open(f, k, c, into).blocks; bs == f.blocks || bs == f.blocks + [k]
  {
  }

  lemma SetCurBelow(hi: Key, f: Fold, into: Option<Key>, k: Option<Key>)
    requires Below(hi, f) && BelowPointer(hi, k)
    ensures Below(hi, SetCur(f, into, k))
  {
  }

  lemma TextBelow(hi: Key, f: Fold, e: Event, parent: string)
    requires Below(hi, f) && e.sn < hi && (e.body.Message? || e.body.Thought?)
    ensures Below(hi, PushText(f, e, parent))
  {
    var into := Box(f, parent);
    var c := Cur(f, into);
    DoneBelow(hi, f, c, e.ts);
    var f1 := if e.body.Message? then Done(f, c, e.ts) else f;
    if Continues(At(f1, c), e.body) {
      var f2 := Change(f1, c.value, Continued(f1.heap[c.value].c, e));
      BumpBelow(hi, f2, c.value);
      SetCurBelow(hi, Bumped(f2, c.value), into, c);
    } else {
      var b := if e.body.Thought? then ThoughtBlock(e.body.text, e.ts, e.ts, false)
               else MsgBlock(e.body.role, e.body.mid, e.body.text, e.body.files, e.body.steered);
      OpenBelow(hi, f1, e.sn, b, into);
      SetCurBelow(hi, Open(f1, e.sn, b, into), into, Some(e.sn));
    }
  }

  lemma FoldToolBelow(hi: Key, f: Fold, t: Key, d: Body)
    requires Below(hi, f) && t < hi && d.Tool?
    ensures Below(hi, FoldTool(f, t, d))
  {
    if t in f.heap && f.heap[t].c.ToolBlock? {
      var c := Merged(f.heap[t].c, d);
      var g := Change(f, t, c).(byId := f.byId[d.id := t]);
      var kids := if c.children.Some? && Finished(c) then c.children.value else [];
      DoneAllBelow(hi, g, kids);
      BumpBelow(hi, DoneAll(g, kids), t);
    }
  }

  lemma ToolBelow(hi: Key, f: Fold, e: Event)
    requires Below(hi, f) && e.sn < hi && e.body.Tool?
    ensures Below(hi, PushTool(f, e))
  {
    var d := e.body;
    var into := ToolBox(f, d.id, d.parent);
    DoneBelow(hi, f, Cur(f, into), 0);
    SetCurBelow(hi, if into.Some? then Done(f, Cur(f, into), 0) else f, into, None);
    var f1 := SetCur(if into.Some? then Done(f, Cur(f, into), 0) else f, into, None);
    if ToolAt(f, d.id).None? {
      OpenBelow(hi, f1, e.sn, NewTool(d.id, e.ts), into);
      OpenKeeps(f1, e.sn, NewTool(d.id, e.ts), into);
      FoldToolBelow(hi, Open(f1, e.sn, NewTool(d.id, e.ts), into).(tools := f1.tools[(f1.turn, d.id) := e.sn]), e.sn,
        d);
    } else {
      FoldToolBelow(hi, f1, ToolAt(f, d.id).value, d);
    }
  }

  lemma PlanBelow(hi: Key, f: Fold, e: Event)
    requires Below(hi, f) && e.sn < hi && e.body.Plan?
    ensures Below(hi, PushPlan(f, e))
  {
    var f1 := f.(cur := None);
    OpenBelow(hi, f1, e.sn, PlanBlock(""), None);
    var f2 := if f.plan.Some? then f1 else Open(f1, e.sn, PlanBlock(""), None).(plan := Some(e.sn));
    if At(f2, f2.plan).Some? {
      HeapBelow(hi, f2, Change(f2, f2.plan.value, PlanBlock(e.body.entries)).heap);
      BumpBelow(hi, Change(f2, f2.plan.value, PlanBlock(e.body.entries)), f2.plan.value);
    }
  }

  lemma FilesBelow(hi: Key, f: Fold, e: Event)
    requires Below(hi, f) && e.sn < hi && e.body.FilesChanged?
    ensures Below(hi, PushFiles(f, e))
  {
    if e.body.toolCallId != "" {
      var t := ChangedTool(f, e.body.toolCallId);
      if t.Some? && At(f, t).Some? && At(f, t).value.ToolBlock? {
        HeapBelow(hi, f, Change(f, t.value, At(f, t).value.(diff := Some(e.body.patch))).heap);
        BumpBelow(hi, Change(f, t.value, At(f, t).value.(diff := Some(e.body.patch))), t.value);
      }
    } else {
      var b := Block(ChangesBlock(e.body.turn, e.body.patch), 0, None);
      HeapBelow(hi, f, f.heap[e.sn := b]);
    }
  }

  lemma AnsweredBelow(hi: Key, f: Fold, k: Option<Key>, answer: string)
    requires Below(hi, f)
    ensures Below(hi, Answered(f, k, answer))
  {
    if At(f, k).Some? && At(f, k).value.AskBlock? {
      BumpBelow(hi, Change(f, k.value, At(f, k).value.(answer := Some(answer))), k.value);
    }
  }

  lemma PushBelow(hi: Key, f: Fold, e: Event)
    requires Below(hi, f) && e.sn < hi && TurnRises(f, e)
    ensures Below(hi, Push(f, e))
  {
    var f0 := f.(lastSeq := if e.sn > f.lastSeq then e.sn else f.lastSeq);
    DoneBelow(hi, f0, f0.cur, e.ts);
    RouteBelow(hi, if LeavesThought(e.body) then f0 else Done(f0, f0.cur, e.ts), e);
  }

  lemma RequestBelow(hi: Key, f: Fold, e: Event)
    requires Below(hi, f) && e.sn < hi && (e.body.PermissionRequest? || e.body.ElicitationRequest?)
    ensures Below(hi, Route(f, e))
  {
    match e.body {
      case PermissionRequest(pid, ask) =>
        OpenBelow(hi, f.(cur := None, perms := f.perms[pid := e.sn]), e.sn, AskBlock(pid, ask, None), None);
      case ElicitationRequest(eid, ask) =>
        OpenBelow(hi, f.(cur := None, asks := f.asks[eid := e.sn]), e.sn, AskBlock(eid, ask, None), None);
    }
  }

  lemma TurnEndBelow(hi: Key, f: Fold, e: Event)
    requires Below(hi, f) && e.sn < hi && e.body.TurnEnd? && TurnRises(f, e)
    ensures Below(hi, Route(f, e))
  {
    var ended := e.body.turn;
    OpenBelow(hi, f.(cur := None, plan := None, turn := NextTurn(f.turn, ended)), e.sn, TurnBlock(ended, e.body.stop),
      None);
  }

  lemma RouteBelow(hi: Key, f: Fold, e: Event)
    requires Below(hi, f) && e.sn < hi && TurnRises(f, e)
    ensures Below(hi, Route(f, e))
  {
    hide Below, Open;
    match e.body {
      case Message(_, _, _, parent, _, _) => TextBelow(hi, f, e, parent);
      case Thought(_, parent) => TextBelow(hi, f, e, parent);
      case Tool(_, _, _, _, _, _) => ToolBelow(hi, f, e);
      case FilesChanged(_, _, _) => FilesBelow(hi, f, e);
      case Plan(_) => PlanBelow(hi, f, e);
      case PermissionRequest(_, _) => RequestBelow(hi, f, e);
      case ElicitationRequest(_, _) => RequestBelow(hi, f, e);
      case PermissionResolved(pid, answer) => AnsweredBelow(hi, f, Find(f.perms, pid), answer);
      case ElicitationResolved(eid, answer) => AnsweredBelow(hi, f, Find(f.asks, eid), answer);
      case TurnEnd(_, _) => TurnEndBelow(hi, f, e);
      case Notice(text) => OpenBelow(hi, f, e.sn, NoticeBlock(text), None);
      case _ =>
    }
  }

  // ---- one event, in the whole and in the piece ----

  /** Ending a running thought leaves an event as clean as it was. */
  lemma CleanAfterDone(lo: Key, f: Fold, e: Event, k: Option<Key>)
    requires Clean(lo, f, e) && !LeavesThought(e.body)
    ensures Clean(lo, Done(f, k, e.ts), e)
  {
    DoneSame(f, k, e.ts);
    var f' := Done(f, k, e.ts);
    assert forall x :: At(f', x).Some? == At(f, x).Some? && IsBox(At(f', x)) == IsBox(At(f, x));
  }

  lemma PushSim(lo: Key, na: nat, g: Fold, h: Fold, e: Event)
    requires Sim(lo, na, g, h) && Clean(lo, g, e) && TurnRises(g, e) && TurnRises(h, e) && e.sn >= lo
    ensures Sim(lo, na, Push(g, e), Push(h, e)) && OldKept(lo, na, g, Push(g, e))
  {
    var g0 := g.(lastSeq := if e.sn > g.lastSeq then e.sn else g.lastSeq);
    var h0 := h.(lastSeq := if e.sn > h.lastSeq then e.sn else h.lastSeq);
    SeqSim(lo, na, g, h, g0.lastSeq, h0.lastSeq);
    CleanSeq(lo, g, e, g0.lastSeq);
    if LeavesThought(e.body) {
      RouteSim(lo, na, g0, h0, e);
    } else {
      DoneSim(lo, na, g0, h0, g0.cur, h0.cur, e.ts);
      CleanAfterDone(lo, g0, e, g0.cur);
      DoneSame(g0, g0.cur, e.ts);
      DoneSame(h0, h0.cur, e.ts);
      RouteSim(lo, na, Done(g0, g0.cur, e.ts), Done(h0, h0.cur, e.ts), e);
    }
  }

  lemma SeqSim(lo: Key, na: nat, g: Fold, h: Fold, a: nat, b: nat)
    requires Sim(lo, na, g, h)
    ensures Sim(lo, na, g.(lastSeq := a), h.(lastSeq := b)) && OldKept(lo, na, g, g.(lastSeq := a))
  {
    var g', h' := g.(lastSeq := a), h.(lastSeq := b);
    assert forall id :: ToolAt(g', id) == ToolAt(g, id) && ToolAt(h', id) == ToolAt(h, id);
  }

  lemma CleanSeq(lo: Key, f: Fold, e: Event, a: nat)
    requires Clean(lo, f, e)
    ensures Clean(lo, f.(lastSeq := a), e)
  {
    var f' := f.(lastSeq := a);
    assert forall k :: At(f', k) == At(f, k);
  }

  // ---- logs ----

  /** The turn counter after some events. */
  function TurnAfter(turn: int, events: seq<Event>): int {
    if events == [] then turn
    else
      var t, e := TurnAfter(turn, events[..|events| - 1]), events[|events| - 1].body;
      if e.TurnEnd? then NextTurn(t, e.turn) else t
  }

  /** Every numbered turn.end carries a number above the turns before it. */
  predicate TurnsRise(turn: int, events: seq<Event>) {
    forall i ::
      0 <= i < |events| && events[i].body.TurnEnd? && events[i].body.turn.Some? && events[i].body.turn.value > 0 ==>
      2 * events[i].body.turn.value + 1 > TurnAfter(turn, events[..i])
  }

  // An event opens at most one block, under its own sequence number, and only turn.end moves the turn.

  lemma {:induction false} DoneAllShape(f: Fold, ks: seq<Key>)
    ensures var f' := DoneAll(f, ks); f'.heap.Keys == f.heap.Keys && f'.turn == f.turn
  {
    if ks != [] {
      DoneAllShape(f, ks[..|ks| - 1]);
      DoneSame(DoneAll(f, ks[..|ks| - 1]), Some(ks[|ks| - 1]), 0);
    }
  }

  lemma OpenShape(f: Fold, k: Key, c: Content, into: Option<Key>)
    ensures var f' := Open(f, k, c, into); f'.heap.Keys == f.heap.Keys + {k} && f'.turn == f.turn
  {
    if into.Some? { BumpContents(f.heap, into.value); }
  }

  lemma TextShape(f: Fold, e: Event, parent: string)
    requires e.body.Message? || e.body.Thought?
    ensures var f' := PushText(f, e, parent); f.heap.Keys <= f'.heap.Keys <= f.heap.Keys + {e.sn} && f'.turn == f.turn
  {
    var into := Box(f, parent);
    var c := Cur(f, into);
    DoneSame(f, c, e.ts);
    hide Done;
    NextTextShape(if e.body.Message? then Done(f, c, e.ts) else f, e, c, into);
  }

  lemma NextTextShape(f: Fold, e: Event, c: Option<Key>, into: Option<Key>)
    requires e.body.Message? || e.body.Thought?
    ensures var b := if e.body.Thought? then ThoughtBlock(e.body.text, e.ts, e.ts, false)
                     else MsgBlock(e.body.role, e.body.mid, e.body.text, e.body.files, e.body.steered);
      var f' :=
        if Continues(At(f, c), e.body)
          then SetCur(Bumped(Change(f, c.value, Continued(f.heap[c.value].c, e)), c.value), into, c)
        else SetCur(Open(f, e.sn, b, into), into, Some(e.sn));
      f.heap.Keys <= f'.heap.Keys <= f.heap.Keys + {e.sn} && f'.turn == f.turn
  {
    hide Open, Bump;
    if Continues(At(f, c), e.body) {
      BumpContents(Change(f, c.value, Continued(f.heap[c.value].c, e)).heap, c.value);
    } else {
      OpenShape(f, e.sn, if e.body.Thought? then ThoughtBlock(e.body.text, e.ts, e.ts, false)
                         else MsgBlock(e.body.role, e.body.mid, e.body.text, e.body.files, e.body.steered), into);
    }
  }

  lemma FoldToolShape(f: Fold, t: Key, d: Body)
    requires d.Tool?
    ensures var f' := FoldTool(f, t, d); f'.heap.Keys == f.heap.Keys && f'.turn == f.turn
  {
    if t in f.heap && f.heap[t].c.ToolBlock? {
      var c := Merged(f.heap[t].c, d);
      var g := Change(f, t, c).(byId := f.byId[d.id := t]);
      var kids := if c.children.Some? && Finished(c) then c.children.value else [];
      DoneAllShape(g, kids);
      BumpContents(DoneAll(g, kids).heap, t);
    }
  }

  lemma ToolShape(f: Fold, e: Event)
    requires e.body.Tool?
    ensures var f' := PushTool(f, e); f.heap.Keys <= f'.heap.Keys <= f.heap.Keys + {e.sn} && f'.turn == f.turn
  {
    var d := e.body;
    var into := ToolBox(f, d.id, d.parent);
    DoneSame(f, Cur(f, into), 0);
    var f1 := SetCur(if into.Some? then Done(f, Cur(f, into), 0) else f, into, None);
    OpenShape(f1, e.sn, NewTool(d.id, e.ts), into);
    var f2 := if ToolAt(f, d.id).Some? then f1
              else Open(f1, e.sn, NewTool(d.id, e.ts), into).(tools := f1.tools[(f1.turn, d.id) := e.sn]);
    FoldToolShape(f2, if ToolAt(f, d.id).Some? then ToolAt(f, d.id).value else e.sn, d);
  }

  lemma PlanShape(f: Fold, e: Event)
    requires e.body.Plan?
    ensures var f' := PushPlan(f, e); f.heap.Keys <= f'.heap.Keys <= f.heap.Keys + {e.sn} && f'.turn == f.turn
  {
    hide Bump, Open;
    OpenShape(f.(cur := None), e.sn, PlanBlock(""), None);
    var f2 := if f.plan.Some? then f.(cur := None)
              else Open(f.(cur := None), e.sn, PlanBlock(""), None).(plan := Some(e.sn));
    if At(f2, f2.plan).Some? {
      BumpContents(Change(f2, f2.plan.value, PlanBlock(e.body.entries)).heap, f2.plan.value);
    }
  }

  lemma FilesShape(f: Fold, e: Event)
    requires e.body.FilesChanged?
    ensures var f' := PushFiles(f, e); f.heap.Keys <= f'.heap.Keys <= f.heap.Keys + {e.sn} && f'.turn == f.turn
  {
    hide Bump, Place;
    var t := ChangedTool(f, e.body.toolCallId);
    if At(f, t).Some? && At(f, t).value.ToolBlock? {
      BumpContents(Change(f, t.value, At(f, t).value.(diff := Some(e.body.patch))).heap, t.value);
    }
  }

  lemma RouteShape(f: Fold, e: Event)
    ensures var f' := Route(f, e);
      && f.heap.Keys <= f'.heap.Keys <= f.heap.Keys + {e.sn}
      && f'.turn == if e.body.TurnEnd? then NextTurn(f.turn, e.body.turn) else f.turn
  {
    hide PushText, PushTool, PushPlan, PushFiles, Answered;
    match e.body {
      case Message(_, _, _, parent, _, _) => TextShape(f, e, parent);
      case Thought(_, parent) => TextShape(f, e, parent);
      case Tool(_, _, _, _, _, _) => ToolShape(f, e);
      case Plan(_) => PlanShape(f, e);
      case FilesChanged(_, _, _) => FilesShape(f, e);
      case PermissionResolved(pid, answer) => AnsweredShape(f, Find(f.perms, pid), answer);
      case ElicitationResolved(eid, answer) => AnsweredShape(f, Find(f.asks, eid), answer);
      case _ =>
    }
  }

  lemma AnsweredShape(f: Fold, k: Option<Key>, answer: string)
    ensures var f' := Answered(f, k, answer); f'.heap.Keys == f.heap.Keys && f'.turn == f.turn
  {
    if At(f, k).Some? && At(f, k).value.AskBlock? {
      BumpContents(Change(f, k.value, At(f, k).value.(answer := Some(answer))).heap, k.value);
    }
  }

  lemma PushShape(f: Fold, e: Event)
    ensures var f' := Push(f, e);
      && f.heap.Keys <= f'.heap.Keys <= f.heap.Keys + {e.sn}
      && f'.turn == if e.body.TurnEnd? then NextTurn(f.turn, e.body.turn) else f.turn
  {
    var f0 := f.(lastSeq := if e.sn > f.lastSeq then e.sn else f.lastSeq);
    DoneSame(f0, f0.cur, e.ts);
    RouteShape(if LeavesThought(e.body) then f0 else Done(f0, f0.cur, e.ts), e);
  }

  lemma {:induction false} FoldTurn(f: Fold, events: seq<Event>)
    ensures FoldFrom(f, events).turn == TurnAfter(f.turn, events)
  {
    if events != [] {
      var front, e := events[..|events| - 1], events[|events| - 1];
      FoldTurn(f, front);
      PushShape(FoldFrom(f, front), e);
    }
  }

  lemma {:induction false} FoldConcat(f: Fold, a: seq<Event>, b: seq<Event>)
    ensures FoldFrom(f, a + b) == FoldFrom(FoldFrom(f, a), b)
  {
    hide Push;
    if b == [] {
      assert a + b == a;
    } else {
      FoldConcat(f, a, b[..|b| - 1]);
      assert (a + b)[..|a + b| - 1] == a + b[..|b| - 1];
    }
  }

  predicate Between(lo: nat, hi: nat, events: seq<Event>) { forall i :: 0 <= i < |events| ==> lo <= events[i].sn < hi }

  /** No event resolves to a block older than `lo` when it comes. */
  predicate CleanRun(lo: Key, f: Fold, events: seq<Event>) {
    forall i :: 0 <= i < |events| ==> Clean(lo, FoldFrom(f, events[..i]), events[i])
  }

  lemma TurnRisesAt(f: Fold, events: seq<Event>, i: nat)
    requires TurnsRise(f.turn, events) && i < |events|
    ensures TurnRises(FoldFrom(f, events[..i]), events[i])
  {
    FoldTurn(f, events[..i]);
  }

  lemma PrefixRises(turn: int, events: seq<Event>, n: nat)
    requires TurnsRise(turn, events) && n <= |events|
    ensures TurnsRise(turn, events[..n])
  {
    forall i | 0 <= i < n ensures events[..n][..i] == events[..i] {}
  }

  lemma {:induction false} FoldBelow(hi: Key, f: Fold, events: seq<Event>)
    requires Below(hi, f) && Between(0, hi, events) && TurnsRise(f.turn, events)
    ensures Below(hi, FoldFrom(f, events))
  {
    if events != [] {
      var n := |events| - 1;
      PrefixRises(f.turn, events, n);
      FoldBelow(hi, f, events[..n]);
      TurnRisesAt(f, events, n);
      PushBelow(hi, FoldFrom(f, events[..n]), events[n]);
    }
  }

  /** The whole and the piece stay alike through any clean run of events. */
  lemma {:induction false} RunSim(lo: Key, na: nat, g: Fold, h: Fold, events: seq<Event>)
    requires Sim(lo, na, g, h) && CleanRun(lo, g, events) && (forall i :: 0 <= i < |events| ==> events[i].sn >= lo)
    requires TurnsRise(g.turn, events) && TurnsRise(h.turn, events)
    ensures Sim(lo, na, FoldFrom(g, events), FoldFrom(h, events)) && OldKept(lo, na, g, FoldFrom(g, events))
  {
    if events != [] {
      var n := |events| - 1;
      PrefixRises(g.turn, events, n);
      PrefixRises(h.turn, events, n);
      PrefixClean(lo, g, events, n);
      RunSim(lo, na, g, h, events[..n]);
      TurnRisesAt(g, events, n);
      TurnRisesAt(h, events, n);
      PushSim(lo, na, FoldFrom(g, events[..n]), FoldFrom(h, events[..n]), events[n]);
    }
  }

  lemma PrefixClean(lo: Key, f: Fold, events: seq<Event>, n: nat)
    requires CleanRun(lo, f, events) && n <= |events|
    ensures CleanRun(lo, f, events[..n])
  {
    forall i | 0 <= i < n ensures events[..n][..i] == events[..i] {}
  }

  lemma {:induction false} FoldKeys(f: Fold, events: seq<Event>)
    ensures forall k :: k in FoldFrom(f, events).heap ==> k in f.heap || exists e :: e in events && e.sn == k
  {
    if events != [] {
      var front, e := events[..|events| - 1], events[|events| - 1];
      FoldKeys(f, front);
      PushShape(FoldFrom(f, front), e);
      assert forall x :: x in front ==> x in events;
      assert e in events;
    }
  }

  /** A fresh fold is a piece of any fold of earlier events. */
  lemma FreshPiece(lo: Key, g: Fold, seed: nat)
    requires Below(lo, g)
    ensures Sim(lo, |g.blocks|, g, Seeded(seed))
  {
    var h := Seeded(seed);
    assert forall id :: ToolAt(h, id) == None;
  }

  /** Folding a log whole gives the blocks of its first half followed by those of its second: the same keys, the same
      contents, versions and nesting, in the same order. The second half may start from any seed below its turns. */
  lemma FoldSplits(a: seq<Event>, b: seq<Event>, lo: Key, seed: nat)
    requires Between(0, lo, a) && forall i :: 0 <= i < |b| ==> b[i].sn >= lo
    requires TurnsRise(0, a + b) && TurnsRise(Seeded(seed).turn, b)
    requires CleanRun(lo, FoldFrom(EMPTY, a), b)
    ensures var whole, first, second := FoldFrom(EMPTY, a + b), FoldFrom(EMPTY, a), FoldFrom(Seeded(seed), b);
      && whole.blocks == first.blocks + second.blocks
      && whole.heap == first.heap + second.heap
      && first.heap.Keys !! second.heap.Keys
  {
    var first, second := FoldFrom(EMPTY, a), FoldFrom(Seeded(seed), b);
    FoldConcat(EMPTY, a, b);
    SuffixRises(0, a, b);
    FoldTurn(EMPTY, a);
    assert (a + b)[..|a|] == a;
    PrefixRises(0, a + b, |a|);
    FoldBelow(lo, EMPTY, a);
    FreshPiece(lo, first, seed);
    RunSim(lo, |first.blocks|, first, Seeded(seed), b);
    FoldKeys(Seeded(seed), b);
    WholeIsSum(lo, first, FoldFrom(first, b), second);
  }

  lemma SuffixRises(turn: int, a: seq<Event>, b: seq<Event>)
    requires TurnsRise(turn, a + b)
    ensures TurnsRise(TurnAfter(turn, a), b)
  {
    forall i | 0 <= i < |b| ensures TurnAfter(TurnAfter(turn, a), b[..i]) == TurnAfter(turn, (a + b)[..|a| + i]) {
      TurnAfterConcat(turn, a, b[..i]);
      assert (a + b)[..|a| + i] == a + b[..i];
    }
    forall i | 0 <= i < |b| ensures (a + b)[|a| + i] == b[i] {}
  }

  lemma {:induction false} TurnAfterConcat(turn: int, a: seq<Event>, b: seq<Event>)
    ensures TurnAfter(turn, a + b) == TurnAfter(TurnAfter(turn, a), b)
  {
    if b == [] {
      assert a + b == a;
    } else {
      TurnAfterConcat(turn, a, b[..|b| - 1]);
      assert (a + b)[..|a + b| - 1] == a + b[..|b| - 1];
    }
  }

  lemma WholeIsSum(lo: Key, first: Fold, whole: Fold, second: Fold)
    requires Below(lo, first) && Sim(lo, |first.blocks|, whole, second) && OldKept(lo, |first.blocks|, first, whole)
    requires forall k :: k in second.heap ==> k >= lo
    ensures whole.blocks == first.blocks + second.blocks
    ensures whole.heap == first.heap + second.heap && first.heap.Keys !! second.heap.Keys
  {
    var na := |first.blocks|;
    assert whole.blocks == whole.blocks[..na] + whole.blocks[na..];
    assert first.blocks == first.blocks[..na];
  }

  /** The condition on the seed is needed: a second half seeded with a turn number that one of its own turns reaches
      again takes that turn's first call for an earlier one with the same id, and shows one block less. */
  lemma SeedTooHigh()
    ensures var b := [Call(1), FirstTurn(2), Call(3)];
      && TurnsRise(0, b) && CleanRun(1, EMPTY, b) && !TurnsRise(Seeded(1).turn, b)
      && FoldFrom(EMPTY, b).blocks == [1, 2, 3] && FoldFrom(Seeded(1), b).blocks == [1, 2]
  {
    hide CleanRun, FoldFrom;
    var b := [Call(1), FirstTurn(2), Call(3)];
    CallTurnCall(EMPTY, b);
    CallTurnCall(Seeded(1), b);
    assert b[..1] == [b[0]];
    TurnsOfOne(0, b[0]);
    TurnsOfOne(3, b[0]);
    hide TurnAfter;
    assert b[1].body == TurnEnd(Some(1), "") && b[0].body.Tool? && b[2].body.Tool?;
  }

  lemma TurnsOfOne(turn: int, e: Event)
    ensures !e.body.TurnEnd? ==> TurnAfter(turn, [e]) == turn
  {
    assert [e][..0] == [];
  }

  function Call(sn: nat): Event { Event(sn, 0, Tool("a", "", false, map[], None, None)) }

  function FirstTurn(sn: nat): Event { Event(sn, 0, TurnEnd(Some(1), "")) }

  /** The same call before and after the first turn's end, in a fold with no call yet. */
  lemma CallTurnCall(f: Fold, b: seq<Event>)
    requires b == [Call(1), FirstTurn(2), Call(3)] && f.tools == map[] && f.blocks == [] && f.cur.None?
    ensures FoldFrom(f, b).blocks == if f.turn == 3 then [1, 2] else [1, 2, 3]
    ensures CleanRun(1, f, b)
  {
    hide Push, Clean, Call, FirstTurn;
    Steps(f, b);
    var f1 := Push(f, b[0]);
    var f2 := Push(f1, b[1]);
    CallFolds(f, 1);
    TurnFolds(f1, 2);
    CallFolds(f2, 3);
    CallClean(f, 1);
    TurnClean(f1, 2);
    CallClean(f2, 3);
    forall i | 0 <= i < 3 ensures Clean(1, FoldFrom(f, b[..i]), b[i]) {
      assert FoldFrom(f, b[..i]) == if i == 0 then f else if i == 1 then f1 else f2;
    }
  }

  lemma CallClean(f: Fold, sn: nat)
    requires f.cur.None? && (ToolAt(f, "a").Some? ==> ToolAt(f, "a").value >= 1)
    ensures Clean(1, f, Call(sn))
  {
  }

  lemma TurnClean(f: Fold, sn: nat)
    requires f.cur.None?
    ensures Clean(1, f, FirstTurn(sn))
  {
  }

  lemma Steps(f: Fold, b: seq<Event>)
    requires |b| == 3
    ensures FoldFrom(f, b[..1]) == Push(f, b[0]) && FoldFrom(f, b[..2]) == Push(Push(f, b[0]), b[1])
    ensures FoldFrom(f, b) == Push(Push(Push(f, b[0]), b[1]), b[2]) && FoldFrom(f, b[..0]) == f
  {
    assert b[..1][..0] == [] && b[..2][..1] == b[..1] && b[..2] == b[..|b| - 1];
  }

  lemma {:induction false} DoneAllSame(f: Fold, ks: seq<Key>)
    ensures DoneAll(f, ks) == f.(heap := DoneAll(f, ks).heap)
  {
    if ks != [] {
      DoneAllSame(f, ks[..|ks| - 1]);
      DoneSame(DoneAll(f, ks[..|ks| - 1]), Some(ks[|ks| - 1]), 0);
    }
  }

  lemma MergeSame(f: Fold, t: Key, d: Body)
    requires d.Tool?
    ensures var f' := FoldTool(f, t, d); f' == f.(heap := f'.heap, byId := f'.byId)
  {
    if t in f.heap && f.heap[t].c.ToolBlock? {
      var c := Merged(f.heap[t].c, d);
      var g := Change(f, t, c).(byId := f.byId[d.id := t]);
      DoneAllSame(g, if c.children.Some? then c.children.value else []);
    }
  }

  /** What a call outside any card does to the log's blocks. */
  lemma CallFolds(f: Fold, sn: nat)
    requires f.cur.None?
    ensures var f' := Push(f, Call(sn));
      && f'.cur.None? && f'.turn == f.turn
      && f'.blocks == f.blocks + (if ToolAt(f, "a").Some? then [] else [sn])
      && f'.tools == (if ToolAt(f, "a").Some? then f.tools else f.tools[(f.turn, "a") := sn])
  {
    var e := Call(sn);
    var f0 := f.(lastSeq := if e.sn > f.lastSeq then e.sn else f.lastSeq);
    assert Done(f0, f0.cur, e.ts) == f0 && ToolBox(f0, "a", "") == None && SetCur(f0, None, None) == f0;
    var f2 := if ToolAt(f, "a").Some? then f0
              else Open(f0, sn, NewTool("a", 0), None).(tools := f0.tools[(f0.turn, "a") := sn]);
    MergeSame(f2, if ToolAt(f, "a").Some? then ToolAt(f, "a").value else sn, e.body);
  }

  lemma TurnFolds(f: Fold, sn: nat)
    requires f.cur.None?
    ensures var f' := Push(f, FirstTurn(sn));
      f'.cur.None? && f'.turn == 3 && f'.tools == f.tools && f'.blocks == f.blocks + [sn]
  {
  }
}
