/** The fold as the program keeps it: an object whose fields one event after another changes in place. Each method is
    proved to change them as FoldSpec says, and to change nothing else. */
module AgentFold {
  import opened Options
  import opened S = FoldSpec

  class Fold {
    var blocks: seq<Key>
    var heap: map<Key, Block>
    var tools: map<(int, string), Key>
    var byId: map<string, Key>
    var perms: map<string, Key>
    var asks: map<string, Key>
    var plan: Option<Key>
    var cur: Option<Key>
    var turn: int
    var lastSeq: nat

    function State(): S.Fold
      reads this
    {
      S.Fold(blocks, heap, tools, byId, perms, asks, plan, cur, turn, lastSeq)
    }

    function Read(k: Option<Key>): Option<Content>
      reads this
    {
      if k.Some? && k.value in heap then Some(heap[k.value].c) else None
    }

    constructor ()
      ensures State() == EMPTY
    {
      blocks, heap, tools, byId, perms, asks := [], map[], map[], map[], map[], map[];
      plan, cur, turn, lastSeq := None, None, 0, 0;
    }

    method Seed(turn: nat)
      modifies this
      ensures old(State()) == EMPTY ==> State() == Seeded(turn)
      ensures State() == old(State()).(turn := if turn > 0 then 2 * turn + 1 else old(this.turn))
    {
      if turn > 0 { this.turn := 2 * turn + 1; }
    }

    /** The block and its enclosing cards, walking up. */
    method Bump(k: Key)
      modifies this`heap
      ensures State() == Bumped(old(State()), k)
    {
      var x := Some(k);
      ghost var was := heap;
      while x.Some? && x.value in heap
        invariant (if x.Some? then S.Bump(heap, x.value) else heap) == S.Bump(was, k)
        decreases if x.Some? then x.value + 1 else 0
      {
        var b := heap[x.value];
        heap := heap[x.value := b.(v := b.v + 1)];
        x := if b.up.Some? && b.up.value < x.value then b.up else None;
      }
    }

    method Set(k: Key, c: Content)
      requires k in heap
      modifies this`heap
      ensures State() == Change(old(State()), k, c)
    {
      heap := heap[k := heap[k].(c := c)];
    }

    method Finish(k: Option<Key>, ts: nat)
      modifies this`heap
      ensures State() == Done(old(State()), k, ts)
    {
      var c := Read(k);
      if c.Some? && c.value.ThoughtBlock? && !c.value.done {
        Set(k.value, c.value.(t1 := if ts > 0 then ts else c.value.t1, done := true));
        Bump(k.value);
      }
    }

    method FinishAll(ks: seq<Key>)
      modifies this`heap
      ensures State() == DoneAll(old(State()), ks)
    {
      ghost var was := State();
      for i := 0 to |ks|
        invariant State() == DoneAll(was, ks[..i])
      {
        assert ks[..i + 1][..i] == ks[..i];
        Finish(Some(ks[i]), 0);
      }
      assert ks[..|ks|] == ks;
    }

    method New(k: Key, c: Content, into: Option<Key>)
      modifies this`heap, this`blocks
      ensures State() == Open(old(State()), k, c, into)
    {
      if IsBox(Read(into)) {
        var children := heap[into.value].c.children.value;
        Bump(into.value);
        heap := heap[k := Block(c, 0, into)];
        if into.value in heap && heap[into.value].c.ToolBlock? {
          Set(into.value, heap[into.value].c.(children := Some(children + [k])));
        }
      } else {
        heap := heap[k := Block(c, 0, None)];
        blocks := blocks + [k];
      }
    }

    method SetCurrent(into: Option<Key>, k: Option<Key>)
      modifies this`heap, this`cur
      ensures State() == SetCur(old(State()), into, k)
    {
      var c := Read(into);
      if c.Some? && c.value.ToolBlock? { Set(into.value, c.value.(cur := k)); } else { cur := k; }
    }

    method PushText(e: Event, parent: string)
      requires e.body.Message? || e.body.Thought?
      modifies this`heap, this`blocks, this`cur
      ensures State() == S.PushText(old(State()), e, parent)
    {
      var into := Box(State(), parent);
      var c := Cur(State(), into);
      if e.body.Message? { Finish(c, e.ts); }
      if Continues(Read(c), e.body) {
        Set(c.value, Continued(heap[c.value].c, e));
        Bump(c.value);
      } else {
        var b := if e.body.Thought? then ThoughtBlock(e.body.text, e.ts, e.ts, false)
                 else MsgBlock(e.body.role, e.body.mid, e.body.text, e.body.files, e.body.steered);
        New(e.sn, b, into);
        c := Some(e.sn);
      }
      SetCurrent(into, c);
    }

    method MergeTool(t: Key, d: Body)
      requires d.Tool?
      modifies this`heap, this`byId
      ensures State() == FoldTool(old(State()), t, d)
    {
      if t in heap && heap[t].c.ToolBlock? {
        var c := Merged(heap[t].c, d);
        Set(t, c);
        byId := byId[d.id := t];
        if c.children.Some? && Finished(c) { FinishAll(c.children.value); }
        Bump(t);
      }
    }

    method PushTool(e: Event)
      requires e.body.Tool?
      modifies this
      ensures State() == S.PushTool(old(State()), e)
    {
      var d := e.body;
      var t := Find(tools, (turn, d.id));
      var into := ToolBox(State(), d.id, d.parent);
      if into.Some? { Finish(Cur(State(), into), 0); }
      SetCurrent(into, None);
      if t.None? {
        New(e.sn, NewTool(d.id, e.ts), into);
        tools := tools[(turn, d.id) := e.sn];
        t := Some(e.sn);
      }
      MergeTool(t.value, d);
    }

    /** The last end marker of a turn, looking from the end. */
    method FindTurn(ended: Option<nat>) returns (at: Option<nat>)
      ensures at == LastTurn(heap, blocks, ended)
      ensures at.Some? ==>
          && at.value < |blocks| && At(State(), Some(blocks[at.value])).Some?
          && heap[blocks[at.value]].c.TurnBlock? && heap[blocks[at.value]].c.turn == ended
      ensures forall i :: (if at.Some? then at.value + 1 else 0) <= i < |blocks| && blocks[i] in heap ==>
        !(heap[blocks[i]].c.TurnBlock? && heap[blocks[i]].c.turn == ended)
    {
      var n := |blocks|;
      assert blocks[..n] == blocks;
      while n > 0
        invariant n <= |blocks| && LastTurn(heap, blocks[..n], ended) == LastTurn(heap, blocks, ended)
        invariant forall i :: n <= i < |blocks| && blocks[i] in heap ==>
          !(heap[blocks[i]].c.TurnBlock? && heap[blocks[i]].c.turn == ended)
      {
        n := n - 1;
        assert blocks[..n + 1][..n] == blocks[..n];
        if blocks[n] in heap && heap[blocks[n]].c.TurnBlock? && heap[blocks[n]].c.turn == ended { return Some(n); }
      }
      return None;
    }

    method PushFiles(e: Event)
      requires e.body.FilesChanged?
      modifies this`heap, this`blocks
      ensures State() == S.PushFiles(old(State()), e)
    {
      var d := e.body;
      if d.toolCallId != "" {
        var t := ChangedTool(State(), d.toolCallId);
        var c := Read(t);
        if c.Some? && c.value.ToolBlock? {
          Set(t.value, c.value.(diff := Some(d.patch)));
          Bump(t.value);
        }
      } else {
        var found := FindTurn(d.turn);
        var at := if found.Some? then found.value else |blocks|;
        heap := heap[e.sn := Block(ChangesBlock(d.turn, d.patch), 0, None)];
        blocks := blocks[..at] + [e.sn] + blocks[at..];
      }
    }

    method PushPlan(e: Event)
      requires e.body.Plan?
      modifies this`heap, this`blocks, this`cur, this`plan
      ensures State() == S.PushPlan(old(State()), e)
    {
      cur := None;
      if plan.None? {
        New(e.sn, PlanBlock(""), None);
        plan := Some(e.sn);
      }
      if Read(plan).Some? {
        Set(plan.value, PlanBlock(e.body.entries));
        Bump(plan.value);
      }
    }

    method Answer(k: Option<Key>, answer: string)
      modifies this`heap
      ensures State() == Answered(old(State()), k, answer)
    {
      var c := Read(k);
      if c.Some? && c.value.AskBlock? {
        Set(k.value, c.value.(answer := Some(answer)));
        Bump(k.value);
      }
    }

    method NewAsk(k: Key, id: string, ask: string)
      modifies this`heap, this`blocks, this`cur
      ensures State() == Open(old(State()).(cur := None), k, AskBlock(id, ask, None), None)
    {
      cur := None;
      New(k, AskBlock(id, ask, None), None);
    }

    method Push(e: Event)
      modifies this
      ensures State() == S.Push(old(State()), e)
    {
      if e.sn > lastSeq { lastSeq := e.sn; }
      if !LeavesThought(e.body) { Finish(cur, e.ts); }
      Dispatch(e);
    }

    method Dispatch(e: Event)
      modifies this
      ensures State() == Route(old(State()), e)
    {
      match e.body {
        case Message(_, _, _, parent, _, _) => PushText(e, parent);
        case Thought(_, parent) => PushText(e, parent);
        case Tool(_, _, _, _, _, _) => PushTool(e);
        case FilesChanged(_, _, _) => PushFiles(e);
        case Plan(_) => PushPlan(e);
        case PermissionRequest(pid, ask) =>
          NewAsk(e.sn, pid, ask);
          perms := perms[pid := e.sn];
        case ElicitationRequest(eid, ask) =>
          NewAsk(e.sn, eid, ask);
          asks := asks[eid := e.sn];
        case PermissionResolved(pid, answer) => Answer(Find(perms, pid), answer);
        case ElicitationResolved(eid, answer) => Answer(Find(asks, eid), answer);
        case TurnEnd(ended, stop) =>
          cur, plan := None, None;
          turn := NextTurn(turn, ended);
          New(e.sn, TurnBlock(ended, stop), None);
        case Notice(text) => New(e.sn, NoticeBlock(text), None);
        case Status(_) =>
        case Queue(_) =>
      }
    }

    /** A log folded event by event. */
    method PushAll(events: seq<Event>)
      modifies this
      ensures State() == FoldFrom(old(State()), events)
    {
      ghost var was := State();
      for i := 0 to |events|
        invariant State() == FoldFrom(was, events[..i])
      {
        assert events[..i + 1][..i] == events[..i];
        Push(events[i]);
      }
      assert events[..|events|] == events;
    }
  }
}
