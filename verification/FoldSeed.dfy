/** What the turn number a page is seeded with may do to its fold: nothing, exactly when it makes no two turns of the
    page look like one to a tool id that both use. */
module FoldSeed {
  import opened Options
  import opened FoldSpec
  import opened FoldSim
  import opened FoldSplit
  import opened Pages

  // ---- calls and turns ----

  predicate IsCall(e: Event, id: string) { e.body.Tool? && e.body.id == id }

  /** The tool id an event looks up under the current turn. */
  function CallId(e: Event): Option<string> {
    match e.body
    case Tool(id, _, _, _, _, _) => Some(id)
    case FilesChanged(id, _, _) => if id != "" then Some(id) else None
    case _ => None
  }

  /** A call of an earlier turn is filed under the number the counter is back at. */
  predicate Stale(turn: int, b: seq<Event>, id: string) {
    exists i, k :: 0 <= i < k < |b| && IsCall(b[i], id) && b[k].body.TurnEnd?
      && TurnAfter(turn, b[..i]) == TurnAfter(turn, b)
  }

  /** No event that looks up a tool id finds a call of an earlier turn: a condition on the turn number and the
      events. */
  predicate NoClash(turn: int, b: seq<Event>) {
    forall j :: 0 <= j < |b| && CallId(b[j]).Some? ==> !Stale(turn, b[..j], CallId(b[j]).value)
  }

  /** The call a (turn, id) pair is filed for, folding from the given turn. */
  function FiledUnder(turn: int, b: seq<Event>, t: int, id: string): Option<Key> {
    if b == [] then None
    else
      var front, e := b[..|b| - 1], b[|b| - 1];
      var r := FiledUnder(turn, front, t, id);
      if r.Some? then r else if IsCall(e, id) && TurnAfter(turn, front) == t then Some(e.sn) else None
  }

  /** The first call of an id since the last turn ended. */
  function Since(b: seq<Event>, id: string): Option<Key> {
    if b == [] then None
    else
      var front, e := b[..|b| - 1], b[|b| - 1];
      if e.body.TurnEnd? then None
      else
        var r := Since(front, id);
        if r.Some? then r else if IsCall(e, id) then Some(e.sn) else None
  }

  lemma {:induction false} FiledIsCall(turn: int, b: seq<Event>, t: int, id: string)
    ensures FiledUnder(turn, b, t, id).Some? <==> exists i ::
      0 <= i < |b| && IsCall(b[i], id) && TurnAfter(turn, b[..i]) == t
  {
    if b != [] {
      var n := |b| - 1;
      FiledIsCall(turn, b[..n], t, id);
      assert forall i :: 0 <= i < n ==> b[..n][..i] == b[..i];
      if i :| 0 <= i < |b| && IsCall(b[i], id) && TurnAfter(turn, b[..i]) == t {
        if i < n { assert IsCall(b[..n][i], id) && TurnAfter(turn, b[..n][..i]) == t; }
      }
      if FiledUnder(turn, b[..n], t, id).Some? {
        var i :| 0 <= i < n && IsCall(b[..n][i], id) && TurnAfter(turn, b[..n][..i]) == t;
        assert IsCall(b[i], id) && TurnAfter(turn, b[..i]) == t;
      }
    }
  }

  lemma StaleLater(turn: int, b: seq<Event>, n: nat, id: string)
    requires n <= |b| && Stale(turn, b[..n], id) && TurnAfter(turn, b[..n]) == TurnAfter(turn, b)
    ensures Stale(turn, b, id)
  {
    var i, k :| 0 <= i < k < n && IsCall(b[..n][i], id) && b[..n][k].body.TurnEnd? &&
      TurnAfter(turn, b[..n][..i]) == TurnAfter(turn, b[..n]);
    assert b[..n][..i] == b[..i];
    assert IsCall(b[i], id) && b[k].body.TurnEnd? && TurnAfter(turn, b[..i]) == TurnAfter(turn, b);
  }

  lemma FiledBeforeEnd(turn: int, b: seq<Event>, id: string)
    requires b != [] && b[|b| - 1].body.TurnEnd?
    ensures FiledUnder(turn, b[..|b| - 1], TurnAfter(turn, b), id).Some? ==> Stale(turn, b, id)
  {
    var n := |b| - 1;
    FiledIsCall(turn, b[..n], TurnAfter(turn, b), id);
    assert forall i :: 0 <= i < n ==> b[..n][..i] == b[..i];
    if FiledUnder(turn, b[..n], TurnAfter(turn, b), id).Some? {
      var i :| 0 <= i < n && IsCall(b[..n][i], id) && TurnAfter(turn, b[..n][..i]) == TurnAfter(turn, b);
      assert IsCall(b[i], id) && b[n].body.TurnEnd? && TurnAfter(turn, b[..i]) == TurnAfter(turn, b);
    }
  }

  /** Unless it is stale, what is filed under the current turn is this turn's. */
  lemma {:induction false} NotStaleIsSince(turn: int, b: seq<Event>, id: string)
    requires !Stale(turn, b, id)
    ensures FiledUnder(turn, b, TurnAfter(turn, b), id) == Since(b, id)
  {
    if b != [] {
      var n := |b| - 1;
      if b[n].body.TurnEnd? {
        FiledBeforeEnd(turn, b, id);
      } else {
        if Stale(turn, b[..n], id) { StaleLater(turn, b, n, id); }
        NotStaleIsSince(turn, b[..n], id);
      }
    }
  }

  /** A stale call is found. */
  lemma StaleIsFiled(turn: int, b: seq<Event>, id: string)
    requires Stale(turn, b, id)
    ensures FiledUnder(turn, b, TurnAfter(turn, b), id).Some?
  {
    FiledIsCall(turn, b, TurnAfter(turn, b), id);
  }

  // ---- rising turns never clash ----

  lemma {:induction false} CounterRises(turn: int, b: seq<Event>, i: nat)
    requires TurnsRise(turn, b) && i <= |b|
    ensures TurnAfter(turn, b[..i]) <= TurnAfter(turn, b)
    ensures (exists k :: i <= k < |b| && b[k].body.TurnEnd?) ==> TurnAfter(turn, b[..i]) < TurnAfter(turn, b)
  {
    if i == |b| {
      assert b[..i] == b;
    } else {
      var n := |b| - 1;
      PrefixRises(turn, b, n);
      CounterRises(turn, b[..n], i);
      assert b[..n][..i] == b[..i];
      if k :| i <= k < |b| && b[k].body.TurnEnd? {
        if k < n { assert b[..n][k].body.TurnEnd?; }
      }
    }
  }

  lemma RisingHasNoClash(turn: int, b: seq<Event>)
    requires TurnsRise(turn, b)
    ensures NoClash(turn, b)
  {
    forall j, id: string | 0 <= j < |b| ensures !Stale(turn, b[..j], id) {
      var c := b[..j];
      PrefixRises(turn, b, j);
      if Stale(turn, c, id) {
        var i, k :| 0 <= i < k < |c| && IsCall(c[i], id) && c[k].body.TurnEnd?
          && TurnAfter(turn, c[..i]) == TurnAfter(turn, c);
        CounterRises(turn, c, i);
      }
    }
  }

  // ---- the same events from two turn numbers ----

  /** Two folds that differ in their turn numbers only. */
  predicate Renumbered(f: Fold, g: Fold) { g == f.(turn := g.turn, tools := g.tools) }

  lemma {:induction false} DoneAllRenumbered(f: Fold, g: Fold, ks: seq<Key>)
    requires Renumbered(f, g)
    ensures DoneAll(g, ks) == DoneAll(f, ks).(turn := g.turn, tools := g.tools)
  {
    if ks != [] { DoneAllRenumbered(f, g, ks[..|ks| - 1]); }
  }

  lemma MergeRenumbered(f: Fold, g: Fold, t: Key, d: Body)
    requires Renumbered(f, g) && d.Tool?
    ensures FoldTool(g, t, d) == FoldTool(f, t, d).(turn := g.turn, tools := g.tools)
  {
    if t in f.heap && f.heap[t].c.ToolBlock? {
      var c := Merged(f.heap[t].c, d);
      var f1, g1 := Change(f, t, c).(byId := f.byId[d.id := t]), Change(g, t, c).(byId := g.byId[d.id := t]);
      DoneAllRenumbered(f1, g1, if c.children.Some? then c.children.value else []);
    }
  }

  lemma ToolRenumbered(f: Fold, g: Fold, e: Event)
    requires Renumbered(f, g) && e.body.Tool? && ToolAt(f, e.body.id) == ToolAt(g, e.body.id)
    ensures Renumbered(PushTool(f, e), PushTool(g, e))
    ensures PushTool(f, e).turn == f.turn && PushTool(f, e).tools == FiledTools(f, e)
    ensures PushTool(f, e).heap.Keys == f.heap.Keys + (if ToolAt(f, e.body.id).None? then {e.sn} else {})
  {
    var d := e.body;
    var known, into := ToolAt(f, d.id), ToolBox(f, d.id, d.parent);
    assert ToolBox(g, d.id, d.parent) == into;
    var f1 := SetCur(if into.Some? then Done(f, Cur(f, into), 0) else f, into, None);
    var g1 := SetCur(if into.Some? then Done(g, Cur(g, into), 0) else g, into, None);
    DoneSame(f, Cur(f, into), 0);
    EndedRenumbered(f, g, into);
    OpenShape(f1, e.sn, NewTool(d.id, e.ts), into);
    OpenRenumbered(f1, g1, e.sn, NewTool(d.id, e.ts), into);
    var f2 := if known.Some? then f1
              else Open(f1, e.sn, NewTool(d.id, e.ts), into).(tools := f1.tools[(f1.turn, d.id) := e.sn]);
    var g2 := if known.Some? then g1
              else Open(g1, e.sn, NewTool(d.id, e.ts), into).(tools := g1.tools[(g1.turn, d.id) := e.sn]);
    var t := if known.Some? then known.value else e.sn;
    hide Open, SetCur, Done, FoldTool;
    assert Renumbered(f2, g2);
    MergeRenumbered(f2, g2, t, d);
    MergeSame(f2, t, d);
    FoldToolShape(f2, t, d);
  }

  /** The calls filed after an event. */
  function FiledTools(f: Fold, e: Event): map<(int, string), Key> {
    if e.body.Tool? && ToolAt(f, e.body.id).None? then f.tools[(f.turn, e.body.id) := e.sn] else f.tools
  }

  lemma DoneRenumbered(f: Fold, g: Fold, k: Option<Key>, ts: nat)
    requires Renumbered(f, g)
    ensures Done(g, k, ts) == Done(f, k, ts).(turn := g.turn, tools := g.tools)
    ensures Done(f, k, ts) == f.(heap := Done(f, k, ts).heap) && Done(f, k, ts).heap.Keys == f.heap.Keys
  {
    DoneSame(f, k, ts);
  }

  lemma SetCurRenumbered(f: Fold, g: Fold, into: Option<Key>, k: Option<Key>)
    requires Renumbered(f, g)
    ensures var f' := SetCur(f, into, k);
      && SetCur(g, into, k) == f'.(turn := g.turn, tools := g.tools)
      && f' == f.(heap := f'.heap, cur := f'.cur) && f'.heap.Keys == f.heap.Keys
  {
    assert At(g, into) == At(f, into);
    if At(f, into).Some? && At(f, into).value.ToolBlock? {
      var c := f.heap[into.value].c.(cur := k);
      assert SetCur(f, into, k) == Change(f, into.value, c) && SetCur(g, into, k) == Change(g, into.value, c);
    } else {
      assert SetCur(f, into, k) == f.(cur := k) && SetCur(g, into, k) == g.(cur := k);
    }
  }

  lemma EndedRenumbered(f: Fold, g: Fold, into: Option<Key>)
    requires Renumbered(f, g)
    ensures var f1, g1 :=
        SetCur(if into.Some? then Done(f, Cur(f, into), 0) else f, into, None),
        SetCur(if into.Some? then Done(g, Cur(g, into), 0) else g, into, None);
      && g1 == f1.(turn := g.turn, tools := g.tools) && f1.turn == f.turn && f1.tools == f.tools
      && f1.heap.Keys == f.heap.Keys
  {
    assert Cur(g, into) == Cur(f, into);
    DoneRenumbered(f, g, Cur(f, into), 0);
    hide Done, SetCur;
    var f0 := if into.Some? then Done(f, Cur(f, into), 0) else f;
    var g0 := if into.Some? then Done(g, Cur(g, into), 0) else g;
    SetCurRenumbered(f0, g0, into, None);
  }

  lemma OpenRenumbered(f: Fold, g: Fold, k: Key, c: Content, into: Option<Key>)
    requires Renumbered(f, g)
    ensures Open(g, k, c, into) == Open(f, k, c, into).(turn := g.turn, tools := g.tools)
    ensures Open(f, k, c, into).turn == f.turn && Open(f, k, c, into).tools == f.tools
  {
    OpenKeeps(f, k, c, into);
  }

  lemma TextRenumbered(f: Fold, g: Fold, e: Event, parent: string)
    requires Renumbered(f, g) && (e.body.Message? || e.body.Thought?)
    ensures PushText(g, e, parent) == PushText(f, e, parent).(turn := g.turn, tools := g.tools)
    ensures PushText(f, e, parent).turn == f.turn && PushText(f, e, parent).tools == f.tools
  {
    var into := Box(f, parent);
    var c := Cur(f, into);
    assert Box(g, parent) == into && Cur(g, into) == c;
    DoneRenumbered(f, g, c, e.ts);
    hide Done;
    var f1, g1 := if e.body.Message? then Done(f, c, e.ts) else f, if e.body.Message? then Done(g, c, e.ts) else g;
    NextTextRenumbered(f1, g1, e, c, into);
  }

  lemma NextTextRenumbered(f: Fold, g: Fold, e: Event, c: Option<Key>, into: Option<Key>)
    requires Renumbered(f, g) && (e.body.Message? || e.body.Thought?)
    ensures var b := if e.body.Thought? then ThoughtBlock(e.body.text, e.ts, e.ts, false)
                     else MsgBlock(e.body.role, e.body.mid, e.body.text, e.body.files, e.body.steered);
      var f', g' :=
        (if Continues(At(f, c), e.body)
          then SetCur(Bumped(Change(f, c.value, Continued(f.heap[c.value].c, e)), c.value), into, c)
         else SetCur(Open(f, e.sn, b, into), into, Some(e.sn))),
        (if Continues(At(g, c), e.body)
          then SetCur(Bumped(Change(g, c.value, Continued(g.heap[c.value].c, e)), c.value), into, c)
         else SetCur(Open(g, e.sn, b, into), into, Some(e.sn)));
      g' == f'.(turn := g.turn, tools := g.tools) && f'.turn == f.turn && f'.tools == f.tools
  {
    assert At(g, c) == At(f, c);
    if Continues(At(f, c), e.body) {
      var f1 := Bumped(Change(f, c.value, Continued(f.heap[c.value].c, e)), c.value);
      var g1 := Bumped(Change(g, c.value, Continued(g.heap[c.value].c, e)), c.value);
      assert g1 == f1.(turn := g.turn, tools := g.tools) && f1.turn == f.turn && f1.tools == f.tools;
      hide SetCur;
      SetCurRenumbered(f1, g1, into, c);
    } else {
      var b := if e.body.Thought? then ThoughtBlock(e.body.text, e.ts, e.ts, false)
               else MsgBlock(e.body.role, e.body.mid, e.body.text, e.body.files, e.body.steered);
      OpenRenumbered(f, g, e.sn, b, into);
      hide SetCur, Open;
      SetCurRenumbered(Open(f, e.sn, b, into), Open(g, e.sn, b, into), into, Some(e.sn));
    }
  }

  lemma FilesRenumbered(f: Fold, g: Fold, e: Event)
    requires Renumbered(f, g) && e.body.FilesChanged?
    requires e.body.toolCallId != "" ==> ToolAt(f, e.body.toolCallId) == ToolAt(g, e.body.toolCallId)
    ensures Renumbered(PushFiles(f, e), PushFiles(g, e)) && PushFiles(f, e).tools == f.tools
  {
    if e.body.toolCallId != "" { assert ChangedTool(g, e.body.toolCallId) == ChangedTool(f, e.body.toolCallId); }
  }

  lemma PlanRenumbered(f: Fold, g: Fold, e: Event)
    requires Renumbered(f, g) && e.body.Plan?
    ensures Renumbered(PushPlan(f, e), PushPlan(g, e)) && PushPlan(f, e).tools == f.tools
  {
    var f1, g1 := f.(cur := None), g.(cur := None);
    OpenRenumbered(f1, g1, e.sn, PlanBlock(""), None);
    var f2 := if f.plan.Some? then f1 else Open(f1, e.sn, PlanBlock(""), None).(plan := Some(e.sn));
    var g2 := if g.plan.Some? then g1 else Open(g1, e.sn, PlanBlock(""), None).(plan := Some(e.sn));
    hide Open;
    assert Renumbered(f2, g2) && f2.tools == f.tools && At(f2, f2.plan) == At(g2, g2.plan);
  }

  lemma AskRenumbered(f: Fold, g: Fold, e: Event)
    requires Renumbered(f, g) && (e.body.PermissionRequest? || e.body.ElicitationRequest?)
    ensures Renumbered(Route(f, e), Route(g, e)) && Route(f, e).tools == f.tools
  {
    hide Open;
    match e.body {
      case PermissionRequest(pid, ask) =>
        var p := f.perms[pid := e.sn];
        OpenRenumbered(f.(cur := None, perms := p), g.(cur := None, perms := p), e.sn, AskBlock(pid, ask, None), None);
      case ElicitationRequest(eid, ask) =>
        var q := f.asks[eid := e.sn];
        OpenRenumbered(f.(cur := None, asks := q), g.(cur := None, asks := q), e.sn, AskBlock(eid, ask, None), None);
    }
  }

  lemma AnswerRenumbered(f: Fold, g: Fold, e: Event)
    requires Renumbered(f, g) && (e.body.PermissionResolved? || e.body.ElicitationResolved?)
    ensures Renumbered(Route(f, e), Route(g, e)) && Route(f, e).tools == f.tools
  {
  }

  lemma TurnRenumbered(f: Fold, g: Fold, e: Event)
    requires Renumbered(f, g) && e.body.TurnEnd?
    ensures Renumbered(Route(f, e), Route(g, e)) && Route(f, e).tools == f.tools
  {
    hide Open;
    var ended, c := e.body.turn, TurnBlock(e.body.turn, e.body.stop);
    OpenRenumbered(f.(cur := None, plan := None, turn := NextTurn(f.turn, ended)),
                   g.(cur := None, plan := None, turn := NextTurn(g.turn, ended)), e.sn, c, None);
  }

  lemma RouteRenumbered(f: Fold, g: Fold, e: Event)
    requires Renumbered(f, g) && (CallId(e).Some? ==> ToolAt(f, CallId(e).value) == ToolAt(g, CallId(e).value))
    ensures Renumbered(Route(f, e), Route(g, e)) && Route(f, e).tools == FiledTools(f, e)
  {
    hide PushTool, PushText, PushFiles, PushPlan, Open, Answered;
    match e.body {
      case Message(_, _, _, parent, _, _) => TextRenumbered(f, g, e, parent);
      case Thought(_, parent) => TextRenumbered(f, g, e, parent);
      case Tool(_, _, _, _, _, _) => ToolRenumbered(f, g, e);
      case FilesChanged(_, _, _) => FilesRenumbered(f, g, e);
      case Plan(_) => PlanRenumbered(f, g, e);
      case PermissionRequest(_, _) => AskRenumbered(f, g, e);
      case ElicitationRequest(_, _) => AskRenumbered(f, g, e);
      case PermissionResolved(_, _) => AnswerRenumbered(f, g, e);
      case ElicitationResolved(_, _) => AnswerRenumbered(f, g, e);
      case TurnEnd(_, _) => TurnRenumbered(f, g, e);
      case Notice(text) => OpenRenumbered(f, g, e.sn, NoticeBlock(text), None);
      case _ =>
    }
  }

  /** An event does the same to two folds that differ in their turn numbers, if what it looks up by turn is the same. */
  lemma PushRenumbered(f: Fold, g: Fold, e: Event)
    requires Renumbered(f, g) && (CallId(e).Some? ==> ToolAt(f, CallId(e).value) == ToolAt(g, CallId(e).value))
    ensures Renumbered(Push(f, e), Push(g, e)) && Push(f, e).tools == FiledTools(f, e)
  {
    var n := if e.sn > f.lastSeq then e.sn else f.lastSeq;
    var f0, g0 := f.(lastSeq := n), g.(lastSeq := n);
    DoneRenumbered(f0, g0, f0.cur, e.ts);
    hide Done, Route;
    var f1 := if LeavesThought(e.body) then f0 else Done(f0, f0.cur, e.ts);
    var g1 := if LeavesThought(e.body) then g0 else Done(g0, g0.cur, e.ts);
    assert g1 == f1.(turn := g.turn, tools := g.tools) && f1.turn == f.turn && f1.tools == f.tools;
    RouteRenumbered(f1, g1, e);
  }

  function From(turn: int): Fold { EMPTY.(turn := turn) }

  lemma FindAdded<K>(m: map<K, Key>, k: K, v: Key, x: K)
    ensures Find(m[k := v], x) == if x == k then Some(v) else Find(m, x)
  {
  }

  /** A fold's calls are those filed under its turn numbers. */
  lemma {:induction false} ToolsAreFiled(turn: int, b: seq<Event>, t: int, id: string)
    ensures Find(FoldFrom(From(turn), b).tools, (t, id)) == FiledUnder(turn, b, t, id)
  {
    if b != [] {
      var front, e := b[..|b| - 1], b[|b| - 1];
      ToolsAreFiled(turn, front, t, id);
      var f := FoldFrom(From(turn), front);
      FoldTurn(From(turn), front);
      hide FoldFrom, Push;
      PushRenumbered(f, f, e);
      if e.body.Tool? {
        ToolsAreFiled(turn, front, TurnAfter(turn, front), e.body.id);
        FindAdded(f.tools, (f.turn, e.body.id), e.sn, (t, id));
      }
      FoldStep(From(turn), b);
    }
  }

  lemma FoldStep(f: Fold, b: seq<Event>)
    requires b != []
    ensures FoldFrom(f, b) == Push(FoldFrom(f, b[..|b| - 1]), b[|b| - 1])
  {
    hide Push;
  }

  lemma NoClashFront(turn: int, b: seq<Event>, n: nat)
    requires NoClash(turn, b) && n <= |b|
    ensures NoClash(turn, b[..n])
  {
    forall j | 0 <= j < n ensures b[..n][..j] == b[..j] && b[..n][j] == b[j] {}
  }

  /** Without a clash in either, the turn number shows in nothing but the turn numbers. */
  lemma {:induction false} SeedsAlike(s: int, t: int, b: seq<Event>)
    requires NoClash(s, b) && NoClash(t, b)
    ensures Renumbered(FoldFrom(From(s), b), FoldFrom(From(t), b))
  {
    if b != [] {
      var n := |b| - 1;
      var front, e := b[..n], b[n];
      NoClashFront(s, b, n);
      NoClashFront(t, b, n);
      SeedsAlike(s, t, front);
      FoldTurn(From(s), front);
      FoldTurn(From(t), front);
      FoldStep(From(s), b);
      FoldStep(From(t), b);
      hide FoldFrom, Push;
      if CallId(e).Some? {
        var id := CallId(e).value;
        NotStaleIsSince(s, front, id);
        NotStaleIsSince(t, front, id);
        ToolsAreFiled(s, front, TurnAfter(s, front), id);
        ToolsAreFiled(t, front, TurnAfter(t, front), id);
      }
      PushRenumbered(FoldFrom(From(s), front), FoldFrom(From(t), front), e);
    }
  }

  // ---- splitting ----

  predicate Distinct(b: seq<Event>) { forall i, j :: 0 <= i < j < |b| ==> b[i].sn != b[j].sn }

  /** No event of these patches a call by its id. */
  predicate NoFilesById(b: seq<Event>) {
    forall i :: 0 <= i < |b| && b[i].body.FilesChanged? ==> b[i].body.toolCallId == ""
  }

  /** The whole log's fold is the fold of its first half and that of its second, seeded, put together. */
  predicate Splits(a: seq<Event>, b: seq<Event>, seed: nat) {
    var whole, first, second := FoldFrom(EMPTY, a + b), FoldFrom(EMPTY, a), FoldFrom(Seeded(seed), b);
    && whole.blocks == first.blocks + second.blocks
    && whole.heap == first.heap + second.heap
    && first.heap.Keys !! second.heap.Keys
  }

  lemma UnseededRises(a: seq<Event>, b: seq<Event>)
    requires TurnsRise(0, a + b)
    ensures TurnsRise(0, b)
  {
    SuffixRises(0, a, b);
    TurnsPositive(0, a);
    LowerStart(0, TurnAfter(0, a), b);
  }

  /** A log splits at a clean cut under any seed that makes no clash. */
  lemma NoClashSplits(a: seq<Event>, b: seq<Event>, lo: Key, seed: nat)
    requires Between(0, lo, a) && forall i :: 0 <= i < |b| ==> b[i].sn >= lo
    requires TurnsRise(0, a + b) && CleanRun(lo, FoldFrom(EMPTY, a), b) && NoClash(Seeded(seed).turn, b)
    ensures Splits(a, b, seed)
  {
    UnseededRises(a, b);
    assert Seeded(0) == EMPTY && Seeded(seed) == From(Seeded(seed).turn) && EMPTY == From(0);
    hide FoldFrom, CleanRun, TurnsRise, NoClash;
    FoldSplits(a, b, lo, 0);
    RisingHasNoClash(0, b);
    SeedsAlike(0, Seeded(seed).turn, b);
  }

  /** A clash is a call that the whole log's fold shows and the piece does not. */
  ghost predicate Lost(turn: int, b: seq<Event>, j: nat) {
    j < |b| && b[j].sn in FoldFrom(From(0), b).heap && b[j].sn !in FoldFrom(From(turn), b).heap
  }

  lemma LostLater(turn: int, b: seq<Event>, j: nat)
    requires b != [] && j < |b| - 1 && Lost(turn, b[..|b| - 1], j) && Distinct(b)
    ensures Lost(turn, b, j)
  {
    var front, e := b[..|b| - 1], b[|b| - 1];
    FoldStep(From(0), b);
    FoldStep(From(turn), b);
    hide FoldFrom, Push;
    PushShape(FoldFrom(From(0), front), e);
    PushShape(FoldFrom(From(turn), front), e);
    assert front[j] == b[j] && b[j].sn != e.sn;
  }

  lemma NewKey(turn: int, b: seq<Event>)
    requires b != [] && Distinct(b)
    ensures b[|b| - 1].sn !in FoldFrom(From(turn), b[..|b| - 1]).heap
  {
    var front := b[..|b| - 1];
    FoldKeys(From(turn), front);
    forall e | e in front ensures e.sn != b[|b| - 1].sn {
      var i :| 0 <= i < |front| && front[i] == e;
      assert b[i] == e;
    }
  }

  lemma CallKeys(f: Fold, e: Event)
    requires e.body.Tool?
    ensures Push(f, e).heap.Keys == f.heap.Keys + (if ToolAt(f, e.body.id).None? then {e.sn} else {})
  {
    var f0 := f.(lastSeq := if e.sn > f.lastSeq then e.sn else f.lastSeq);
    DoneSame(f0, f0.cur, e.ts);
    hide Done;
    var f1 := Done(f0, f0.cur, e.ts);
    ToolRenumbered(f1, f1, e);
  }

  /** The first call that clashes is lost. */
  lemma FirstClashIsLost(turn: int, b: seq<Event>)
    requires b != [] && Distinct(b) && TurnsRise(0, b) && NoClash(turn, b[..|b| - 1])
    requires b[|b| - 1].body.Tool? && Stale(turn, b[..|b| - 1], b[|b| - 1].body.id)
    ensures Lost(turn, b, |b| - 1)
  {
    var front, e := b[..|b| - 1], b[|b| - 1];
    var id := e.body.id;
    PrefixRises(0, b, |b| - 1);
    RisingHasNoClash(0, b);
    StaleIsFiled(turn, front, id);
    SinceIsNone(turn, front, id);
    assert !Stale(0, front, id) by { assert CallId(b[|b| - 1]) == Some(id) && b[..|b| - 1] == front; }
    NotStaleIsSince(0, front, id);
    FoldTurn(From(0), front);
    FoldTurn(From(turn), front);
    FoldStep(From(0), b);
    FoldStep(From(turn), b);
    hide FoldFrom, Push, Stale, NoClash;
    ToolsAreFiled(0, front, TurnAfter(0, front), id);
    ToolsAreFiled(turn, front, TurnAfter(turn, front), id);
    CallKeys(FoldFrom(From(0), front), e);
    CallKeys(FoldFrom(From(turn), front), e);
    NewKey(turn, b);
  }

  /** With no clash so far, an id with a stale call has none in the current turn. */
  lemma {:induction false} SinceIsNone(turn: int, b: seq<Event>, id: string)
    requires NoClash(turn, b) && Stale(turn, b, id)
    ensures Since(b, id).None?
  {
    if b != [] && !b[|b| - 1].body.TurnEnd? {
      var n := |b| - 1;
      var i, k :| 0 <= i < k < |b| && IsCall(b[i], id) && b[k].body.TurnEnd?
        && TurnAfter(turn, b[..i]) == TurnAfter(turn, b);
      assert b[..n][..i] == b[..i] && IsCall(b[..n][i], id) && b[..n][k].body.TurnEnd?;
      assert Stale(turn, b[..n], id);
      NoClashFront(turn, b, n);
      SinceIsNone(turn, b[..n], id);
      assert CallId(b[n]).Some? ==> !Stale(turn, b[..n], CallId(b[n]).value);
    }
  }

  lemma {:induction false} ClashLosesACall(turn: int, b: seq<Event>) returns (j: nat)
    requires Distinct(b) && NoFilesById(b) && TurnsRise(0, b) && !NoClash(turn, b)
    ensures Lost(turn, b, j)
  {
    var n := |b| - 1;
    PrefixRises(0, b, n);
    if !NoClash(turn, b[..n]) {
      j := ClashLosesACall(turn, b[..n]);
      LostLater(turn, b, j);
    } else {
      LastClashes(turn, b);
      FirstClashIsLost(turn, b);
      j := n;
    }
  }

  lemma LastClashes(turn: int, b: seq<Event>)
    requires b != [] && !NoClash(turn, b) && NoClash(turn, b[..|b| - 1]) && NoFilesById(b)
    ensures b[|b| - 1].body.Tool? && Stale(turn, b[..|b| - 1], b[|b| - 1].body.id)
  {
    var n := |b| - 1;
    assert forall j :: 0 <= j < n ==> b[..n][..j] == b[..j] && b[..n][j] == b[j];
    var j :| 0 <= j < |b| && CallId(b[j]).Some? && Stale(turn, b[..j], CallId(b[j]).value);
    assert j == n;
  }

  /** The exact condition: where no event patches a call by its id, a log splits at a clean cut under a seed if and only
      if the seed makes no clash, that is, if no two calls of one id with the end of a turn between them get the same
      turn counter from it. */
  lemma SplitsExactlyWithoutClash(a: seq<Event>, b: seq<Event>, lo: Key, seed: nat)
    requires Between(0, lo, a) && forall i :: 0 <= i < |b| ==> b[i].sn >= lo
    requires TurnsRise(0, a + b) && CleanRun(lo, FoldFrom(EMPTY, a), b) && Distinct(b) && NoFilesById(b)
    ensures Splits(a, b, seed) <==> NoClash(Seeded(seed).turn, b)
  {
    if NoClash(Seeded(seed).turn, b) {
      NoClashSplits(a, b, lo, seed);
    } else {
      UnseededRises(a, b);
      var j := ClashLosesACall(Seeded(seed).turn, b);
      assert Seeded(0) == EMPTY && Seeded(seed) == From(Seeded(seed).turn) && EMPTY == From(0);
      FoldSplits(a, b, lo, 0);
      OldKeys(a, lo);
      hide FoldFrom, NoClash, CleanRun, TurnsRise;
      assert b[j].sn in FoldFrom(EMPTY, a + b).heap;
    }
  }

  lemma OldKeys(a: seq<Event>, lo: Key)
    requires Between(0, lo, a)
    ensures forall k :: k in FoldFrom(EMPTY, a).heap ==> k < lo
  {
    FoldKeys(EMPTY, a);
    forall e | e in a ensures e.sn < lo { var i :| 0 <= i < |a| && a[i] == e; }
  }

  /** The pairs of the condition: the calls of the first and the last event of a clash. */
  lemma ClashIsAPair(turn: int, b: seq<Event>)
    requires NoFilesById(b)
    ensures NoClash(turn, b) <==> forall i, j, k, id ::
      0 <= i < k < j < |b| && IsCall(b[i], id) && IsCall(b[j], id) && b[k].body.TurnEnd? ==>
        TurnAfter(turn, b[..i]) != TurnAfter(turn, b[..j])
  {
    forall j, id: string | 0 <= j < |b|
      ensures Stale(turn, b[..j], id) <==> exists i, k ::
        0 <= i < k < j && IsCall(b[i], id) && b[k].body.TurnEnd? && TurnAfter(turn, b[..i]) == TurnAfter(turn, b[..j])
    {
      StaleIn(turn, b, j, id);
    }
  }

  lemma StaleIn(turn: int, b: seq<Event>, j: nat, id: string)
    requires j <= |b|
    ensures Stale(turn, b[..j], id) <==> exists i, k ::
      0 <= i < k < j && IsCall(b[i], id) && b[k].body.TurnEnd? && TurnAfter(turn, b[..i]) == TurnAfter(turn, b[..j])
  {
    assert forall i :: 0 <= i < j ==> b[..j][i] == b[i] && b[..j][..i] == b[..i];
  }

  // ---- what the server sends ----

  /** The number of the last numbered turn that ended (0: none). */
  function LastNumber(a: seq<Event>): nat {
    if a == [] then 0
    else
      var e := a[|a| - 1].body;
      if e.TurnEnd? && e.turn.Some? && e.turn.value > 0 then e.turn.value else LastNumber(a[..|a| - 1])
  }

  lemma {:induction false} CounterIsPast(a: seq<Event>)
    ensures Seeded(LastNumber(a)).turn <= TurnAfter(0, a)
  {
    if a != [] { CounterIsPast(a[..|a| - 1]); }
  }

  /** The number of the last turn before a page never clashes with the page's turns. */
  lemma HeaderFits(a: seq<Event>, b: seq<Event>)
    requires TurnsRise(0, a + b)
    ensures TurnsRise(Seeded(LastNumber(a)).turn, b) && NoClash(Seeded(LastNumber(a)).turn, b)
  {
    SuffixRises(0, a, b);
    CounterIsPast(a);
    LowerStart(Seeded(LastNumber(a)).turn, TurnAfter(0, a), b);
    RisingHasNoClash(Seeded(LastNumber(a)).turn, b);
  }
}
