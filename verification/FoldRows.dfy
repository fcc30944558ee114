/** Where a fold shows its blocks, read off its log: what each card holds and the rows of the log, in order. */
module FoldRows {
  import opened Options
  import opened FoldSpec
  import opened FoldLog
  import opened FoldEffects
  import opened FoldContents

  // ---- cards ----

  ghost predicate Holds(h: map<Key, Block>, turn: int, log: seq<Event>, n: nat, call: Call)
    requires n <= |log|
  {
    var k := CallKey(turn, log, n, Some(call));
    k.Some? && k.value in h && h[k.value].c.ToolBlock? && h[k.value].c.children.Some? ==>
      h[k.value].c.children.value == Inside(turn, log, n, call)
  }

  ghost predicate Kids(h: map<Key, Block>, turn: int, log: seq<Event>, n: nat)
    requires n <= |log|
  {
    forall call :: Holds(h, turn, log, n, call)
  }

  ghost predicate KidsKept(h: map<Key, Block>, h': map<Key, Block>) {
    forall k :: k in h && h[k].c.ToolBlock? ==> k in h' && h'[k].c.ToolBlock? && h'[k].c.children == h[k].c.children
  }

  /** Nothing is opened in a call before some event says it is a subagent's. */
  lemma {:induction false} NothingInside(turn: int, log: seq<Event>, n: nat, call: Call)
    requires n <= |log| && !Card(turn, log, n, call)
    ensures Inside(turn, log, n, call) == []
  {
    if n > 0 { NothingInside(turn, log, n - 1, call); }
  }

  lemma KeepKids(h: map<Key, Block>, h': map<Key, Block>, turn: int, log: seq<Event>, n: nat)
    requires n < |log| && Calls(h, turn, log, n) && Kids(h, turn, log, n) && KidsKept(h, h') && !log[n].body.Tool?
    requires !Opens(turn, log, n) || LaneOf(turn, log, n).None?
    ensures Kids(h', turn, log, n + 1)
  {
    hide CallIs, CallKey, First, LaneOf, Opens;
    var m := n + 1;
    forall call ensures Holds(h', turn, log, m, call) {
      assert Holds(h, turn, log, n, call);
      CallThere(h, turn, log, n, call);
      CallStays(turn, log, n, call);
    }
  }

  /** A text opens in a card. */
  lemma TextKids(h: map<Key, Block>, turn: int, log: seq<Event>, n: nat, c: Content, cur: Option<Key>)
    requires n < |log| && Distinct(log) && Calls(h, turn, log, n) && Kids(h, turn, log, n) && IsText(log[n].body)
    requires Opens(turn, log, n) && LaneOf(turn, log, n).Some? && log[n].sn !in h
    requires var into := CallKey(turn, log, n, LaneOf(turn, log, n)); into.Some? && IsCard(h, into.value)
    ensures Kids(Nest(h, log[n].sn, c, CallKey(turn, log, n, LaneOf(turn, log, n)), cur), turn, log, n + 1)
  {
    hide CallIs, CallKey, First, LaneOf, Opens;
    var lane, m := LaneOf(turn, log, n), n + 1;
    var h' := Nest(h, log[n].sn, c, CallKey(turn, log, n, lane), cur);
    forall call ensures Holds(h', turn, log, m, call) {
      assert Holds(h, turn, log, n, call);
      CallThere(h, turn, log, n, call);
      CallStays(turn, log, n, call);
      if lane != Some(call) { KeysApart(turn, log, n, call, lane.value); }
    }
  }

  lemma ToolKids(h: map<Key, Block>, turn: int, log: seq<Event>, n: nat, known: Option<Key>, into: Option<Key>, t: Key,
                 h': map<Key, Block>)
    requires n < |log| && Distinct(log) && log[n].body.Tool? && log[n].sn !in h
    requires Calls(h, turn, log, n) && Kids(h, turn, log, n)
    requires known == CallKey(turn, log, n, Some((Counter(turn, log, n), log[n].body.id)))
    requires into == CallKey(turn, log, n, LaneOf(turn, log, n)) && (into.Some? ==> IsCard(h, into.value))
    requires t == (if known.Some? then known.value else log[n].sn) && (known.Some? ==> t in h)
    requires var h2 := Called(h, known, log[n], into);
      t in h2 && h2[t].c.ToolBlock? && h' == With(h2, t, Merged(h2[t].c, log[n].body))
    ensures Kids(h', turn, log, n + 1)
  {
    hide CallKey, LaneOf, Counter, Opens, CallIs, Called, With, Merged, First;
    var m, mine := n + 1, (Counter(turn, log, n), log[n].body.id);
    IntoApart(turn, log, n);
    CalledKids(h, known, log[n], into, t);
    OpensCall(turn, log, n);
    forall call ensures Holds(h', turn, log, m, call) {
      assert Holds(h, turn, log, n, call) && CallIs(h, turn, log, n, call);
      ToolCursOf(turn, log, n, call);
      if call == mine {
        MineHolds(h, turn, log, n, known, into, t, h');
      } else {
        CallStays(turn, log, n, call);
        CallThere(h, turn, log, n, call);
        NotMine(turn, log, n, call);
        if LaneOf(turn, log, n).Some? && LaneOf(turn, log, n) != Some(call) {
          KeysApart(turn, log, n, call, LaneOf(turn, log, n).value);
        }
      }
    }
  }

  lemma OpensCall(turn: int, log: seq<Event>, n: nat)
    requires n < |log| && log[n].body.Tool?
    ensures Opens(turn, log, n) <==> CallKey(turn, log, n, Some((Counter(turn, log, n), log[n].body.id))).None?
  {
  }

  lemma NotMine(turn: int, log: seq<Event>, n: nat, call: Call)
    requires n < |log| && Distinct(log) && log[n].body.Tool? && call != (Counter(turn, log, n), log[n].body.id)
    ensures var k, mine := CallKey(turn, log, n, Some(call)), (Counter(turn, log, n), log[n].body.id);
      k.Some? ==> k.value != log[n].sn && k != CallKey(turn, log, n, Some(mine))
  {
    KeysApart(turn, log, n, call, (Counter(turn, log, n), log[n].body.id));
  }

  /** A call opened in a card is the last thing in it; other cards hold what they did. */
  lemma CalledKids(h: map<Key, Block>, known: Option<Key>, e: Event, into: Option<Key>, t: Key)
    requires e.body.Tool? && (into.Some? ==> IsCard(h, into.value)) && (known.None? ==> e.sn !in h)
    requires t == (if known.Some? then known.value else e.sn) && (known.Some? ==> t in h) && into != Some(t)
    ensures var h2 := Called(h, known, e, into);
      && t in h2 && (if known.Some? then h2[t] == h[t] else h2[t].c == NewTool(e.body.id, e.ts))
      && (h2[t].c.ToolBlock? ==>
        var h' := With(h2, t, Merged(h2[t].c, e.body));
        && t in h' && h'[t].c == Merged(h2[t].c, e.body)
        && forall k :: k in h && k != t && h[k].c.ToolBlock? ==>
             && k in h' && h'[k].c.ToolBlock?
             && h'[k].c.children ==
                  if into == Some(k) && known.None? then Some(h[k].c.children.value + [e.sn]) else h[k].c.children)
  {
  }

  lemma MineHolds(h: map<Key, Block>, turn: int, log: seq<Event>, n: nat, known: Option<Key>, into: Option<Key>, t: Key,
                  h': map<Key, Block>)
    requires n < |log| && Distinct(log) && log[n].body.Tool?
    requires var mine := (Counter(turn, log, n), log[n].body.id);
      && known == CallKey(turn, log, n, Some(mine))
      && CallIs(h, turn, log, n, mine) && Holds(h, turn, log, n, mine) && LaneOf(turn, log, n) != Some(mine)
    requires t == (if known.Some? then known.value else log[n].sn) && (known.Some? ==> t in h)
    requires t in h' && exists c: Content ::
      && c.ToolBlock? && h'[t].c == Merged(c, log[n].body)
      && c == if known.Some? then h[t].c else NewTool(log[n].body.id, log[n].ts)
    ensures Holds(h', turn, log, n + 1, (Counter(turn, log, n), log[n].body.id))
  {
    var mine := (Counter(turn, log, n), log[n].body.id);
    if known.None? { NothingYet(turn, log, n, mine); }
    if !Card(turn, log, n, mine) { NothingInside(turn, log, n, mine); }
    var c: Content :| c.ToolBlock? && h'[t].c == Merged(c, log[n].body)
      && c == if known.Some? then h[t].c else NewTool(log[n].body.id, log[n].ts);
    hide Card, LaneOf, Counter, Output, Given, Patch;
    MergedChildren(c, log[n].body);
    if known.Some? { FirstStays(turn, log, n, n + 1, mine); }
  }

  lemma MergedChildren(c: Content, d: Body)
    requires c.ToolBlock? && d.Tool?
    ensures Merged(c, d).children ==
      if c.children.Some? then c.children else if d.subagent then Some([]) else None
  {
  }

  // ---- rows ----

  ghost predicate RowsAre(blocks: seq<Key>, turn: int, log: seq<Event>, n: nat)
    requires n <= |log|
  {
    var rows := Rows(turn, log, n);
    |blocks| == |rows| && forall j :: 0 <= j < |rows| ==> blocks[j] == log[rows[j]].sn
  }

  lemma SameRows(blocks: seq<Key>, turn: int, log: seq<Event>, n: nat)
    requires n < |log| && RowsAre(blocks, turn, log, n) && (!Opens(turn, log, n) || LaneOf(turn, log, n).Some?)
    ensures RowsAre(blocks, turn, log, n + 1)
  {
    hide Opens, LaneOf;
  }

  lemma OneMoreRow(blocks: seq<Key>, turn: int, log: seq<Event>, n: nat)
    requires n < |log| && RowsAre(blocks, turn, log, n) && Opens(turn, log, n) && LaneOf(turn, log, n).None?
    requires !log[n].body.FilesChanged?
    ensures RowsAre(blocks + [log[n].sn], turn, log, n + 1)
  {
    hide Opens, LaneOf;
  }

  /** The rows that are ends of a turn are those the fold finds. */
  lemma RowIsEnd(h: map<Key, Block>, turn: int, log: seq<Event>, n: nat, i: nat, ended: Option<nat>)
    requires i < n <= |log| && Calls(h, turn, log, n) && Texts(h, turn, log, n) && Others(h, log, n)
    requires Opens(turn, log, i)
    ensures var k := log[i].sn;
      k in h && (h[k].c.TurnBlock? && h[k].c.turn == ended <==> Ends(log[i].body, ended))
  {
    if IsText(log[i].body) {
      assert TextIs(h, turn, log, n, i);
    } else if log[i].body.Tool? {
      var call := (Counter(turn, log, i), log[i].body.id);
      assert CallIs(h, turn, log, n, call);
      hide CallIs, Counter;
      assert OfCall(turn, log, i, call);
      assert First(turn, log, i + 1, call) == Some(i);
      FirstStays(turn, log, i + 1, n, call);
      CallThere(h, turn, log, n, call);
    } else {
      assert OtherIs(h, log, n, i);
    }
  }

  lemma {:induction false} SlotIsPlace(heap: map<Key, Block>, blocks: seq<Key>, log: seq<Event>, rows: seq<nat>,
                                       ended: Option<nat>)
    requires |blocks| == |rows| && forall j :: 0 <= j < |rows| ==>
      && rows[j] < |log| && blocks[j] in heap
      && (heap[blocks[j]].c.TurnBlock? && heap[blocks[j]].c.turn == ended <==> Ends(log[rows[j]].body, ended))
    ensures Place(heap, blocks, ended) == Slot(log, rows, ended)
  {
    if rows != [] { SlotIsPlace(heap, blocks[..|rows| - 1], log, rows[..|rows| - 1], ended); }
  }

  lemma ChangesRow(f: Fold, turn: int, log: seq<Event>, n: nat)
    requires n < |log| && Inv(f, turn, log, n) && RowsAre(f.blocks, turn, log, n)
    requires log[n].body.FilesChanged? && log[n].body.toolCallId == ""
    ensures RowsAre(PushFiles(f, log[n]).blocks, turn, log, n + 1)
  {
    var rows, ended := Rows(turn, log, n), log[n].body.turn;
    forall j | 0 <= j < |rows|
      ensures f.blocks[j] in f.heap
        && (f.heap[f.blocks[j]].c.TurnBlock? && f.heap[f.blocks[j]].c.turn == ended <==> Ends(log[rows[j]].body, ended))
    {
      RowIsEnd(Plains(f.heap), turn, log, n, rows[j], ended);
      assert Plains(f.heap)[f.blocks[j]] == Plain(f.heap[f.blocks[j]]);
    }
    SlotIsPlace(f.heap, f.blocks, log, rows, ended);
    Slotted(f, turn, log, n);
  }

  lemma Slotted(f: Fold, turn: int, log: seq<Event>, n: nat)
    requires n < |log| && RowsAre(f.blocks, turn, log, n)
    requires log[n].body.FilesChanged? && log[n].body.toolCallId == ""
    requires Place(f.heap, f.blocks, log[n].body.turn) == Slot(log, Rows(turn, log, n), log[n].body.turn)
    ensures RowsAre(PushFiles(f, log[n]).blocks, turn, log, n + 1)
  {
    hide Place, Slot;
    var rows, at := Rows(turn, log, n), Place(f.heap, f.blocks, log[n].body.turn);
    assert Opens(turn, log, n) && LaneOf(turn, log, n).None?;
    assert Rows(turn, log, n + 1) == rows[..at] + [n] + rows[at..];
    assert PushFiles(f, log[n]).blocks == f.blocks[..at] + [log[n].sn] + f.blocks[at..];
  }

  // ---- events ----

  ghost predicate Placed(f: Fold, turn: int, log: seq<Event>, n: nat)
    requires n <= |log|
  {
    Kids(Plains(f.heap), turn, log, n) && RowsAre(f.blocks, turn, log, n)
  }

  /** What leaves the children of every card alone. */
  lemma EffectKids(h: map<Key, Block>, k: Key, c: Content)
    ensures k !in h ==> KidsKept(h, h[k := Block(c, 0, None)])
    ensures k in h && (!h[k].c.ToolBlock? || (c.ToolBlock? && c.children == h[k].c.children)) ==>
      KidsKept(h, With(h, k, c))
  {
  }

  lemma NothingKids(h: map<Key, Block>)
    ensures KidsKept(h, h)
  {
  }

  lemma TextPlaced(f: Fold, turn: int, log: seq<Event>, n: nat, parent: string)
    requires n < |log| && Distinct(log) && Inv(f, turn, log, n) && Placed(f, turn, log, n)
    requires IsText(log[n].body) && log[n].body.parent == parent
    ensures Placed(PushText(f, log[n], parent), turn, log, n + 1)
  {
    hide PushText, Continues, Box, Cur, Plains, LaneOf, Last, Head, Joins, CallKey, Calls, Curs, Texts, Others, Kids,
      RowsAre, CallsFiled, AsksFiled, KeysFiled, KidsKept, With, Nest, Opens, TextKey;
    var e, h, f' := log[n], Plains(f.heap), PushText(f, log[n], parent);
    var h', lane, into := Plains(f'.heap), LaneOf(turn, log, n), Box(f, parent);
    FreshKey(f, turn, log, n);
    TextResolves(f, turn, log, n, parent);
    TextEffect(f, e, parent);
    TextOpensHere(turn, log, n);
    if Continues(At(f, Cur(f, into)), e.body) {
      GoesOnSomewhere(f, Cur(f, into), e.body);
      var c := Cur(f, into).value;
      EffectKids(h, c, Longer(h[c].c, e.body.text));
      KeepKids(h, h', turn, log, n);
      SameRows(f.blocks, turn, log, n);
    } else if lane.Some? {
      TextKids(h, turn, log, n, TextBlock(e), Some(e.sn));
      SameRows(f.blocks, turn, log, n);
    } else {
      NestTop(h, e.sn, TextBlock(e), Some(e.sn));
      EffectKids(h, e.sn, TextBlock(e));
      KeepKids(h, h', turn, log, n);
      OneMoreRow(f.blocks, turn, log, n);
    }
  }

  lemma GoesOnSomewhere(f: Fold, k: Option<Key>, e: Body)
    requires Continues(At(f, k), e)
    ensures k.Some?
  {
  }

  lemma NestTop(h: map<Key, Block>, k: Key, c: Content, cur: Option<Key>)
    ensures Nest(h, k, c, None, cur) == h[k := Block(c, 0, None)]
  {
  }

  lemma TextOpensHere(turn: int, log: seq<Event>, n: nat)
    requires n < |log| && IsText(log[n].body)
    ensures var i := Last(turn, log, n, LaneOf(turn, log, n));
      Opens(turn, log, n) <==> !(i.Some? && Joins(log[i.value].body, log[n].body))
  {
  }

  lemma ToolPlaced(f: Fold, turn: int, log: seq<Event>, n: nat)
    requires n < |log| && Distinct(log) && Inv(f, turn, log, n) && Placed(f, turn, log, n) && log[n].body.Tool?
    ensures Placed(PushTool(f, log[n]), turn, log, n + 1)
  {
    hide Plains, Plain, PushTool, Calls, Curs, Texts, Others, With, Merged, Called, ToolAt, ToolBox, LaneOf, CallsFiled,
      AsksFiled, KeysFiled, TextKey, CallKey, First, Kids, RowsAre, Opens;
    var e, f' := log[n], PushTool(f, log[n]);
    var h, d, call := Plains(f.heap), log[n].body, (Counter(turn, log, n), log[n].body.id);
    FreshKey(f, turn, log, n);
    BoxIsLane(f, turn, log, n);
    CallThereToo(f, turn, log, n, call);
    ToolEffect(f, e);
    var known, into := ToolAt(f, d.id), ToolBox(f, d.id, d.parent);
    ToolKids(h, turn, log, n, known, into, if known.Some? then known.value else e.sn, Plains(f'.heap));
    OpensCall(turn, log, n);
    LaneKnown(turn, log, n, LaneOf(turn, log, n));
    if known.None? && into.None? { OneMoreRow(f.blocks, turn, log, n); } else { SameRows(f.blocks, turn, log, n); }
  }

  lemma FilesPlaced(f: Fold, turn: int, log: seq<Event>, n: nat)
    requires n < |log| && Distinct(log) && Inv(f, turn, log, n) && Placed(f, turn, log, n) && log[n].body.FilesChanged?
    ensures Placed(PushFiles(f, log[n]), turn, log, n + 1)
  {
    hide Plains, Plain, PushFiles, Calls, Curs, Texts, Others, With, KidsKept, Kids, RowsAre, CallsFiled, AsksFiled,
      KeysFiled, Counter, PlanFirst, TextKey, ChangedTool, First, Latest;
    var e, f' := log[n], PushFiles(f, log[n]);
    var h, h' := Plains(f.heap), Plains(f'.heap);
    FreshKey(f, turn, log, n);
    ChangedThere(f, turn, log, n);
    FilesEffect(f, e);
    var t := ChangedTool(f, e.body.toolCallId);
    if e.body.toolCallId == "" {
      EffectKids(h, e.sn, ChangesBlock(e.body.turn, e.body.patch));
      ChangesRow(f, turn, log, n);
    } else {
      if t.Some? { EffectKids(h, t.value, h[t.value].c.(diff := Some(e.body.patch))); } else { NothingKids(h); }
      SameRows(f.blocks, turn, log, n);
    }
    KeepKids(h, h', turn, log, n);
  }

  lemma PlanPlaced(f: Fold, turn: int, log: seq<Event>, n: nat)
    requires n < |log| && Distinct(log) && Inv(f, turn, log, n) && Placed(f, turn, log, n) && log[n].body.Plan?
    ensures Placed(PushPlan(f, log[n]), turn, log, n + 1)
  {
    hide Plains, Plain, PushPlan, Calls, Curs, Texts, Others, With, KidsKept, Kids, RowsAre, CallsFiled, AsksFiled,
      KeysFiled;
    var e, f' := log[n], PushPlan(f, log[n]);
    var h, h', c := Plains(f.heap), Plains(f'.heap), PlanBlock(e.body.entries);
    FreshKey(f, turn, log, n);
    PlanThere(f, log, n);
    PlanEffect(f, e);
    if f.plan.Some? {
      EffectKids(h, f.plan.value, c);
      SameRows(f.blocks, turn, log, n);
    } else {
      EffectKids(h, e.sn, c);
      OneMoreRow(f.blocks, turn, log, n);
    }
    KeepKids(h, h', turn, log, n);
  }

  lemma AnswerPlaced(f: Fold, turn: int, log: seq<Event>, n: nat, id: string, permission: bool)
    requires n < |log| && Distinct(log) && Inv(f, turn, log, n) && Placed(f, turn, log, n)
    requires if permission then log[n].body.PermissionResolved? && id == log[n].body.pid
             else log[n].body.ElicitationResolved? && id == log[n].body.eid
    ensures Placed(Answered(f, Find(if permission then f.perms else f.asks, id), log[n].body.answer), turn, log, n + 1)
  {
    hide Plains, Plain, Answered, TextKey, Calls, Curs, Texts, Others, With, KidsKept, Kids, RowsAre, CallsFiled,
      KeysFiled;
    var k, answer := Find(if permission then f.perms else f.asks, id), log[n].body.answer;
    var h, f' := Plains(f.heap), Answered(f, k, answer);
    AskThere(f, log, n, id, permission);
    AnswerEffect(f, k, answer);
    if k.Some? { EffectKids(h, k.value, h[k.value].c.(answer := Some(answer))); } else { NothingKids(h); }
    SameRows(f.blocks, turn, log, n);
    KeepKids(h, Plains(f'.heap), turn, log, n);
  }

  /** A request, the end of a turn, a notice: a row of its own. */
  lemma MarkPlaced(f: Fold, g: Fold, turn: int, log: seq<Event>, n: nat, c: Content)
    requires n < |log| && Distinct(log) && Inv(f, turn, log, n) && Placed(f, turn, log, n)
    requires var e := log[n].body; e.PermissionRequest? || e.ElicitationRequest? || e.TurnEnd? || e.Notice?
    requires g.heap == f.heap && g.blocks == f.blocks && !c.ThoughtBlock?
    ensures Placed(Open(g, log[n].sn, c, None), turn, log, n + 1)
  {
    hide Open, Calls, Curs, Texts, Others, KidsKept, Kids, RowsAre, CallsFiled, AsksFiled, Plains;
    FreshKey(f, turn, log, n);
    OpenPlain(g, log[n].sn, c, None);
    NestTop(Plains(f.heap), log[n].sn, c, Cur(g, None));
    EffectKids(Plains(f.heap), log[n].sn, c);
    KeepKids(Plains(f.heap), Plains(Open(g, log[n].sn, c, None).heap), turn, log, n);
    OneMoreRow(f.blocks, turn, log, n);
  }

  lemma NothingPlaced(f: Fold, turn: int, log: seq<Event>, n: nat)
    requires n < |log| && Inv(f, turn, log, n) && Placed(f, turn, log, n) && (log[n].body.Status? || log[n].body.Queue?)
    ensures Placed(f, turn, log, n + 1)
  {
    hide Plains, Filed, Curs, Texts, Others, Calls, Kids, KidsKept, RowsAre;
    NothingKids(Plains(f.heap));
    SameRows(f.blocks, turn, log, n);
    KeepKids(Plains(f.heap), Plains(f.heap), turn, log, n);
  }

  lemma RoutePlaced(f: Fold, turn: int, log: seq<Event>, n: nat)
    requires n < |log| && Distinct(log) && Inv(f, turn, log, n) && Placed(f, turn, log, n)
    ensures Placed(Route(f, log[n]), turn, log, n + 1)
  {
    hide Inv, Placed, Open, PushText, PushTool, PushPlan, PushFiles, Answered;
    var e := log[n];
    match e.body {
      case Message(_, _, _, parent, _, _) => TextPlaced(f, turn, log, n, parent);
      case Thought(_, parent) => TextPlaced(f, turn, log, n, parent);
      case Tool(_, _, _, _, _, _) => ToolPlaced(f, turn, log, n);
      case FilesChanged(_, _, _) => FilesPlaced(f, turn, log, n);
      case Plan(_) => PlanPlaced(f, turn, log, n);
      case PermissionRequest(pid, ask) =>
        MarkPlaced(f, f.(cur := None, perms := f.perms[pid := e.sn]), turn, log, n, AskBlock(pid, ask, None));
      case ElicitationRequest(eid, ask) =>
        MarkPlaced(f, f.(cur := None, asks := f.asks[eid := e.sn]), turn, log, n, AskBlock(eid, ask, None));
      case PermissionResolved(pid, _) => AnswerPlaced(f, turn, log, n, pid, true);
      case ElicitationResolved(eid, _) => AnswerPlaced(f, turn, log, n, eid, false);
      case TurnEnd(ended, stop) =>
        MarkPlaced(f, f.(cur := None, plan := None, turn := NextTurn(f.turn, ended)), turn, log, n,
          TurnBlock(ended, stop));
      case Notice(text) => MarkPlaced(f, f, turn, log, n, NoticeBlock(text));
      case _ => NothingPlaced(f, turn, log, n);
    }
  }

  lemma PushPlaced(f: Fold, turn: int, log: seq<Event>, n: nat)
    requires n < |log| && Distinct(log) && Inv(f, turn, log, n) && Placed(f, turn, log, n)
    ensures Placed(Push(f, log[n]), turn, log, n + 1)
  {
    hide Done, Plains, Inv, Kids, RowsAre;
    var e := log[n];
    var f0 := f.(lastSeq := if e.sn > f.lastSeq then e.sn else f.lastSeq);
    var f1 := if LeavesThought(e.body) then f0 else Done(f0, f0.cur, e.ts);
    DonePlain(f0, f0.cur, e.ts);
    ClockAside(f, f1, turn, log, n);
    RoutePlaced(f1, turn, log, n);
  }

  lemma {:induction false} FoldPlaced(seed: nat, log: seq<Event>, n: nat)
    requires Distinct(log) && n <= |log|
    ensures Placed(FoldFrom(Seeded(seed), log[..n]), Seeded(seed).turn, log, n)
  {
    hide Push, Inv, Distinct, Placed;
    if n == 0 {
      NoPlaces(seed, log);
    } else {
      FoldHolds(seed, log, n - 1);
      FoldPlaced(seed, log, n - 1);
      assert log[..n][..n - 1] == log[..n - 1];
      PushPlaced(FoldFrom(Seeded(seed), log[..n - 1]), Seeded(seed).turn, log, n - 1);
    }
  }

  lemma NoPlaces(seed: nat, log: seq<Event>)
    ensures Placed(FoldFrom(Seeded(seed), log[..0]), Seeded(seed).turn, log, 0)
  {
  }

  // ---- what is shown where ----

  /** The rows of a log are the blocks opened in no card, in order, but for a turn's changes, which are before its last
      end. */
  lemma RowsInOrder(seed: nat, log: seq<Event>)
    requires Distinct(log)
    ensures var blocks, rows := FoldFrom(Seeded(seed), log).blocks, Rows(Seeded(seed).turn, log, |log|);
      |blocks| == |rows| && forall j :: 0 <= j < |rows| ==> blocks[j] == log[rows[j]].sn
  {
    FoldPlaced(seed, log, |log|);
    assert log[..|log|] == log;
  }

  /** A card holds the blocks opened in it, in order. */
  lemma CardsInOrder(seed: nat, log: seq<Event>, call: Call)
    requires Distinct(log) && Card(Seeded(seed).turn, log, |log|, call)
    ensures var f, turn := FoldFrom(Seeded(seed), log), Seeded(seed).turn;
      var k := Find(f.tools, call);
      && k.Some? && k.value in f.heap && f.heap[k.value].c.ToolBlock?
      && f.heap[k.value].c.children == Some(Inside(turn, log, |log|, call))
  {
    var turn, n, f := Seeded(seed).turn, |log|, FoldFrom(Seeded(seed), log);
    FoldPlaced(seed, log, n);
    CallIsItsEvents(seed, log, call);
    assert log[..n] == log;
    hide Inside, FoldFrom, Card;
    assert Holds(Plains(f.heap), turn, log, n, call);
    var k := Find(f.tools, call).value;
    assert Plains(f.heap)[k] == Plain(f.heap[k]);
  }
}
