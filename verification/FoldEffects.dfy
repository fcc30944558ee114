/** What one event does to the blocks of a fold, versions and the clocks of thoughts left aside. */
module FoldEffects {
  import opened Options
  import opened FoldSpec
  import opened FoldSim
  import opened FoldLog

  /** A block without its version and, of a thought, without when it ended. */
  function Plain(b: Block): Block {
    match b.c
    case ThoughtBlock(text, t0, _, _) => Block(ThoughtBlock(text, t0, 0, false), 0, b.up)
    case _ => b.(v := 0)
  }

  function Plains(h: map<Key, Block>): map<Key, Block> { map k | k in h :: Plain(h[k]) }

  /** A block's content is replaced. */
  function With(h: map<Key, Block>, k: Key, c: Content): map<Key, Block>
    requires k in h
  {
    h[k := h[k].(c := c)]
  }

  predicate IsCard(h: map<Key, Block>, k: Key) { k in h && h[k].c.ToolBlock? && h[k].c.children.Some? }

  /** A block opens in a card, or in the log, and is what follows it may go on with, or nothing is. */
  function Nest(h: map<Key, Block>, k: Key, c: Content, into: Option<Key>, cur: Option<Key>): map<Key, Block>
    requires into.Some? ==> IsCard(h, into.value)
  {
    if into.None? then h[k := Block(c, 0, None)]
    else
      var card := h[into.value].c;
      With(h, into.value, card.(children := Some(card.children.value + [k]), cur := cur))[k := Block(c, 0, into)]
  }

  lemma PlainsAt(f: Fold, g: Fold)
    requires Plains(f.heap) == Plains(g.heap) && g.byId == f.byId && g.cur == f.cur
    ensures forall k :: k in f.heap <==> k in g.heap
    ensures forall k :: k in f.heap && !f.heap[k].c.ThoughtBlock? ==> g.heap[k].c == f.heap[k].c
    ensures forall p :: Box(g, p) == Box(f, p)
    ensures forall k :: Cur(g, k) == Cur(f, k) && IsBox(At(g, k)) == IsBox(At(f, k))
    ensures forall k, e :: Continues(At(g, k), e) == Continues(At(f, k), e)
  {
    hide Plains;
    PlainsEqual(f.heap, g.heap);
    forall k | k in f.heap
      ensures !f.heap[k].c.ThoughtBlock? ==> g.heap[k].c == f.heap[k].c
      ensures f.heap[k].c.ThoughtBlock? <==> g.heap[k].c.ThoughtBlock?
    {
    }
    hide Plain;
  }

  lemma PlainsEqual(h: map<Key, Block>, h': map<Key, Block>)
    requires Plains(h) == Plains(h')
    ensures forall k :: k in h <==> k in h'
    ensures forall k :: k in h ==> Plain(h'[k]) == Plain(h[k])
  {
    assert forall k :: k in h <==> k in Plains(h);
    assert forall k :: k in h' <==> k in Plains(h');
    forall k | k in h ensures Plain(h'[k]) == Plain(h[k]) { assert Plains(h')[k] == Plains(h)[k]; }
  }

  lemma BumpPlain(h: map<Key, Block>, k: Key)
    ensures Plains(Bump(h, k)) == Plains(h)
  {
    BumpContents(h, k);
  }

  lemma DonePlain(f: Fold, k: Option<Key>, ts: nat)
    ensures Done(f, k, ts) == f.(heap := Done(f, k, ts).heap) && Plains(Done(f, k, ts).heap) == Plains(f.heap)
  {
    DoneSame(f, k, ts);
    if Running(At(f, k)) {
      var t := f.heap[k.value].c;
      var g := Change(f, k.value, ThoughtBlock(t.text, t.t0, if ts > 0 then ts else t.t1, true));
      BumpPlain(g.heap, k.value);
    }
  }

  lemma {:induction false} DoneAllPlain(f: Fold, ks: seq<Key>)
    ensures DoneAll(f, ks) == f.(heap := DoneAll(f, ks).heap) && Plains(DoneAll(f, ks).heap) == Plains(f.heap)
  {
    if ks != [] {
      DoneAllPlain(f, ks[..|ks| - 1]);
      DonePlain(DoneAll(f, ks[..|ks| - 1]), Some(ks[|ks| - 1]), 0);
    }
  }

  lemma OpenPlain(f: Fold, k: Key, c: Content, into: Option<Key>)
    requires k !in f.heap && (into.Some? ==> IsBox(At(f, into)))
    ensures var f' := Open(f, k, c, into);
      && f' == f.(heap := f'.heap, blocks := if into.None? then f.blocks + [k] else f.blocks)
      && (into.Some? ==> IsCard(Plains(f.heap), into.value))
      && Plains(f'.heap) == Nest(Plains(f.heap), k, Plain(Block(c, 0, None)).c, into, Cur(f, into))
  {
    if into.None? {
      PlainsSet(f.heap, k, Block(c, 0, None));
      PlainOf(c, 0, None);
    } else {
      OpenInCard(f, k, c, into.value);
    }
  }

  lemma OpenInCard(f: Fold, k: Key, c: Content, into: Key)
    requires k !in f.heap && IsBox(At(f, Some(into)))
    ensures var h, f' := Plains(f.heap), Open(f, k, c, Some(into));
      && f' == f.(heap := f'.heap) && IsCard(h, into)
      && Plains(f'.heap) == Nest(h, k, Plain(Block(c, 0, None)).c, Some(into), h[into].c.cur)
      && h[into].c.cur == f.heap[into].c.cur
  {
    hide Bump, Plain, Plains;
    var was := f.heap[into];
    var card := was.c.(children := Some(was.c.children.value + [k]));
    BumpPlain(f.heap, into);
    BumpContents(f.heap, into);
    CardIsPlain(f.heap, into);
    var h := Bump(f.heap, into);
    var h1 := h[k := Block(c, 0, Some(into))];
    PlainsSet(h, k, Block(c, 0, Some(into)));
    PlainOf(c, 0, Some(into));
    PlainsSet(h1, into, Block(card, h1[into].v, was.up));
    PlainOf(card, h1[into].v, was.up);
    Swapped(Plains(f.heap), k, Block(Plain(Block(c, 0, None)).c, 0, Some(into)), into, Block(card, 0, was.up));
  }

  lemma Swapped(h: map<Key, Block>, k: Key, b: Block, j: Key, d: Block)
    requires j != k
    ensures h[k := b][j := d] == h[j := d][k := b]
  {
  }

  lemma PlainsSet(h: map<Key, Block>, k: Key, b: Block)
    ensures Plains(h[k := b]) == Plains(h)[k := Plain(b)]
  {
  }

  lemma PlainOf(c: Content, v: nat, up: Option<Key>)
    ensures Plain(Block(c, v, up)) == Block(Plain(Block(c, 0, None)).c, 0, up)
    ensures c.ToolBlock? ==> Plain(Block(c, v, up)) == Block(c, 0, up)
  {
  }

  lemma CardIsPlain(h: map<Key, Block>, k: Key)
    requires k in h && h[k].c.ToolBlock?
    ensures k in Plains(h) && Plains(h)[k] == h[k].(v := 0)
  {
    assert Plains(h)[k] == Plain(h[k]);
  }

  lemma SetCurPlain(f: Fold, into: Option<Key>, k: Option<Key>)
    requires into.Some? ==> IsBox(At(f, into))
    ensures var f' := SetCur(f, into, k);
      && f' == f.(heap := f'.heap, cur := if into.None? then k else f.cur)
      && (into.Some? ==> IsCard(Plains(f.heap), into.value))
      && Plains(f'.heap) ==
           if into.None? then Plains(f.heap)
           else With(Plains(f.heap), into.value, Plains(f.heap)[into.value].c.(cur := k))
  {
    if into.Some? { assert Plains(f.heap)[into.value] == Plain(f.heap[into.value]); }
  }

  // ---- text ----

  /** The block a text event opens. */
  function TextBlock(e: Event): Content
    requires IsText(e.body)
  {
    match e.body
    case Message(role, text, mid, _, files, steered) => MsgBlock(role, mid, text, files, steered)
    case Thought(text, _) => ThoughtBlock(text, e.ts, 0, false)
  }

  function Longer(c: Content, text: string): Content
    requires c.MsgBlock? || c.ThoughtBlock?
  {
    match c
    case MsgBlock(role, mid, was, files, steered) => MsgBlock(role, mid, was + text, files, steered)
    case ThoughtBlock(was, t0, t1, done) => ThoughtBlock(was + text, t0, t1, done)
  }

  lemma TextEffect(f: Fold, e: Event, parent: string)
    requires IsText(e.body) && e.sn !in f.heap
    ensures var into, h, f' := Box(f, parent), Plains(f.heap), PushText(f, e, parent);
      var c := Cur(f, into);
      && f' == f.(heap := f'.heap, cur := f'.cur, blocks := f'.blocks)
      && (into.Some? ==> IsCard(h, into.value))
      && if Continues(At(f, c), e.body) then
           && f'.cur == f.cur && f'.blocks == f.blocks && c.value in h
           && (h[c.value].c.MsgBlock? || h[c.value].c.ThoughtBlock?)
           && Plains(f'.heap) == With(h, c.value, Longer(h[c.value].c, e.body.text))
         else
           && f'.cur == (if into.None? then Some(e.sn) else f.cur)
           && f'.blocks == (if into.None? then f.blocks + [e.sn] else f.blocks)
           && Plains(f'.heap) == Nest(h, e.sn, TextBlock(e), into, Some(e.sn))
  {
    var into := Box(f, parent);
    var c := Cur(f, into);
    DonePlain(f, c, e.ts);
    var f1 := if e.body.Message? then Done(f, c, e.ts) else f;
    PlainsAt(f, f1);
    hide Done, Plains;
    if Continues(At(f1, c), e.body) {
      GoesOnEffect(f1, e, c.value, into);
    } else {
      OpensEffect(f1, e, into);
    }
  }

  lemma GoesOnEffect(f: Fold, e: Event, c: Key, into: Option<Key>)
    requires Continues(At(f, Some(c)), e.body) && Cur(f, into) == Some(c) && (into.Some? ==> IsBox(At(f, into)))
    ensures var h, f' := Plains(f.heap), SetCur(Bumped(Change(f, c, Continued(f.heap[c].c, e)), c), into, Some(c));
      && f' == f.(heap := f'.heap) && c in h && (h[c].c.MsgBlock? || h[c].c.ThoughtBlock?)
      && (into.Some? ==> IsCard(h, into.value))
      && Plains(f'.heap) == With(h, c, Longer(h[c].c, e.body.text))
  {
    hide Bump, Plains, SetCur;
    var d := Continued(f.heap[c].c, e);
    var f1 := Change(f, c, d);
    BumpPlain(f1.heap, c);
    BumpContents(f1.heap, c);
    PlainsSet(f.heap, c, f.heap[c].(c := d));
    PlainAt(f.heap, c);
    assert Cur(Bumped(f1, c), into) == Some(c) && (into.Some? ==> IsBox(At(Bumped(f1, c), into)));
    SetCurPlain(Bumped(f1, c), into, Some(c));
    if into.Some? { CardIsPlain(Bumped(f1, c).heap, into.value); }
  }

  lemma PlainAt(h: map<Key, Block>, k: Key)
    requires k in h
    ensures k in Plains(h) && Plains(h)[k] == Plain(h[k])
  {
  }

  lemma OpensEffect(f: Fold, e: Event, into: Option<Key>)
    requires IsText(e.body) && e.sn !in f.heap && (into.Some? ==> IsBox(At(f, into)))
    ensures var b := if e.body.Thought? then ThoughtBlock(e.body.text, e.ts, e.ts, false)
                     else MsgBlock(e.body.role, e.body.mid, e.body.text, e.body.files, e.body.steered);
      var h, f' := Plains(f.heap), SetCur(Open(f, e.sn, b, into), into, Some(e.sn));
      && f' == f.(heap := f'.heap, cur := if into.None? then Some(e.sn) else f.cur,
                  blocks := if into.None? then f.blocks + [e.sn] else f.blocks)
      && (into.Some? ==> IsCard(h, into.value))
      && Plains(f'.heap) == Nest(h, e.sn, TextBlock(e), into, Some(e.sn))
  {
    var b := if e.body.Thought? then ThoughtBlock(e.body.text, e.ts, e.ts, false)
             else MsgBlock(e.body.role, e.body.mid, e.body.text, e.body.files, e.body.steered);
    OpenPlain(f, e.sn, b, into);
    var f1 := Open(f, e.sn, b, into);
    StillBox(f, f1, into);
    hide Open, Plains;
    SetCurPlain(f1, into, Some(e.sn));
  }

  /** A card that a block was opened in is a card. */
  lemma StillBox(f: Fold, g: Fold, into: Option<Key>)
    requires into.Some? ==> IsCard(Plains(g.heap), into.value)
    ensures into.Some? ==> IsBox(At(g, into))
  {
    if into.Some? { assert Plains(g.heap)[into.value] == Plain(g.heap[into.value]); }
  }

  // ---- tool calls ----

  lemma MergeEffect(f: Fold, t: Key, d: Body)
    requires d.Tool? && t in f.heap && f.heap[t].c.ToolBlock?
    ensures var h, f' := Plains(f.heap), FoldTool(f, t, d);
      && f' == f.(heap := f'.heap, byId := f.byId[d.id := t]) && t in h && h[t].c.ToolBlock?
      && Plains(f'.heap) == With(h, t, Merged(h[t].c, d))
  {
    var c := Merged(f.heap[t].c, d);
    var g := Change(f, t, c).(byId := f.byId[d.id := t]);
    var ks := if c.children.Some? then c.children.value else [];
    DoneAllPlain(g, ks);
    CardIsPlain(f.heap, t);
    PlainsSet(f.heap, t, f.heap[t].(c := c));
    PlainOf(c, f.heap[t].v, f.heap[t].up);
    hide Plains, Plain, DoneAll, Bump, Merged;
    BumpPlain(g.heap, t);
    BumpPlain(DoneAll(g, ks).heap, t);
  }

  /** The card a call is nested in goes on with nothing. */
  function Entered(h: map<Key, Block>, into: Option<Key>): map<Key, Block>
    requires into.Some? ==> IsCard(h, into.value)
  {
    if into.None? then h else With(h, into.value, h[into.value].c.(cur := None))
  }

  function Called(h: map<Key, Block>, known: Option<Key>, e: Event, into: Option<Key>): map<Key, Block>
    requires e.body.Tool? && (into.Some? ==> IsCard(h, into.value))
  {
    var h1 := Entered(h, into);
    if known.Some? then h1 else Nest(h1, e.sn, NewTool(e.body.id, e.ts), into, None)
  }

  lemma EnterEffect(f: Fold, into: Option<Key>)
    requires into.Some? ==> IsBox(At(f, into))
    ensures var h, f1 := Plains(f.heap), SetCur(if into.Some? then Done(f, Cur(f, into), 0) else f, into, None);
      && f1 == f.(heap := f1.heap, cur := if into.None? then None else f.cur)
      && (into.Some? ==> IsCard(h, into.value)) && Plains(f1.heap) == Entered(h, into)
  {
    DonePlain(f, Cur(f, into), 0);
    var f0 := if into.Some? then Done(f, Cur(f, into), 0) else f;
    PlainsAt(f, f0);
    hide Plains, Done;
    SetCurPlain(f0, into, None);
  }

  lemma OpenCall(f: Fold, e: Event, into: Option<Key>)
    requires e.body.Tool? && e.sn !in f.heap && (into.Some? ==> IsCard(Plains(f.heap), into.value))
      && Entered(Plains(f.heap), into) == Plains(f.heap)
    ensures var h, f' := Plains(f.heap), Open(f, e.sn, NewTool(e.body.id, e.ts), into);
      && f' == f.(heap := f'.heap, blocks := if into.None? then f.blocks + [e.sn] else f.blocks)
      && Plains(f'.heap) == Nest(h, e.sn, NewTool(e.body.id, e.ts), into, None)
      && e.sn in f'.heap && f'.heap[e.sn].c.ToolBlock?
  {
    var c := NewTool(e.body.id, e.ts);
    StillBox(f, f, into);
    OpenPlain(f, e.sn, c, into);
    PlainOf(c, 0, None);
    hide Open;
    if into.Some? {
      CardIsPlain(f.heap, into.value);
      assert Entered(Plains(f.heap), into)[into.value].c.cur == None;
    }
    var f' := Open(f, e.sn, c, into);
    assert Plains(f'.heap)[e.sn] == Plain(f'.heap[e.sn]);
  }

  lemma ToolEffect(f: Fold, e: Event)
    requires e.body.Tool? && e.sn !in f.heap
    requires var known := ToolAt(f, e.body.id);
      known.Some? ==> known.value in f.heap && f.heap[known.value].c.ToolBlock?
    ensures var d, h, f' := e.body, Plains(f.heap), PushTool(f, e);
      var known, into := ToolAt(f, d.id), ToolBox(f, d.id, d.parent);
      var t := if known.Some? then known.value else e.sn;
      && (into.Some? ==> IsCard(h, into.value))
      && var h2 := Called(h, known, e, into);
      && f' == f.(heap := f'.heap, cur := if into.None? then None else f.cur,
                  blocks := if known.None? && into.None? then f.blocks + [e.sn] else f.blocks,
                  tools := if known.Some? then f.tools else f.tools[(f.turn, d.id) := e.sn],
                  byId := f.byId[d.id := t])
      && t in h2 && h2[t].c.ToolBlock? && Plains(f'.heap) == With(h2, t, Merged(h2[t].c, d))
  {
    var d, h := e.body, Plains(f.heap);
    var known, into := ToolAt(f, d.id), ToolBox(f, d.id, d.parent);
    EnterEffect(f, into);
    var f1 := SetCur(if into.Some? then Done(f, Cur(f, into), 0) else f, into, None);
    SameKeys(f.heap, f1.heap, into);
    hide Plains, SetCur, Done, Open, Merged, FoldTool;
    if known.Some? {
      MergeEffect(f1, known.value, d);
    } else {
      OpenCall(f1, e, into);
      var f2 := Open(f1, e.sn, NewTool(d.id, e.ts), into).(tools := f1.tools[(f1.turn, d.id) := e.sn]);
      MergeEffect(f2, e.sn, d);
    }
  }

  lemma SameKeys(h: map<Key, Block>, h': map<Key, Block>, into: Option<Key>)
    requires into.Some? ==> IsCard(Plains(h), into.value)
    requires Plains(h') == Entered(Plains(h), into)
    ensures forall k :: k in h <==> k in h'
    ensures forall k :: k in h && h[k].c.ToolBlock? ==> h'[k].c.ToolBlock?
    ensures into.Some? ==> IsCard(Plains(h'), into.value)
    ensures Entered(Plains(h'), into) == Plains(h')
  {
    assert forall k :: k in h <==> k in Plains(h);
    assert forall k :: k in h' <==> k in Plains(h');
    forall k | k in h && h[k].c.ToolBlock? ensures h'[k].c.ToolBlock? {
      assert Plains(h)[k] == Plain(h[k]) && Plains(h')[k] == Plain(h'[k]);
    }
  }

  // ---- the other events ----

  lemma ChangeEffect(f: Fold, k: Key, c: Content)
    requires k in f.heap && !c.ThoughtBlock?
    ensures var f' := Bumped(Change(f, k, c), k);
      && f' == f.(heap := f'.heap) && k in Plains(f.heap) && Plains(f'.heap) == With(Plains(f.heap), k, c)
  {
    hide Bump;
    BumpPlain(Change(f, k, c).heap, k);
    PlainsSet(f.heap, k, f.heap[k].(c := c));
    assert Plains(f.heap)[k] == Plain(f.heap[k]);
  }

  lemma PlanEffect(f: Fold, e: Event)
    requires e.body.Plan? && e.sn !in f.heap
    requires f.plan.Some? ==> f.plan.value in f.heap && f.heap[f.plan.value].c.PlanBlock?
    ensures var c, h, f' := PlanBlock(e.body.entries), Plains(f.heap), PushPlan(f, e);
      if f.plan.Some? then
        && f' == f.(heap := f'.heap, cur := None)
        && f.plan.value in h && Plains(f'.heap) == With(h, f.plan.value, c)
      else
        && f' == f.(heap := f'.heap, cur := None, plan := Some(e.sn), blocks := f.blocks + [e.sn])
        && Plains(f'.heap) == h[e.sn := Block(c, 0, None)]
  {
    var f1 := f.(cur := None);
    OpenPlain(f1, e.sn, PlanBlock(""), None);
    var f2 := if f.plan.Some? then f1 else Open(f1, e.sn, PlanBlock(""), None).(plan := Some(e.sn));
    hide Plains, Bump;
    ChangeEffect(f2, f2.plan.value, PlanBlock(e.body.entries));
  }

  lemma FilesEffect(f: Fold, e: Event)
    requires e.body.FilesChanged? && e.sn !in f.heap
    requires var t := ChangedTool(f, e.body.toolCallId);
      t.Some? ==> t.value in f.heap && f.heap[t.value].c.ToolBlock?
    ensures var d, h, f' := e.body, Plains(f.heap), PushFiles(f, e);
      var t := ChangedTool(f, d.toolCallId);
      if d.toolCallId == "" then
        && f' == f.(heap := f'.heap, blocks := f'.blocks)
        && Plains(f'.heap) == h[e.sn := Block(ChangesBlock(d.turn, d.patch), 0, None)]
      else
        && f' == f.(heap := f'.heap)
        && if t.Some? then
             && t.value in h && h[t.value].c.ToolBlock?
             && Plains(f'.heap) == With(h, t.value, h[t.value].c.(diff := Some(d.patch)))
           else f' == f
  {
    var d := e.body;
    var t := ChangedTool(f, d.toolCallId);
    if d.toolCallId == "" {
      PlainsSet(f.heap, e.sn, Block(ChangesBlock(d.turn, d.patch), 0, None));
    } else if t.Some? {
      CardIsPlain(f.heap, t.value);
      hide Plains, Bump;
      ChangeEffect(f, t.value, f.heap[t.value].c.(diff := Some(d.patch)));
    }
  }

  lemma AnswerEffect(f: Fold, k: Option<Key>, answer: string)
    requires k.Some? ==> k.value in f.heap && f.heap[k.value].c.AskBlock?
    ensures var h, f' := Plains(f.heap), Answered(f, k, answer);
      && f' == f.(heap := f'.heap)
      && if k.Some? then
           && k.value in h && h[k.value].c.AskBlock?
           && Plains(f'.heap) == With(h, k.value, h[k.value].c.(answer := Some(answer)))
         else f' == f
  {
    if k.Some? {
      assert Plains(f.heap)[k.value] == Plain(f.heap[k.value]);
      ChangeEffect(f, k.value, f.heap[k.value].c.(answer := Some(answer)));
    }
  }
}
