/** The Agent tab's view model: a session's event log folded into blocks, one event at a time. Blocks are objects
    that several indexes point at, so a fold's state keeps them in a heap under their keys: a block's key is the
    sequence number of the event that opened it. */
module FoldSpec {
  import opened Options

  type Key = nat

  /** An event's data. "" (for ids and parents), 0 (for times) and Some(0) (for turns) are what the code calls falsy. */
  datatype Body =
    | Message(role: string, text: string, mid: string, parent: string, files: Option<string>, steered: bool)
    | Thought(text: string, parent: string)
    | Tool(id: string, parent: string, subagent: bool, fields: map<string, string>, output: Option<string>,
      outputDelta: Option<string>)
    | FilesChanged(toolCallId: string, turn: Option<nat>, patch: string)
    | Plan(entries: string)
    | PermissionRequest(pid: string, ask: string)
    | PermissionResolved(pid: string, answer: string)
    | ElicitationRequest(eid: string, ask: string)
    | ElicitationResolved(eid: string, answer: string)
    | TurnEnd(turn: Option<nat>, stop: string)
    | Notice(text: string)
    | Status(digest: string)
    | Queue(items: string)

  datatype Event = Event(sn: nat, ts: nat, body: Body)

  datatype Content =
    | MsgBlock(role: string, mid: string, text: string, files: Option<string>, steered: bool)
    | ThoughtBlock(text: string, t0: nat, t1: nat, done: bool)
    | ToolBlock(id: string, fields: map<string, string>, output: string, diff: Option<string>, t0: nat,
                children: Option<seq<Key>>, cur: Option<Key>)
    | ChangesBlock(turn: Option<nat>, patch: string)
    | PlanBlock(entries: string)
    | AskBlock(id: string, ask: string, answer: Option<string>) // a permission or an elicitation
    | TurnBlock(turn: Option<nat>, stop: string)
    | NoticeBlock(text: string)

  /** `v` is bumped whenever the block, or one nested in it, changes; `up` is the enclosing subagent card. */
  datatype Block = Block(c: Content, v: nat, up: Option<Key>)

  /** `turn` counts half turns: 2n + 1 after turn n ended (the code's n + 0.5). `tools` are keyed by turn and id,
      because an agent may reuse an id in a later turn; `byId` has a call's latest record. */
  datatype Fold = Fold(
    blocks: seq<Key>, heap: map<Key, Block>, tools: map<(int, string), Key>, byId: map<string, Key>,
    perms: map<string, Key>, asks: map<string, Key>, plan: Option<Key>, cur: Option<Key>, turn: int, lastSeq: nat)

  const EMPTY := Fold([], map[], map[], map[], map[], map[], None, None, 0, 0)

  /** A page's state header: the number of the last turn before it (0: none). */
  function Seeded(turn: nat): Fold { if turn > 0 then EMPTY.(turn := 2 * turn + 1) else EMPTY }

  // ---- the heap ----

  function At(f: Fold, k: Option<Key>): Option<Content> {
    if k.Some? && k.value in f.heap then Some(f.heap[k.value].c) else None
  }

  function Find<K(==)>(m: map<K, Key>, k: K): Option<Key> { if k in m then Some(m[k]) else None }

  /** Bumps a block and its enclosing cards. A card opens before what it holds, so the walk ends. */
  function Bump(heap: map<Key, Block>, k: Key): map<Key, Block>
    decreases k
  {
    if k !in heap then heap
    else
      var b := heap[k];
      var heap' := heap[k := b.(v := b.v + 1)];
      if b.up.Some? && b.up.value < k then Bump(heap', b.up.value) else heap'
  }

  /** A block's content changes. */
  function Change(f: Fold, k: Key, c: Content): Fold
    requires k in f.heap
  {
    f.(heap := f.heap[k := f.heap[k].(c := c)])
  }

  function Bumped(f: Fold, k: Key): Fold { f.(heap := Bump(f.heap, k)) }

  /** A thought ends when anything else arrives. */
  function Done(f: Fold, k: Option<Key>, ts: nat): Fold {
    match At(f, k)
    case Some(ThoughtBlock(text, t0, t1, false)) =>
      Bumped(Change(f, k.value, ThoughtBlock(text, t0, if ts > 0 then ts else t1, true)), k.value)
    case _ => f
  }

  function DoneAll(f: Fold, ks: seq<Key>): Fold {
    if ks == [] then f else Done(DoneAll(f, ks[..|ks| - 1]), Some(ks[|ks| - 1]), 0)
  }

  /** Opens a block at the end of the log, or of the card it is nested in. */
  function Open(f: Fold, k: Key, c: Content, into: Option<Key>): Fold {
    match At(f, into)
    case Some(ToolBlock(_, _, _, _, _, Some(children), _)) =>
      var g := f.(heap := Bump(f.heap, into.value)[k := Block(c, 0, into)]);
      if into.value in g.heap && g.heap[into.value].c.ToolBlock? then
        Change(g, into.value, g.heap[into.value].c.(children := Some(children + [k])))
      else g
    case _ => f.(heap := f.heap[k := Block(c, 0, None)], blocks := f.blocks + [k])
  }

  // ---- what an event resolves to ----

  function IsBox(c: Option<Content>): bool { c.Some? && c.value.ToolBlock? && c.value.children.Some? }

  /** The subagent card an event is nested in. */
  function Box(f: Fold, parent: string): Option<Key> {
    if parent != "" && IsBox(At(f, Find(f.byId, parent))) then Find(f.byId, parent) else None
  }

  /** What a text event of a card, or of the log, may continue. */
  function Cur(f: Fold, into: Option<Key>): Option<Key> {
    match At(f, into)
    case Some(ToolBlock(_, _, _, _, _, _, cur)) => cur
    case _ => f.cur
  }

  function SetCur(f: Fold, into: Option<Key>, k: Option<Key>): Fold {
    match At(f, into)
    case Some(ToolBlock(_, _, _, _, _, _, _)) => Change(f, into.value, f.heap[into.value].c.(cur := k))
    case _ => f.(cur := k)
  }

  predicate Continues(c: Option<Content>, e: Body) {
    match e
    case Thought(_, _) => c.Some? && c.value.ThoughtBlock?
    case Message(role, _, mid, _, files, steered) =>
      c.Some? && c.value.MsgBlock? && c.value.role == role && c.value.mid == mid && c.value.files.None?
      && files.None? &&
      !c.value.steered && !steered
    case _ => false
  }

  function ToolAt(f: Fold, id: string): Option<Key> { Find(f.tools, (f.turn, id)) }

  function ToolBox(f: Fold, id: string, parent: string): Option<Key> {
    var box := Box(f, parent);
    if box.Some? && box != ToolAt(f, id) then box else None
  }

  function ChangedTool(f: Fold, id: string): Option<Key> {
    if ToolAt(f, id).Some? then ToolAt(f, id) else Find(f.byId, id)
  }

  /** The last end-of-turn marker of a turn among `blocks`. */
  function LastTurn(heap: map<Key, Block>, blocks: seq<Key>, turn: Option<nat>): (at: Option<nat>)
    ensures at.Some? ==> at.value < |blocks|
  {
    if blocks == [] then None
    else
      var k := blocks[|blocks| - 1];
      if k in heap && heap[k].c.TurnBlock? && heap[k].c.turn == turn then Some(|blocks| - 1)
      else LastTurn(heap, blocks[..|blocks| - 1], turn)
  }

  /** Where a turn's changes go: before its end marker, else at the end. */
  function Place(heap: map<Key, Block>, blocks: seq<Key>, turn: Option<nat>): (at: nat)
    ensures at <= |blocks|
  {
    if LastTurn(heap, blocks, turn).Some? then LastTurn(heap, blocks, turn).value else |blocks|
  }

  function Inserted(f: Fold, k: Key, b: Block, at: nat): Fold
    requires at <= |f.blocks|
  {
    f.(heap := f.heap[k := b], blocks := f.blocks[..at] + [k] + f.blocks[at..])
  }

  // ---- events ----

  function Continued(c: Content, e: Event): Content
    requires Continues(Some(c), e.body)
  {
    match c
    case ThoughtBlock(text, t0, t1, done) => ThoughtBlock(text + e.body.text, t0, if e.ts > 0 then e.ts else t1, done)
    case MsgBlock(role, mid, text, files, steered) => MsgBlock(role, mid, text + e.body.text, files, steered)
  }

  function PushText(f: Fold, e: Event, parent: string): Fold
    requires e.body.Message? || e.body.Thought?
  {
    var into := Box(f, parent);
    var c := Cur(f, into);
    var f1 := if e.body.Message? then Done(f, c, e.ts) else f;
    if Continues(At(f1, c), e.body) then
      SetCur(Bumped(Change(f1, c.value, Continued(f1.heap[c.value].c, e)), c.value), into, c)
    else
      var b := if e.body.Thought? then ThoughtBlock(e.body.text, e.ts, e.ts, false)
               else MsgBlock(e.body.role, e.body.mid, e.body.text, e.body.files, e.body.steered);
      SetCur(Open(f1, e.sn, b, into), into, Some(e.sn))
  }

  /** One tool.call or tool.update merged into the record: fields replace, a delta appends to the output. */
  function Merged(c: Content, d: Body): Content
    requires c.ToolBlock? && d.Tool?
  {
    var out := if d.outputDelta.Some? then c.output + d.outputDelta.value else c.output;
    c.(fields := c.fields + d.fields,
       output := if d.output.Some? then d.output.value else out,
       children := if d.subagent && c.children.None? then Some([]) else c.children)
  }

  predicate Finished(c: Content)
    requires c.ToolBlock?
  {
    "status" in c.fields && c.fields["status"] != "pending" && c.fields["status"] != "in_progress"
  }

  function NewTool(id: string, ts: nat): Content { ToolBlock(id, map[], "", None, ts, None, None) }

  function PushTool(f: Fold, e: Event): Fold
    requires e.body.Tool?
  {
    var d := e.body;
    var known := ToolAt(f, d.id);
    var into := ToolBox(f, d.id, d.parent);
    var f1 := SetCur(if into.Some? then Done(f, Cur(f, into), 0) else f, into, None);
    var f2 := if known.Some? then f1
              else Open(f1, e.sn, NewTool(d.id, e.ts), into).(tools := f1.tools[(f1.turn, d.id) := e.sn]);
    FoldTool(f2, if known.Some? then known.value else e.sn, d)
  }

  function FoldTool(f: Fold, t: Key, d: Body): Fold
    requires d.Tool?
  {
    if t in f.heap && f.heap[t].c.ToolBlock? then
      var c := Merged(f.heap[t].c, d);
      var g := Change(f, t, c).(byId := f.byId[d.id := t]);
      Bumped(if c.children.Some? && Finished(c) then DoneAll(g, c.children.value) else g, t)
    else f
  }

  function PushFiles(f: Fold, e: Event): Fold
    requires e.body.FilesChanged?
  {
    var d := e.body;
    if d.toolCallId != "" then
      var t := ChangedTool(f, d.toolCallId);
      if t.Some? && At(f, t).Some? && At(f, t).value.ToolBlock? then
        Bumped(Change(f, t.value, At(f, t).value.(diff := Some(d.patch))), t.value)
      else f
    else
      Inserted(f, e.sn, Block(ChangesBlock(d.turn, d.patch), 0, None), Place(f.heap, f.blocks, d.turn))
  }

  function PushPlan(f: Fold, e: Event): Fold
    requires e.body.Plan?
  {
    var f1 := f.(cur := None);
    var f2 := if f.plan.Some? then f1 else Open(f1, e.sn, PlanBlock(""), None).(plan := Some(e.sn));
    if At(f2, f2.plan).Some? then Bumped(Change(f2, f2.plan.value, PlanBlock(e.body.entries)), f2.plan.value) else f2
  }

  function Answered(f: Fold, k: Option<Key>, answer: string): Fold {
    match At(f, k)
    case Some(AskBlock(id, ask, _)) => Bumped(Change(f, k.value, AskBlock(id, ask, Some(answer))), k.value)
    case _ => f
  }

  function NextTurn(turn: int, ended: Option<nat>): int {
    if ended.Some? && ended.value > 0 then 2 * ended.value + 1 else turn + 1
  }

  /** Whether an event leaves a running thought running. */
  predicate LeavesThought(b: Body) { b.Thought? || b.Status? || b.FilesChanged? || b.Queue? }

  function Push(f: Fold, e: Event): Fold {
    var f0 := f.(lastSeq := if e.sn > f.lastSeq then e.sn else f.lastSeq);
    Route(if LeavesThought(e.body) then f0 else Done(f0, f0.cur, e.ts), e)
  }

  function Route(f: Fold, e: Event): Fold {
    match e.body
    case Message(_, _, _, parent, _, _) => PushText(f, e, parent)
    case Thought(_, parent) => PushText(f, e, parent)
    case Tool(_, _, _, _, _, _) => PushTool(f, e)
    case FilesChanged(_, _, _) => PushFiles(f, e)
    case Plan(_) => PushPlan(f, e)
    case PermissionRequest(pid, ask) => Open(f.(cur := None, perms := f.perms[pid := e.sn]), e.sn,
      AskBlock(pid, ask, None), None)
    case ElicitationRequest(eid, ask) => Open(f.(cur := None, asks := f.asks[eid := e.sn]), e.sn,
      AskBlock(eid, ask, None), None)
    case PermissionResolved(pid, answer) => Answered(f, Find(f.perms, pid), answer)
    case ElicitationResolved(eid, answer) => Answered(f, Find(f.asks, eid), answer)
    case TurnEnd(turn, stop) =>
      Open(f.(cur := None, plan := None, turn := NextTurn(f.turn, turn)), e.sn, TurnBlock(turn, stop), None)
    case Notice(text) => Open(f, e.sn, NoticeBlock(text), None)
    case Status(_) => f
    case Queue(_) => f
  }

  function FoldFrom(f: Fold, events: seq<Event>): Fold {
    if events == [] then f else Push(FoldFrom(f, events[..|events| - 1]), events[|events| - 1])
  }
}
