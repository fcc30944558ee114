/** What a log says, without folding it: which events make up a call, a text, an ask or a plan, and what they amount to.
    Events are named by their index; a call by the turn counter it came under and its id. */
module FoldLog {
  import opened Options
  import opened FoldSpec

  type Call = (int, string)

  predicate IsText(b: Body) { b.Message? || b.Thought? }

  // ---- calls ----

  /** The turn counter before event n, in half turns: 2t + 1 once turn t has ended, one more after an end without a
      number. */
  ghost function Counter(turn: int, log: seq<Event>, n: nat): int
    requires n <= |log|
  {
    if n == 0 then turn
    else
      match log[n - 1].body
      case TurnEnd(ended, _) =>
        if ended.Some? && ended.value > 0 then 2 * ended.value + 1 else Counter(turn, log, n - 1) + 1
      case _ => Counter(turn, log, n - 1)
  }

  ghost predicate OfCall(turn: int, log: seq<Event>, i: nat, call: Call)
    requires i < |log|
  {
    log[i].body.Tool? && call == (Counter(turn, log, i), log[i].body.id)
  }

  /** The event that opened the call. */
  ghost function First(turn: int, log: seq<Event>, n: nat, call: Call): (i: Option<nat>)
    requires n <= |log|
    ensures i.Some? ==> i.value < n && OfCall(turn, log, i.value, call)
    ensures forall j :: 0 <= j < n && OfCall(turn, log, j, call) ==> i.Some? && i.value <= j
  {
    if n == 0 then None
    else if First(turn, log, n - 1, call).Some? then First(turn, log, n - 1, call)
    else if OfCall(turn, log, n - 1, call) then Some(n - 1) else None
  }

  /** The latest call of an id. */
  ghost function Latest(turn: int, log: seq<Event>, n: nat, id: string): (call: Option<Call>)
    requires n <= |log|
    ensures call.Some? ==> call.value.1 == id && First(turn, log, n, call.value).Some?
  {
    if n == 0 then None
    else if log[n - 1].body.Tool? && log[n - 1].body.id == id then Some((Counter(turn, log, n - 1), id))
    else Latest(turn, log, n - 1, id)
  }

  /** Some event of the call said it is a subagent's: it is a card. */
  ghost predicate Card(turn: int, log: seq<Event>, n: nat, call: Call)
    requires n <= |log|
  {
    exists i :: 0 <= i < n && OfCall(turn, log, i, call) && log[i].body.subagent
  }

  /** What a call's events last gave as one of its fields. */
  ghost function Given(turn: int, log: seq<Event>, n: nat, call: Call, field: string): Option<string>
    requires n <= |log|
  {
    if n == 0 then None
    else if OfCall(turn, log, n - 1, call) && field in log[n - 1].body.fields then Some(log[n - 1].body.fields[field])
    else Given(turn, log, n - 1, call, field)
  }

  /** The deltas of a call's events from m on, in order. */
  ghost function Deltas(turn: int, log: seq<Event>, m: nat, n: nat, call: Call): string
    requires m <= n <= |log|
  {
    if n == m then ""
    else
      var e := log[n - 1].body;
      Deltas(turn, log, m, n - 1, call)
      + (if OfCall(turn, log, n - 1, call) && e.outputDelta.Some? then e.outputDelta.value else "")
  }

  /** Where a call's output starts: after its last event that gave an output, or at the start of the log. */
  ghost function Start(turn: int, log: seq<Event>, n: nat, call: Call): (m: nat)
    requires n <= |log|
    ensures m <= n && (m > 0 ==> OfCall(turn, log, m - 1, call) && log[m - 1].body.output.Some?)
    ensures forall i :: m <= i < n && OfCall(turn, log, i, call) ==> log[i].body.output.None?
  {
    if n == 0 || (OfCall(turn, log, n - 1, call) && log[n - 1].body.output.Some?) then n
    else Start(turn, log, n - 1, call)
  }

  /** A call's output: the last one given, and the deltas since. */
  ghost function Output(turn: int, log: seq<Event>, n: nat, call: Call): string
    requires n <= |log|
  {
    var m := Start(turn, log, n, call);
    (if m > 0 then log[m - 1].body.output.value else "") + Deltas(turn, log, m, n, call)
  }

  /** The call whose changes a files.changed event brings: this turn's of that id, else the latest. */
  ghost function Changed(turn: int, log: seq<Event>, i: nat): Option<Call>
    requires i < |log| && log[i].body.FilesChanged?
  {
    var id := log[i].body.toolCallId;
    if id == "" then None
    else if First(turn, log, i, (Counter(turn, log, i), id)).Some? then Some((Counter(turn, log, i), id))
    else Latest(turn, log, i, id)
  }

  /** The last changes brought for a call. */
  ghost function Patch(turn: int, log: seq<Event>, n: nat, call: Call): Option<string>
    requires n <= |log|
  {
    if n == 0 then None
    else if log[n - 1].body.FilesChanged? && Changed(turn, log, n - 1) == Some(call) then Some(log[n - 1].body.patch)
    else Patch(turn, log, n - 1, call)
  }

  // ---- lanes ----

  /** The card that names `parent` nests in; None: the log itself. */
  ghost function Lane(turn: int, log: seq<Event>, n: nat, parent: string): (lane: Option<Call>)
    requires n <= |log|
    ensures lane.Some? ==> lane == Latest(turn, log, n, parent) && Card(turn, log, n, lane.value)
  {
    var call := Latest(turn, log, n, parent);
    if parent != "" && call.Some? && Card(turn, log, n, call.value) then call else None
  }

  /** The lane a text or a call is in. A call is not nested in itself. */
  ghost function LaneOf(turn: int, log: seq<Event>, i: nat): Option<Call>
    requires i < |log|
  {
    match log[i].body
    case Message(_, _, _, parent, _, _) => Lane(turn, log, i, parent)
    case Thought(_, parent) => Lane(turn, log, i, parent)
    case Tool(id, parent, _, _, _, _) =>
      var lane := Lane(turn, log, i, parent);
      if lane == Some((Counter(turn, log, i), id)) then None else lane
    case _ => None
  }

  /** Text after the event does not go on with text before it in the lane. */
  ghost predicate Breaks(turn: int, log: seq<Event>, i: nat, lane: Option<Call>)
    requires i < |log|
  {
    var e := log[i].body;
    if e.Tool? then LaneOf(turn, log, i) == lane
    else lane.None? && (e.Plan? || e.PermissionRequest? || e.ElicitationRequest? || e.TurnEnd?)
  }

  /** The last text of a lane, if nothing broke off after it. */
  ghost function Last(turn: int, log: seq<Event>, n: nat, lane: Option<Call>): (i: Option<nat>)
    requires n <= |log|
    ensures i.Some? ==> i.value < n && IsText(log[i.value].body) && LaneOf(turn, log, i.value) == lane
    ensures i.Some? ==> forall j :: i.value < j < n ==>
      !Breaks(turn, log, j, lane) && !(IsText(log[j].body) && LaneOf(turn, log, j) == lane)
  {
    if n == 0 || Breaks(turn, log, n - 1, lane) then None
    else if IsText(log[n - 1].body) && LaneOf(turn, log, n - 1) == lane then Some(n - 1)
    else Last(turn, log, n - 1, lane)
  }

  /** A text goes on with the one before it: thoughts with thoughts, messages with those of the same role and id; one
      with files or taken in mid-turn stands alone. */
  predicate Joins(a: Body, b: Body) {
    || (a.Thought? && b.Thought?)
    || (a.Message? && b.Message? && a.role == b.role && a.mid == b.mid && a.files.None? && b.files.None? && !a.steered
        && !b.steered)
  }

  /** The text that begins the run of text i. */
  ghost function Head(turn: int, log: seq<Event>, i: nat): (h: nat)
    requires i < |log| && IsText(log[i].body)
    ensures h <= i && IsText(log[h].body) && LaneOf(turn, log, h) == LaneOf(turn, log, i)
    ensures h != i ==> Joins(log[h].body, log[i].body)
  {
    var before := Last(turn, log, i, LaneOf(turn, log, i));
    if before.Some? && Joins(log[before.value].body, log[i].body) then Head(turn, log, before.value) else i
  }

  /** The texts of the run that text h begins, one after the other. */
  ghost function Run(turn: int, log: seq<Event>, n: nat, h: nat): string
    requires n <= |log|
  {
    if n == 0 then ""
    else
      var e := log[n - 1].body;
      Run(turn, log, n - 1, h) + (if IsText(e) && Head(turn, log, n - 1) == h then e.text else "")
  }

  // ---- asks and plans ----

  predicate Asks(a: Body, b: Body) {
    || (a.PermissionRequest? && b.PermissionRequest? && a.pid == b.pid)
    || (a.ElicitationRequest? && b.ElicitationRequest? && a.eid == b.eid)
  }

  predicate Answers(a: Body, b: Body) {
    || (a.PermissionRequest? && b.PermissionResolved? && a.pid == b.pid)
    || (a.ElicitationRequest? && b.ElicitationResolved? && a.eid == b.eid)
  }

  /** The last answer to a request, before one of the same id comes again. */
  ghost function Answer(log: seq<Event>, n: nat, i: nat): Option<string>
    requires i < n <= |log|
  {
    if n == i + 1 then None
    else if Answers(log[i].body, log[n - 1].body) && !Repeated(log, i, n - 1) then Some(log[n - 1].body.answer)
    else Answer(log, n - 1, i)
  }

  ghost predicate Repeated(log: seq<Event>, i: nat, n: nat)
    requires i < n <= |log|
  {
    exists j :: i < j < n && Asks(log[i].body, log[j].body)
  }

  /** The event that opened the plan of the current turn. */
  ghost function PlanFirst(log: seq<Event>, n: nat): (i: Option<nat>)
    requires n <= |log|
    ensures i.Some? ==> i.value < n && log[i.value].body.Plan?
  {
    if n == 0 || log[n - 1].body.TurnEnd? then None
    else if PlanFirst(log, n - 1).None? && log[n - 1].body.Plan? then Some(n - 1)
    else PlanFirst(log, n - 1)
  }

  /** The entries a plan was last given. */
  ghost function Entries(log: seq<Event>, n: nat, i: nat): string
    requires i < n <= |log| && log[i].body.Plan?
  {
    if n == i + 1 || (log[n - 1].body.Plan? && PlanFirst(log, n) == Some(i)) then log[n - 1].body.entries
    else Entries(log, n - 1, i)
  }

  predicate Requests(b: Body, id: string, permission: bool) {
    if permission then b.PermissionRequest? && b.pid == id else b.ElicitationRequest? && b.eid == id
  }

  /** The latest request with an id. */
  ghost function Asked(log: seq<Event>, n: nat, id: string, permission: bool): (i: Option<nat>)
    requires n <= |log|
    ensures i.Some? ==> i.value < n && Requests(log[i.value].body, id, permission)
    ensures forall j :: (if i.Some? then i.value + 1 else 0) <= j < n ==> !Requests(log[j].body, id, permission)
  {
    if n == 0 then None
    else if Requests(log[n - 1].body, id, permission) then Some(n - 1)
    else Asked(log, n - 1, id, permission)
  }

  // ---- places ----

  /** The event opens a block: the first text of a run, the first event of a call, the first plan of a turn, and every
      request, end of a turn, notice and turn's changes. */
  ghost predicate Opens(turn: int, log: seq<Event>, i: nat)
    requires i < |log|
  {
    match log[i].body
    case Message(_, _, _, _, _, _) => Head(turn, log, i) == i
    case Thought(_, _) => Head(turn, log, i) == i
    case Tool(id, _, _, _, _, _) => First(turn, log, i, (Counter(turn, log, i), id)).None?
    case Plan(_) => PlanFirst(log, i).None?
    case FilesChanged(id, _, _) => id == ""
    case PermissionRequest(_, _) => true
    case ElicitationRequest(_, _) => true
    case TurnEnd(_, _) => true
    case Notice(_) => true
    case _ => false
  }

  /** What a card holds: the blocks opened in it, in order. */
  ghost function Inside(turn: int, log: seq<Event>, n: nat, call: Call): seq<Key>
    requires n <= |log|
  {
    if n == 0 then []
    else
      Inside(turn, log, n - 1, call)
      + if Opens(turn, log, n - 1) && LaneOf(turn, log, n - 1) == Some(call) then [log[n - 1].sn] else []
  }

  predicate Ends(b: Body, ended: Option<nat>) { b.TurnEnd? && b.turn == ended }

  /** Where a turn's changes go among the rows: before the turn's last end, or behind them all. */
  ghost function Slot(log: seq<Event>, rows: seq<nat>, ended: Option<nat>): (at: nat)
    requires forall j :: 0 <= j < |rows| ==> rows[j] < |log|
    ensures at <= |rows| && (at < |rows| ==> Ends(log[rows[at]].body, ended))
    ensures forall j :: (if at < |rows| then at + 1 else 0) <= j < |rows| ==> !Ends(log[rows[j]].body, ended)
  {
    if rows == [] then 0
    else
      var front := rows[..|rows| - 1];
      if Ends(log[rows[|rows| - 1]].body, ended) then |rows| - 1
      else if Slot(log, front, ended) < |front| then Slot(log, front, ended) else |rows|
  }

  /** The rows of the log, by the events that opened them: in order, but for turns' changes. */
  ghost function Rows(turn: int, log: seq<Event>, n: nat): (rows: seq<nat>)
    requires n <= |log|
    ensures forall j :: 0 <= j < |rows| ==> rows[j] < n && Opens(turn, log, rows[j]) && LaneOf(turn, log, rows[j]).None?
  {
    if n == 0 then []
    else
      var rows := Rows(turn, log, n - 1);
      if !Opens(turn, log, n - 1) || LaneOf(turn, log, n - 1).Some? then rows
      else if log[n - 1].body.FilesChanged? then
        var at := Slot(log, rows, log[n - 1].body.turn);
        rows[..at] + [n - 1] + rows[at..]
      else rows + [n - 1]
  }
}
