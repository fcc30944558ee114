/** A fold shows what its log says: every block, at every point of every log. */
module FoldContents {
  import opened Options
  import opened FoldSpec
  import opened FoldLog
  import opened FoldEffects

  // ---- what the blocks hold ----

  ghost predicate Distinct(log: seq<Event>) { forall i, j :: 0 <= i < j < |log| ==> log[i].sn != log[j].sn }

  ghost function KeyAt(log: seq<Event>, i: Option<nat>): Option<Key>
    requires i.Some? ==> i.value < |log|
  {
    if i.Some? then Some(log[i.value].sn) else None
  }

  ghost function CallKey(turn: int, log: seq<Event>, n: nat, call: Option<Call>): Option<Key>
    requires n <= |log|
  {
    if call.Some? then KeyAt(log, First(turn, log, n, call.value)) else None
  }

  ghost function TextKey(turn: int, log: seq<Event>, n: nat, lane: Option<Call>): Option<Key>
    requires n <= |log|
  {
    var i := Last(turn, log, n, lane);
    if i.Some? then Some(log[Head(turn, log, i.value)].sn) else None
  }

  ghost predicate FieldsAre(fields: map<string, string>, turn: int, log: seq<Event>, n: nat, call: Call)
    requires n <= |log|
  {
    forall x :: Given(turn, log, n, call, x) == if x in fields then Some(fields[x]) else None
  }

  ghost predicate CallIs(h: map<Key, Block>, turn: int, log: seq<Event>, n: nat, call: Call)
    requires n <= |log|
  {
    var i := First(turn, log, n, call);
    i.Some? ==>
      var k := log[i.value].sn;
      && k in h && h[k].c.ToolBlock? && h[k].up == CallKey(turn, log, n, LaneOf(turn, log, i.value))
      && h[k].c.id == call.1 && h[k].c.t0 == log[i.value].ts
      && h[k].c.output == Output(turn, log, n, call) && FieldsAre(h[k].c.fields, turn, log, n, call)
      && h[k].c.diff == Patch(turn, log, n, call)
      && (h[k].c.children.Some? <==> Card(turn, log, n, call))
  }

  ghost predicate TextIs(h: map<Key, Block>, turn: int, log: seq<Event>, n: nat, i: nat)
    requires i < n <= |log| && IsText(log[i].body)
  {
    var head := Head(turn, log, i);
    var k := log[head].sn;
    && k in h && h[k].up == CallKey(turn, log, n, LaneOf(turn, log, i))
    && match log[head].body
       case Message(role, _, mid, _, files, steered) =>
         h[k].c == MsgBlock(role, mid, Run(turn, log, n, head), files, steered)
       case Thought(_, _) => h[k].c == ThoughtBlock(Run(turn, log, n, head), log[head].ts, 0, false)
  }

  ghost predicate OtherIs(h: map<Key, Block>, log: seq<Event>, n: nat, i: nat)
    requires i < n <= |log|
  {
    var k := log[i].sn;
    match log[i].body
    case PermissionRequest(pid, ask) => k in h && h[k].c == AskBlock(pid, ask, Answer(log, n, i))
    case ElicitationRequest(eid, ask) => k in h && h[k].c == AskBlock(eid, ask, Answer(log, n, i))
    case Plan(_) =>
      PlanFirst(log, i).None? ==> k in h && h[k].c == PlanBlock(Entries(log, n, i))
    case TurnEnd(ended, stop) => k in h && h[k].c == TurnBlock(ended, stop)
    case Notice(text) => k in h && h[k].c == NoticeBlock(text)
    case FilesChanged(id, ended, patch) => id == "" ==> k in h && h[k].c == ChangesBlock(ended, patch)
    case _ => true
  }

  // ---- the invariant ----

  ghost predicate CallsFiled(f: Fold, turn: int, log: seq<Event>, n: nat)
    requires n <= |log|
  {
    && (forall call :: Find(f.tools, call) == CallKey(turn, log, n, Some(call)))
    && forall id :: Find(f.byId, id) == CallKey(turn, log, n, Latest(turn, log, n, id))
  }

  ghost predicate AsksFiled(f: Fold, log: seq<Event>, n: nat)
    requires n <= |log|
  {
    && (forall id :: Find(f.perms, id) == KeyAt(log, Asked(log, n, id, true)))
    && forall id :: Find(f.asks, id) == KeyAt(log, Asked(log, n, id, false))
  }

  ghost predicate KeysFiled(f: Fold, log: seq<Event>, n: nat)
    requires n <= |log|
  {
    forall k :: k in f.heap ==> exists i :: 0 <= i < n && log[i].sn == k
  }

  ghost predicate Filed(f: Fold, turn: int, log: seq<Event>, n: nat)
    requires n <= |log|
  {
    && f.turn == Counter(turn, log, n) && f.plan == KeyAt(log, PlanFirst(log, n))
    && CallsFiled(f, turn, log, n) && AsksFiled(f, log, n) && KeysFiled(f, log, n)
  }

  ghost predicate Calls(h: map<Key, Block>, turn: int, log: seq<Event>, n: nat)
    requires n <= |log|
  {
    forall call :: CallIs(h, turn, log, n, call)
  }

  ghost predicate Curs(h: map<Key, Block>, turn: int, log: seq<Event>, n: nat)
    requires n <= |log|
  {
    forall call :: CallCur(h, turn, log, n, call)
  }

  ghost predicate CallCur(h: map<Key, Block>, turn: int, log: seq<Event>, n: nat, call: Call)
    requires n <= |log|
  {
    var k := CallKey(turn, log, n, Some(call));
    k.Some? && k.value in h && h[k.value].c.ToolBlock? ==> h[k.value].c.cur == TextKey(turn, log, n, Some(call))
  }

  ghost predicate Texts(h: map<Key, Block>, turn: int, log: seq<Event>, n: nat)
    requires n <= |log|
  {
    forall i :: 0 <= i < n && IsText(log[i].body) ==> TextIs(h, turn, log, n, i)
  }

  ghost predicate Others(h: map<Key, Block>, log: seq<Event>, n: nat)
    requires n <= |log|
  {
    forall i :: 0 <= i < n ==> OtherIs(h, log, n, i)
  }

  ghost predicate Inv(f: Fold, turn: int, log: seq<Event>, n: nat)
    requires n <= |log|
  {
    var h := Plains(f.heap);
    && Filed(f, turn, log, n) && Calls(h, turn, log, n)
    && f.cur == TextKey(turn, log, n, None) && Curs(h, turn, log, n)
    && Texts(h, turn, log, n) && Others(h, log, n)
  }

  // ---- what an event leaves alone ----

  ghost predicate CallsKept(h: map<Key, Block>, h': map<Key, Block>) {
    forall k :: k in h && h[k].c.ToolBlock? ==>
      && k in h' && h'[k].c.ToolBlock? && h'[k].up == h[k].up
      && h'[k].c == h[k].c.(cur := h'[k].c.cur, children := h'[k].c.children)
      && (h'[k].c.children.Some? <==> h[k].c.children.Some?)
  }

  ghost predicate CursKept(h: map<Key, Block>, h': map<Key, Block>) {
    forall k :: k in h && h[k].c.ToolBlock? && k in h' && h'[k].c.ToolBlock? ==> h'[k].c.cur == h[k].c.cur
  }

  ghost predicate TextsKept(h: map<Key, Block>, h': map<Key, Block>) {
    forall k :: k in h && (h[k].c.MsgBlock? || h[k].c.ThoughtBlock?) ==> k in h' && h'[k] == h[k]
  }

  ghost predicate OthersKept(h: map<Key, Block>, h': map<Key, Block>) {
    forall k :: k in h && !h[k].c.MsgBlock? && !h[k].c.ThoughtBlock? && !h[k].c.ToolBlock? ==> k in h' && h'[k] == h[k]
  }

  lemma LaneKeyStays(turn: int, log: seq<Event>, n: nat, i: nat)
    requires i < n < |log|
    ensures CallKey(turn, log, n + 1, LaneOf(turn, log, i)) == CallKey(turn, log, n, LaneOf(turn, log, i))
  {
    var lane := LaneOf(turn, log, i);
    if lane.Some? { FirstStays(turn, log, i, n, lane.value); }
  }

  lemma {:induction false} FirstStays(turn: int, log: seq<Event>, i: nat, n: nat, call: Call)
    requires i <= n <= |log| && First(turn, log, i, call).Some?
    ensures First(turn, log, n, call) == First(turn, log, i, call)
  {
    if i < n { FirstStays(turn, log, i, n - 1, call); }
  }

  lemma KeepCalls(h: map<Key, Block>, h': map<Key, Block>, turn: int, log: seq<Event>, n: nat)
    requires n < |log| && Calls(h, turn, log, n) && CallsKept(h, h') && !log[n].body.Tool?
    requires log[n].body.FilesChanged? ==> Changed(turn, log, n).None?
    ensures Calls(h', turn, log, n + 1)
  {
    var m := n + 1;
    forall call ensures CallIs(h', turn, log, m, call) {
      assert CallIs(h, turn, log, n, call);
      var i := First(turn, log, n, call);
      if i.Some? {
        LaneKeyStays(turn, log, n, i.value);
        QuietCall(turn, log, n, call);
      }
    }
  }

  /** An event that is not of a call changes nothing of what its events amount to. */
  lemma QuietCall(turn: int, log: seq<Event>, n: nat, call: Call)
    requires n < |log| && !OfCall(turn, log, n, call)
    ensures First(turn, log, n + 1, call) == First(turn, log, n, call)
    ensures Output(turn, log, n + 1, call) == Output(turn, log, n, call)
    ensures forall x :: Given(turn, log, n + 1, call, x) == Given(turn, log, n, call, x)
    ensures Card(turn, log, n + 1, call) == Card(turn, log, n, call)
  {
    assert Deltas(turn, log, Start(turn, log, n, call), n + 1, call)
      == Deltas(turn, log, Start(turn, log, n, call), n, call) + "";
  }

  lemma KeepTexts(h: map<Key, Block>, h': map<Key, Block>, turn: int, log: seq<Event>, n: nat)
    requires n < |log| && Texts(h, turn, log, n) && TextsKept(h, h') && !IsText(log[n].body)
    ensures Texts(h', turn, log, n + 1)
  {
    hide TextIs;
    var m := n + 1;
    forall i | 0 <= i < m && IsText(log[i].body) ensures TextIs(h', turn, log, m, i) {
      KeepText(h, h', turn, log, n, i);
    }
  }

  lemma KeepText(h: map<Key, Block>, h': map<Key, Block>, turn: int, log: seq<Event>, n: nat, i: nat)
    requires i < n < |log| && IsText(log[i].body) && TextIs(h, turn, log, n, i) && TextsKept(h, h')
    requires !(IsText(log[n].body) && Head(turn, log, n) == Head(turn, log, i))
    ensures TextIs(h', turn, log, n + 1, i)
  {
    hide Head, CallKey, Run, LaneOf;
    LaneKeyStays(turn, log, n, i);
    QuietRun(turn, log, n, Head(turn, log, i));
  }

  lemma QuietRun(turn: int, log: seq<Event>, n: nat, head: nat)
    requires n < |log| && !(IsText(log[n].body) && Head(turn, log, n) == head)
    ensures Run(turn, log, n + 1, head) == Run(turn, log, n, head)
  {
    assert Run(turn, log, n + 1, head) == Run(turn, log, n, head) + "";
  }

  lemma KeepOthers(h: map<Key, Block>, h': map<Key, Block>, log: seq<Event>, n: nat)
    requires n < |log| && Others(h, log, n) && OthersKept(h, h')
    requires var e := log[n].body; !e.Plan? && !e.PermissionResolved? && !e.ElicitationResolved?
    requires OtherIs(h', log, n + 1, n)
    ensures Others(h', log, n + 1)
  {
    var m := n + 1;
    forall i | 0 <= i < m ensures OtherIs(h', log, m, i) {
      if i < n { assert OtherIs(h, log, n, i); }
    }
  }

  lemma KeepCurs(h: map<Key, Block>, h': map<Key, Block>, turn: int, log: seq<Event>, n: nat)
    requires n < |log| && Calls(h, turn, log, n) && Curs(h, turn, log, n) && CallsKept(h, h') && CursKept(h, h')
    requires !log[n].body.Tool? && !IsText(log[n].body)
    ensures Curs(h', turn, log, n + 1)
  {
    hide CallIs, CallKey, Last, First, Head;
    var m := n + 1;
    forall call ensures CallCur(h', turn, log, m, call) {
      assert CallCur(h, turn, log, n, call);
      CallThere(h, turn, log, n, call);
      CallStays(turn, log, n, call);
      QuietLane(turn, log, n, Some(call));
    }
  }

  lemma CallThere(h: map<Key, Block>, turn: int, log: seq<Event>, n: nat, call: Call)
    requires n <= |log| && Calls(h, turn, log, n)
    ensures var k := CallKey(turn, log, n, Some(call)); k.Some? ==> k.value in h && h[k.value].c.ToolBlock?
  {
    assert CallIs(h, turn, log, n, call);
  }

  lemma CallStays(turn: int, log: seq<Event>, n: nat, call: Call)
    requires n < |log| && !OfCall(turn, log, n, call)
    ensures CallKey(turn, log, n + 1, Some(call)) == CallKey(turn, log, n, Some(call))
  {
  }

  /** A lane goes on with what it did before an event that neither writes in it nor breaks it off. */
  lemma QuietLane(turn: int, log: seq<Event>, n: nat, lane: Option<Call>)
    requires n < |log| && !Breaks(turn, log, n, lane) && !(IsText(log[n].body) && LaneOf(turn, log, n) == lane)
    ensures TextKey(turn, log, n + 1, lane) == TextKey(turn, log, n, lane)
  {
  }

  // ---- what an event resolves to ----

  lemma LaneIsBox(f: Fold, turn: int, log: seq<Event>, n: nat, parent: string)
    requires n <= |log| && Filed(f, turn, log, n) && Calls(Plains(f.heap), turn, log, n)
    ensures Box(f, parent) == CallKey(turn, log, n, Lane(turn, log, n, parent))
  {
    var call := Latest(turn, log, n, parent);
    assert Find(f.byId, parent) == CallKey(turn, log, n, call);
    if call.Some? {
      assert CallIs(Plains(f.heap), turn, log, n, call.value);
      var k := CallKey(turn, log, n, call).value;
      assert Plains(f.heap)[k] == Plain(f.heap[k]);
    }
  }

  lemma LaneGoesOn(f: Fold, turn: int, log: seq<Event>, n: nat, lane: Option<Call>)
    requires n <= |log| && Calls(Plains(f.heap), turn, log, n) && Curs(Plains(f.heap), turn, log, n)
    requires f.cur == TextKey(turn, log, n, None)
    requires lane.Some? ==> First(turn, log, n, lane.value).Some?
    ensures Cur(f, CallKey(turn, log, n, lane)) == TextKey(turn, log, n, lane)
  {
    if lane.Some? {
      assert CallIs(Plains(f.heap), turn, log, n, lane.value) && CallCur(Plains(f.heap), turn, log, n, lane.value);
      var k := CallKey(turn, log, n, lane).value;
      assert Plains(f.heap)[k] == Plain(f.heap[k]);
    }
  }

  lemma TextGoesOn(f: Fold, turn: int, log: seq<Event>, n: nat, lane: Option<Call>, e: Body)
    requires n <= |log| && Texts(Plains(f.heap), turn, log, n) && IsText(e)
    ensures var i := Last(turn, log, n, lane);
      Continues(At(f, TextKey(turn, log, n, lane)), e) <==> i.Some? && Joins(log[i.value].body, e)
  {
    hide Head, Run, CallKey, LaneOf, Last;
    var i := Last(turn, log, n, lane);
    if i.Some? {
      assert TextIs(Plains(f.heap), turn, log, n, i.value);
      var k := log[Head(turn, log, i.value)].sn;
      assert Plains(f.heap)[k] == Plain(f.heap[k]);
    }
  }

  lemma KeepCallsFiled(f: Fold, f': Fold, turn: int, log: seq<Event>, n: nat)
    requires n < |log| && CallsFiled(f, turn, log, n) && f'.tools == f.tools && f'.byId == f.byId && !log[n].body.Tool?
    ensures CallsFiled(f', turn, log, n + 1)
  {
    var m := n + 1;
    forall call ensures Find(f'.tools, call) == CallKey(turn, log, m, Some(call)) {
      assert Find(f.tools, call) == CallKey(turn, log, n, Some(call));
    }
    forall id ensures Find(f'.byId, id) == CallKey(turn, log, m, Latest(turn, log, m, id)) {
      assert Find(f.byId, id) == CallKey(turn, log, n, Latest(turn, log, n, id));
    }
  }

  lemma KeepAsksFiled(f: Fold, f': Fold, log: seq<Event>, n: nat)
    requires n < |log| && AsksFiled(f, log, n)
    requires match log[n].body
             case PermissionRequest(pid, _) => f'.perms == f.perms[pid := log[n].sn] && f'.asks == f.asks
             case ElicitationRequest(eid, _) => f'.perms == f.perms && f'.asks == f.asks[eid := log[n].sn]
             case _ => f'.perms == f.perms && f'.asks == f.asks
    ensures AsksFiled(f', log, n + 1)
  {
    var m := n + 1;
    forall id ensures Find(f'.perms, id) == KeyAt(log, Asked(log, m, id, true)) {
      assert Find(f.perms, id) == KeyAt(log, Asked(log, n, id, true));
    }
    forall id ensures Find(f'.asks, id) == KeyAt(log, Asked(log, m, id, false)) {
      assert Find(f.asks, id) == KeyAt(log, Asked(log, n, id, false));
    }
  }

  lemma KeepKeysFiled(f: Fold, f': Fold, log: seq<Event>, n: nat)
    requires n < |log| && KeysFiled(f, log, n)
    requires forall k :: k in Plains(f'.heap) ==> k in Plains(f.heap) || k == log[n].sn
    ensures KeysFiled(f', log, n + 1)
  {
    forall k | k in f'.heap ensures exists i :: 0 <= i < n + 1 && log[i].sn == k {
      assert k in Plains(f'.heap);
      if k == log[n].sn { assert log[n].sn == k; }
      else {
        assert k in f.heap;
        var i :| 0 <= i < n && log[i].sn == k;
        assert log[i].sn == k;
      }
    }
  }

  lemma KeepFiled(f: Fold, f': Fold, turn: int, log: seq<Event>, n: nat)
    requires n < |log| && Filed(f, turn, log, n)
    requires f' == f.(heap := f'.heap, cur := f'.cur, blocks := f'.blocks, lastSeq := f'.lastSeq)
    requires forall k :: k in Plains(f'.heap) ==> k in Plains(f.heap) || k == log[n].sn
    requires var e := log[n].body;
      !e.Tool? && !e.Plan? && !e.PermissionRequest? && !e.ElicitationRequest? && !e.TurnEnd?
    ensures Filed(f', turn, log, n + 1)
  {
    KeepCallsFiled(f, f', turn, log, n);
    KeepAsksFiled(f, f', log, n);
    KeepKeysFiled(f, f', log, n);
  }

  lemma FreshKey(f: Fold, turn: int, log: seq<Event>, n: nat)
    requires n < |log| && Distinct(log) && Filed(f, turn, log, n)
    ensures log[n].sn !in f.heap && log[n].sn !in Plains(f.heap)
  {
  }

  // ---- text ----

  lemma TextResolves(f: Fold, turn: int, log: seq<Event>, n: nat, parent: string)
    requires n < |log| && Inv(f, turn, log, n) && IsText(log[n].body) && log[n].body.parent == parent
    ensures var into, lane := Box(f, parent), LaneOf(turn, log, n);
      var i := Last(turn, log, n, lane);
      && into == CallKey(turn, log, n, lane) && (lane.Some? <==> into.Some?)
      && Cur(f, into) == TextKey(turn, log, n, lane)
      && (Continues(At(f, Cur(f, into)), log[n].body) <==> i.Some? && Joins(log[i.value].body, log[n].body))
  {
    hide TextKey, Last, First, Box, Cur, Continues, Joins, Plains, Calls, Curs, Texts, Others, CallKey;
    LaneKnown(turn, log, n, LaneOf(turn, log, n));
    LaneIsBox(f, turn, log, n, parent);
    LaneGoesOn(f, turn, log, n, LaneOf(turn, log, n));
    TextGoesOn(f, turn, log, n, LaneOf(turn, log, n), log[n].body);
  }

  lemma TextStep(f: Fold, turn: int, log: seq<Event>, n: nat, parent: string)
    requires n < |log| && Distinct(log) && Inv(f, turn, log, n) && IsText(log[n].body) && log[n].body.parent == parent
    ensures Inv(PushText(f, log[n], parent), turn, log, n + 1)
  {
    hide PushText, Continues, Box, Cur, Plains, LaneOf, Last, Head, Joins, CallKey, Calls, Curs, Texts, Others,
      CallsFiled, AsksFiled, KeysFiled;
    var e, h, f' := log[n], Plains(f.heap), PushText(f, log[n], parent);
    var lane := LaneOf(turn, log, n);
    var into := Box(f, parent);
    FreshKey(f, turn, log, n);
    TextResolves(f, turn, log, n, parent);
    TextEffect(f, e, parent);
    WithKeys(h);
    KeepFiled(f, f', turn, log, n);
    if Continues(At(f, Cur(f, into)), e.body) {
      GoesOnStep(h, f.cur, turn, log, n, lane, Plains(f'.heap));
    } else {
      OpensStep(h, f.cur, turn, log, n, lane, Plains(f'.heap), f'.cur);
    }
  }

  lemma GoesOnStep(h: map<Key, Block>, cur: Option<Key>, turn: int, log: seq<Event>, n: nat, lane: Option<Call>,
                   h': map<Key, Block>)
    requires n < |log| && Distinct(log) && IsText(log[n].body) && lane == LaneOf(turn, log, n)
    requires Calls(h, turn, log, n) && cur == TextKey(turn, log, n, None) && Curs(h, turn, log, n)
      && Texts(h, turn, log, n) && Others(h, log, n)
    requires var i := Last(turn, log, n, lane);
      && i.Some? && Joins(log[i.value].body, log[n].body)
      && var c := log[Head(turn, log, i.value)].sn;
         && c in h && (h[c].c.MsgBlock? || h[c].c.ThoughtBlock?)
         && h' == With(h, c, Longer(h[c].c, log[n].body.text))
    ensures Calls(h', turn, log, n + 1) && cur == TextKey(turn, log, n + 1, None) && Curs(h', turn, log, n + 1)
      && Texts(h', turn, log, n + 1) && Others(h', log, n + 1)
  {
    hide Calls, Texts, Others, Curs, CallsKept, CursKept, OthersKept, Last, Head, LaneOf, TextKey, With, Longer, Joins;
    GoesOnHead(turn, log, n);
    var c := log[Head(turn, log, n)].sn;
    LongerKept(h, h', c, Longer(h[c].c, log[n].body.text));
    KeepCalls(h, h', turn, log, n);
    KeepOthers(h, h', log, n);
    CursGoOn(h, h', turn, log, n, lane);
    if lane.Some? { QuietLane(turn, log, n, None); }
    TextsGoOn(h, h', turn, log, n);
  }

  lemma GoesOnHead(turn: int, log: seq<Event>, n: nat)
    requires n < |log| && IsText(log[n].body)
    requires var i := Last(turn, log, n, LaneOf(turn, log, n)); i.Some? && Joins(log[i.value].body, log[n].body)
    ensures Head(turn, log, n) == Head(turn, log, Last(turn, log, n, LaneOf(turn, log, n)).value) < n
    ensures var lane := LaneOf(turn, log, n); TextKey(turn, log, n + 1, lane) == TextKey(turn, log, n, lane)
  {
  }

  lemma LongerKept(h: map<Key, Block>, h': map<Key, Block>, c: Key, d: Content)
    requires c in h && (h[c].c.MsgBlock? || h[c].c.ThoughtBlock?) && h' == With(h, c, d)
    ensures CallsKept(h, h') && CursKept(h, h') && OthersKept(h, h')
  {
  }

  lemma NestKept(h: map<Key, Block>, h': map<Key, Block>, k: Key, c: Content, into: Option<Key>, cur: Option<Key>)
    requires k !in h && (into.Some? ==> IsCard(h, into.value)) && h' == Nest(h, k, c, into, cur)
    ensures CallsKept(h, h') && TextsKept(h, h') && OthersKept(h, h') && k in h' && h'[k] == Block(c, 0, into)
    ensures into.Some? ==> IsCard(h', into.value) && h'[into.value].c.cur == cur
    ensures forall j :: j in h && h[j].c.ToolBlock? && into != Some(j) ==> h'[j].c.cur == h[j].c.cur
  {
  }

  lemma CursGoOn(h: map<Key, Block>, h': map<Key, Block>, turn: int, log: seq<Event>, n: nat, lane: Option<Call>)
    requires n < |log| && Calls(h, turn, log, n) && Curs(h, turn, log, n) && CallsKept(h, h') && CursKept(h, h')
    requires IsText(log[n].body) && lane == LaneOf(turn, log, n)
    requires TextKey(turn, log, n + 1, lane) == TextKey(turn, log, n, lane)
    ensures Curs(h', turn, log, n + 1)
  {
    hide CallIs, CallKey, Last, First, Head, LaneOf, TextKey;
    var m := n + 1;
    forall call ensures CallCur(h', turn, log, m, call) {
      assert CallCur(h, turn, log, n, call);
      CallThere(h, turn, log, n, call);
      CallStays(turn, log, n, call);
      if lane != Some(call) { QuietLane(turn, log, n, Some(call)); }
    }
  }

  lemma TextsGoOn(h: map<Key, Block>, h': map<Key, Block>, turn: int, log: seq<Event>, n: nat)
    requires n < |log| && Distinct(log) && IsText(log[n].body) && Texts(h, turn, log, n)
    requires Head(turn, log, n) < n
    requires var c := log[Head(turn, log, n)].sn;
      && c in h && (h[c].c.MsgBlock? || h[c].c.ThoughtBlock?)
      && h' == With(h, c, Longer(h[c].c, log[n].body.text))
    ensures Texts(h', turn, log, n + 1)
  {
    hide Head, TextIs, With, Longer, LaneOf;
    var m, c := n + 1, log[Head(turn, log, n)].sn;
    WithElsewhere(h, c, Longer(h[c].c, log[n].body.text));
    forall i | 0 <= i < m && IsText(log[i].body) ensures TextIs(h', turn, log, m, i) {
      if Head(turn, log, i) == Head(turn, log, n) {
        TextGrown(h, h', turn, log, n, i);
      } else {
        assert TextIs(h, turn, log, n, i);
        KeepTextBut(h, h', turn, log, n, i, c);
      }
    }
  }

  lemma WithElsewhere(h: map<Key, Block>, c: Key, d: Content)
    requires c in h
    ensures forall k :: k in h && k != c ==> k in With(h, c, d) && With(h, c, d)[k] == h[k]
  {
  }

  lemma TextGrown(h: map<Key, Block>, h': map<Key, Block>, turn: int, log: seq<Event>, n: nat, i: nat)
    requires i <= n < |log| && IsText(log[n].body) && IsText(log[i].body) && Texts(h, turn, log, n)
    requires Head(turn, log, i) == Head(turn, log, n) < n
    requires var c := log[Head(turn, log, n)].sn;
      && c in h && (h[c].c.MsgBlock? || h[c].c.ThoughtBlock?)
      && h' == With(h, c, Longer(h[c].c, log[n].body.text))
    ensures TextIs(h', turn, log, n + 1, i)
  {
    var head := Head(turn, log, n);
    HeadOfHead(turn, log, n);
    hide Head, LaneOf, CallKey;
    assert TextIs(h, turn, log, n, head);
    LaneKeyStays(turn, log, n, head);
    assert Run(turn, log, n + 1, head) == Run(turn, log, n, head) + log[n].body.text;
  }

  lemma {:induction false} HeadOfHead(turn: int, log: seq<Event>, i: nat)
    requires i < |log| && IsText(log[i].body)
    ensures Head(turn, log, Head(turn, log, i)) == Head(turn, log, i)
  {
    var before := Last(turn, log, i, LaneOf(turn, log, i));
    if before.Some? && Joins(log[before.value].body, log[i].body) { HeadOfHead(turn, log, before.value); }
  }

  lemma KeepTextBut(h: map<Key, Block>, h': map<Key, Block>, turn: int, log: seq<Event>, n: nat, i: nat, c: Key)
    requires i < n < |log| && Distinct(log) && IsText(log[i].body) && TextIs(h, turn, log, n, i)
    requires forall k :: k in h && k != c ==> k in h' && h'[k] == h[k]
    requires log[Head(turn, log, i)].sn != c
    requires !(IsText(log[n].body) && Head(turn, log, n) == Head(turn, log, i))
    ensures TextIs(h', turn, log, n + 1, i)
  {
    hide Head, CallKey, Run, LaneOf;
    LaneKeyStays(turn, log, n, i);
    QuietRun(turn, log, n, Head(turn, log, i));
  }

  lemma OpensStep(h: map<Key, Block>, cur: Option<Key>, turn: int, log: seq<Event>, n: nat, lane: Option<Call>,
                  h': map<Key, Block>, cur': Option<Key>)
    requires n < |log| && Distinct(log) && IsText(log[n].body) && lane == LaneOf(turn, log, n) && log[n].sn !in h
    requires Calls(h, turn, log, n) && cur == TextKey(turn, log, n, None) && Curs(h, turn, log, n)
      && Texts(h, turn, log, n) && Others(h, log, n)
    requires var i := Last(turn, log, n, lane); !(i.Some? && Joins(log[i.value].body, log[n].body))
    requires var into := CallKey(turn, log, n, lane);
      && (into.Some? ==> IsCard(h, into.value))
      && h' == Nest(h, log[n].sn, TextBlock(log[n]), into, Some(log[n].sn))
      && cur' == if into.None? then Some(log[n].sn) else cur
    ensures Calls(h', turn, log, n + 1) && cur' == TextKey(turn, log, n + 1, None) && Curs(h', turn, log, n + 1)
      && Texts(h', turn, log, n + 1) && Others(h', log, n + 1)
  {
    hide Calls, Texts, Others, Curs, CallsKept, TextsKept, OthersKept, Nest, Last, Head, LaneOf, TextKey, CallKey;
    OpensHead(turn, log, n);
    NestKept(h, h', log[n].sn, TextBlock(log[n]), CallKey(turn, log, n, lane), Some(log[n].sn));
    LaneKnown(turn, log, n, lane);
    KeepCalls(h, h', turn, log, n);
    KeepOthers(h, h', log, n);
    if lane.Some? { QuietLane(turn, log, n, None); }
    CursOpen(h, h', turn, log, n, lane);
    TextsOpen(h, h', turn, log, n, lane);
  }

  lemma OpensHead(turn: int, log: seq<Event>, n: nat)
    requires n < |log| && IsText(log[n].body)
    requires var i := Last(turn, log, n, LaneOf(turn, log, n)); !(i.Some? && Joins(log[i.value].body, log[n].body))
    ensures Head(turn, log, n) == n && TextKey(turn, log, n + 1, LaneOf(turn, log, n)) == Some(log[n].sn)
  {
  }

  lemma LaneKnown(turn: int, log: seq<Event>, n: nat, lane: Option<Call>)
    requires n < |log| && lane == LaneOf(turn, log, n)
    ensures lane.Some? <==> CallKey(turn, log, n, lane).Some?
    ensures lane.Some? ==> First(turn, log, n, lane.value).Some?
  {
  }

  lemma CursOpen(h: map<Key, Block>, h': map<Key, Block>, turn: int, log: seq<Event>, n: nat, lane: Option<Call>)
    requires n < |log| && Calls(h, turn, log, n) && Curs(h, turn, log, n) && CallsKept(h, h') && Distinct(log)
    requires IsText(log[n].body) && lane == LaneOf(turn, log, n)
    requires TextKey(turn, log, n + 1, lane) == Some(log[n].sn)
    requires var into := CallKey(turn, log, n, lane);
      && (into.Some? ==> IsCard(h', into.value) && h'[into.value].c.cur == Some(log[n].sn))
      && forall k :: k in h && h[k].c.ToolBlock? && into != Some(k) ==> h'[k].c.cur == h[k].c.cur
    ensures Curs(h', turn, log, n + 1)
  {
    hide CallIs, Last, First, Head, LaneOf, TextKey;
    var m := n + 1;
    forall call ensures CallCur(h', turn, log, m, call) {
      assert CallCur(h, turn, log, n, call);
      CallThere(h, turn, log, n, call);
      CallStays(turn, log, n, call);
      if lane != Some(call) {
        QuietLane(turn, log, n, Some(call));
        if lane.Some? { KeysApart(turn, log, n, call, lane.value); }
      }
    }
  }

  lemma KeysApart(turn: int, log: seq<Event>, n: nat, a: Call, b: Call)
    requires n <= |log| && Distinct(log) && a != b
    ensures var k, j := CallKey(turn, log, n, Some(a)), CallKey(turn, log, n, Some(b)); k.Some? && j.Some? ==> k != j
  {
  }

  lemma TextsOpen(h: map<Key, Block>, h': map<Key, Block>, turn: int, log: seq<Event>, n: nat, lane: Option<Call>)
    requires n < |log| && Distinct(log) && IsText(log[n].body) && Texts(h, turn, log, n) && TextsKept(h, h')
    requires lane == LaneOf(turn, log, n) && Head(turn, log, n) == n
    requires log[n].sn in h' && h'[log[n].sn] == Block(TextBlock(log[n]), 0, CallKey(turn, log, n, lane))
    ensures Texts(h', turn, log, n + 1)
  {
    var m := n + 1;
    hide TextIs, TextBlock, CallKey, TextsKept, LaneOf;
    forall i | 0 <= i < m && IsText(log[i].body) ensures TextIs(h', turn, log, m, i) {
      if i < n {
        assert TextIs(h, turn, log, n, i);
        KeepText(h, h', turn, log, n, i);
      } else {
        TextOpened(h', turn, log, n);
      }
    }
  }

  lemma TextOpened(h': map<Key, Block>, turn: int, log: seq<Event>, n: nat)
    requires n < |log| && IsText(log[n].body) && Head(turn, log, n) == n
    requires log[n].sn in h'
      && h'[log[n].sn] == Block(TextBlock(log[n]), 0, CallKey(turn, log, n, LaneOf(turn, log, n)))
    ensures TextIs(h', turn, log, n + 1, n)
  {
    var lane := LaneOf(turn, log, n);
    NothingRun(turn, log, n, n);
    LaneKnown(turn, log, n, lane);
    if lane.Some? { FirstStays(turn, log, n, n + 1, lane.value); }
    hide Head, LaneOf, First;
    assert Run(turn, log, n + 1, n) == "" + log[n].body.text;
  }

  lemma {:induction false} NothingRun(turn: int, log: seq<Event>, n: nat, head: nat)
    requires n <= head && n <= |log|
    ensures Run(turn, log, n, head) == ""
  {
    if n > 0 { NothingRun(turn, log, n - 1, head); }
  }

  // ---- events that only open a block ----

  lemma TopKept(h: map<Key, Block>, k: Key, c: Content)
    requires k !in h
    ensures var h' := h[k := Block(c, 0, None)];
      CallsKept(h, h') && CursKept(h, h') && TextsKept(h, h') && OthersKept(h, h') && h'[k].c == c
  {
  }

  /** An event that is neither a text nor of a call. */
  lemma OtherStep(f: Fold, f': Fold, turn: int, log: seq<Event>, n: nat)
    requires n < |log| && Inv(f, turn, log, n) && Filed(f', turn, log, n + 1)
    requires !log[n].body.Tool? && !IsText(log[n].body)
    requires log[n].body.FilesChanged? ==> Changed(turn, log, n).None?
    requires var h, h' := Plains(f.heap), Plains(f'.heap); CallsKept(h, h') && CursKept(h, h') && TextsKept(h, h')
    requires Others(Plains(f'.heap), log, n + 1) && f'.cur == TextKey(turn, log, n + 1, None)
    ensures Inv(f', turn, log, n + 1)
  {
    hide Filed, Calls, Curs, Texts, Others, CallsKept, CursKept, TextsKept, TextKey, Plains;
    var h, h' := Plains(f.heap), Plains(f'.heap);
    KeepCalls(h, h', turn, log, n);
    KeepCurs(h, h', turn, log, n);
    KeepTexts(h, h', turn, log, n);
  }

  /** An event that opens a block of its own in the log, or does nothing. */
  lemma OpensOther(f: Fold, f': Fold, turn: int, log: seq<Event>, n: nat)
    requires n < |log| && Inv(f, turn, log, n) && Filed(f', turn, log, n + 1)
    requires var e := log[n].body;
      !e.Tool? && !IsText(e) && !e.Plan? && !e.PermissionResolved? && !e.ElicitationResolved?
    requires log[n].body.FilesChanged? ==> Changed(turn, log, n).None?
    requires var h, h' := Plains(f.heap), Plains(f'.heap);
      CallsKept(h, h') && CursKept(h, h') && TextsKept(h, h') && OthersKept(h, h') && OtherIs(h', log, n + 1, n)
    requires f'.cur == TextKey(turn, log, n + 1, None)
    ensures Inv(f', turn, log, n + 1)
  {
    hide Filed, Calls, Curs, Texts, Others, CallsKept, CursKept, TextsKept, OthersKept, OtherIs, TextKey, Plains;
    KeepOthers(Plains(f.heap), Plains(f'.heap), log, n);
    OtherStep(f, f', turn, log, n);
  }

  lemma NoticeStep(f: Fold, turn: int, log: seq<Event>, n: nat)
    requires n < |log| && Distinct(log) && Inv(f, turn, log, n) && log[n].body.Notice?
    ensures Inv(Open(f, log[n].sn, NoticeBlock(log[n].body.text), None), turn, log, n + 1)
  {
    var e, f' := log[n], Open(f, log[n].sn, NoticeBlock(log[n].body.text), None);
    FreshKey(f, turn, log, n);
    OpenPlain(f, e.sn, NoticeBlock(e.body.text), None);
    hide Open, Plains, TextKey;
    TopKept(Plains(f.heap), e.sn, NoticeBlock(e.body.text));
    KeepFiled(f, f', turn, log, n);
    QuietLane(turn, log, n, None);
    OpensOther(f, f', turn, log, n);
  }

  lemma NothingStep(f: Fold, turn: int, log: seq<Event>, n: nat)
    requires n < |log| && Distinct(log) && Inv(f, turn, log, n) && (log[n].body.Status? || log[n].body.Queue?)
    ensures Inv(f, turn, log, n + 1)
  {
    hide TextKey;
    KeepFiled(f, f, turn, log, n);
    QuietLane(turn, log, n, None);
    OpensOther(f, f, turn, log, n);
  }

  lemma TurnStep(f: Fold, turn: int, log: seq<Event>, n: nat)
    requires n < |log| && Distinct(log) && Inv(f, turn, log, n) && log[n].body.TurnEnd?
    ensures Inv(Route(f, log[n]), turn, log, n + 1)
  {
    hide Open, Plains, Calls, Curs, Texts, Others, CallsFiled, AsksFiled, KeysFiled, CallsKept, CursKept, TextsKept,
      OthersKept;
    var e, f' := log[n], Route(f, log[n]);
    var c := TurnBlock(e.body.turn, e.body.stop);
    var f1 := f.(cur := None, plan := None, turn := NextTurn(f.turn, e.body.turn));
    FreshKey(f, turn, log, n);
    OpenPlain(f1, e.sn, c, None);
    TopKept(Plains(f.heap), e.sn, c);
    KeepCallsFiled(f, f', turn, log, n);
    KeepAsksFiled(f, f', log, n);
    KeepKeysFiled(f, f', log, n);
    OpensOther(f, f', turn, log, n);
  }

  lemma RequestStep(f: Fold, turn: int, log: seq<Event>, n: nat)
    requires n < |log| && Distinct(log) && Inv(f, turn, log, n)
    requires log[n].body.PermissionRequest? || log[n].body.ElicitationRequest?
    ensures Inv(Route(f, log[n]), turn, log, n + 1)
  {
    hide Open, Plains, Calls, Curs, Texts, Others, CallsFiled, AsksFiled, KeysFiled, CallsKept, CursKept, TextsKept,
      OthersKept;
    var e, f' := log[n], Route(f, log[n]);
    FreshKey(f, turn, log, n);
    var c := AskBlock(if e.body.PermissionRequest? then e.body.pid else e.body.eid, e.body.ask, None);
    var f1 := if e.body.PermissionRequest? then f.(cur := None, perms := f.perms[e.body.pid := e.sn])
              else f.(cur := None, asks := f.asks[e.body.eid := e.sn]);
    OpenPlain(f1, e.sn, c, None);
    assert f' == Open(f1, e.sn, c, None);
    TopKept(Plains(f.heap), e.sn, c);
    KeepCallsFiled(f, f', turn, log, n);
    KeepAsksFiled(f, f', log, n);
    KeepKeysFiled(f, f', log, n);
    OpensOther(f, f', turn, log, n);
  }

  // ---- answers, plans and changes ----

  /** What an event that writes to one block alone leaves alone. */
  lemma WithKept(h: map<Key, Block>, k: Key, c: Content)
    requires k in h
    ensures var d, h' := h[k].c, With(h, k, c);
      && (d.AskBlock? || d.PlanBlock? ==> CallsKept(h, h') && CursKept(h, h') && TextsKept(h, h'))
      && (d.ToolBlock? && c.ToolBlock? ==>
            && TextsKept(h, h') && OthersKept(h, h')
            && (c.cur == d.cur ==> CursKept(h, h')) && (c == d.(cur := c.cur) ==> CallsKept(h, h')))
      && forall j :: j in h && j != k ==> j in h' && h'[j] == h[j]
  {
  }

  lemma AskThere(f: Fold, log: seq<Event>, n: nat, id: string, permission: bool)
    requires n <= |log| && AsksFiled(f, log, n) && Others(Plains(f.heap), log, n)
    ensures var k := Find(if permission then f.perms else f.asks, id);
      && k == KeyAt(log, Asked(log, n, id, permission))
      && (k.Some? ==> k.value in f.heap && f.heap[k.value].c.AskBlock?)
  {
    var i := Asked(log, n, id, permission);
    if i.Some? {
      assert OtherIs(Plains(f.heap), log, n, i.value);
      assert Plains(f.heap)[log[i.value].sn] == Plain(f.heap[log[i.value].sn]);
    }
  }

  lemma AnswerStep(f: Fold, turn: int, log: seq<Event>, n: nat, id: string, permission: bool)
    requires n < |log| && Distinct(log) && Inv(f, turn, log, n)
    requires if permission then log[n].body.PermissionResolved? && id == log[n].body.pid
             else log[n].body.ElicitationResolved? && id == log[n].body.eid
    ensures Inv(Answered(f, Find(if permission then f.perms else f.asks, id), log[n].body.answer), turn, log, n + 1)
  {
    hide Plains, Plain, Answered, TextKey, Calls, Curs, Texts, Others, With, CallsKept, CursKept, TextsKept, OthersKept;
    var k, answer := Find(if permission then f.perms else f.asks, id), log[n].body.answer;
    var f' := Answered(f, k, answer);
    AskThere(f, log, n, id, permission);
    AnswerEffect(f, k, answer);
    if k.Some? { WithKept(Plains(f.heap), k.value, Plains(f.heap)[k.value].c.(answer := Some(answer))); }
    else { SelfKept(Plains(f.heap)); }
    WithKeys(Plains(f.heap));
    KeepFiled(f, f', turn, log, n);
    QuietLane(turn, log, n, None);
    OthersAnswered(Plains(f.heap), Plains(f'.heap), log, n, id, permission);
    OtherStep(f, f', turn, log, n);
  }

  lemma SelfKept(h: map<Key, Block>)
    ensures CallsKept(h, h) && CursKept(h, h) && TextsKept(h, h) && OthersKept(h, h)
  {
  }

  lemma WithKeys(h: map<Key, Block>)
    ensures forall k, c :: k in h ==> With(h, k, c).Keys == h.Keys
  {
  }

  lemma OthersAnswered(h: map<Key, Block>, h': map<Key, Block>, log: seq<Event>, n: nat, id: string, permission: bool)
    requires n < |log| && Distinct(log) && Others(h, log, n)
    requires if permission then log[n].body.PermissionResolved? && id == log[n].body.pid
             else log[n].body.ElicitationResolved? && id == log[n].body.eid
    requires var i := Asked(log, n, id, permission);
      if i.None? then h' == h
      else
        var k := log[i.value].sn;
        k in h && h[k].c.AskBlock? && h' == With(h, k, h[k].c.(answer := Some(log[n].body.answer)))
    ensures Others(h', log, n + 1)
  {
    var m, i := n + 1, Asked(log, n, id, permission);
    forall j | 0 <= j < m ensures OtherIs(h', log, m, j) {
      if j < n {
        assert OtherIs(h, log, n, j);
        if Requests(log[j].body, id, permission) && i != Some(j) { assert Repeated(log, j, n); }
      }
    }
  }

  lemma PlanThere(f: Fold, log: seq<Event>, n: nat)
    requires n <= |log| && f.plan == KeyAt(log, PlanFirst(log, n)) && Others(Plains(f.heap), log, n)
    ensures f.plan.Some? ==> f.plan.value in f.heap && f.heap[f.plan.value].c.PlanBlock?
    ensures f.plan.Some? ==> f.plan.value in Plains(f.heap) && Plains(f.heap)[f.plan.value].c.PlanBlock?
  {
    var i := PlanFirst(log, n);
    if i.Some? {
      PlanOpened(log, n);
      assert OtherIs(Plains(f.heap), log, n, i.value);
      assert Plains(f.heap)[log[i.value].sn] == Plain(f.heap[log[i.value].sn]);
    }
  }

  lemma PlanStep(f: Fold, turn: int, log: seq<Event>, n: nat)
    requires n < |log| && Distinct(log) && Inv(f, turn, log, n) && log[n].body.Plan?
    ensures Inv(PushPlan(f, log[n]), turn, log, n + 1)
  {
    hide Plains, Plain, PushPlan, Calls, Curs, Texts, Others, With, CallsKept, CursKept, TextsKept, OthersKept,
      CallsFiled, AsksFiled, KeysFiled;
    var e, f' := log[n], PushPlan(f, log[n]);
    var h, h', c := Plains(f.heap), Plains(f'.heap), PlanBlock(e.body.entries);
    FreshKey(f, turn, log, n);
    PlanThere(f, log, n);
    PlanEffect(f, e);
    if f.plan.Some? { WithKept(h, f.plan.value, c); } else { TopKept(h, e.sn, c); }
    WithKeys(h);
    KeepCallsFiled(f, f', turn, log, n);
    KeepAsksFiled(f, f', log, n);
    KeepKeysFiled(f, f', log, n);
    OthersPlanned(h, h', log, n);
    OtherStep(f, f', turn, log, n);
  }

  lemma {:induction false} PlanOpened(log: seq<Event>, n: nat)
    requires n <= |log|
    ensures var i := PlanFirst(log, n); i.Some? ==> PlanFirst(log, i.value).None?
  {
    if n > 0 { PlanOpened(log, n - 1); }
  }

  lemma OthersPlanned(h: map<Key, Block>, h': map<Key, Block>, log: seq<Event>, n: nat)
    requires n < |log| && Distinct(log) && Others(h, log, n) && log[n].body.Plan? && log[n].sn !in h
    requires var i, c := PlanFirst(log, n), PlanBlock(log[n].body.entries);
      if i.None? then h' == h[log[n].sn := Block(c, 0, None)]
      else log[i.value].sn in h && h' == With(h, log[i.value].sn, c)
    ensures Others(h', log, n + 1)
  {
    var m, i := n + 1, PlanFirst(log, n);
    forall j | 0 <= j < m ensures OtherIs(h', log, m, j) {
      if j < n { assert OtherIs(h, log, n, j); }
    }
  }

  lemma ChangedThere(f: Fold, turn: int, log: seq<Event>, n: nat)
    requires n < |log| && Filed(f, turn, log, n) && Calls(Plains(f.heap), turn, log, n) && log[n].body.FilesChanged?
    ensures var id, k := log[n].body.toolCallId, ChangedTool(f, log[n].body.toolCallId);
      && (id != "" ==> k == CallKey(turn, log, n, Changed(turn, log, n)))
      && (k.Some? ==> k.value in f.heap && f.heap[k.value].c.ToolBlock?)
  {
    var id := log[n].body.toolCallId;
    var call := (Counter(turn, log, n), id);
    assert Find(f.tools, call) == CallKey(turn, log, n, Some(call));
    assert Find(f.byId, id) == CallKey(turn, log, n, Latest(turn, log, n, id));
    CallThereToo(f, turn, log, n, call);
    if Latest(turn, log, n, id).Some? { CallThereToo(f, turn, log, n, Latest(turn, log, n, id).value); }
  }

  lemma CallThereToo(f: Fold, turn: int, log: seq<Event>, n: nat, call: Call)
    requires n <= |log| && Calls(Plains(f.heap), turn, log, n)
    ensures var k := CallKey(turn, log, n, Some(call));
      k.Some? ==>
        && k.value in f.heap && f.heap[k.value].c.ToolBlock?
        && k.value in Plains(f.heap) && Plains(f.heap)[k.value] == f.heap[k.value].(v := 0)
  {
    CallThere(Plains(f.heap), turn, log, n, call);
    var k := CallKey(turn, log, n, Some(call));
    if k.Some? { assert Plains(f.heap)[k.value] == Plain(f.heap[k.value]); }
  }

  lemma FilesStep(f: Fold, turn: int, log: seq<Event>, n: nat)
    requires n < |log| && Distinct(log) && Inv(f, turn, log, n) && log[n].body.FilesChanged?
    ensures Inv(PushFiles(f, log[n]), turn, log, n + 1)
  {
    hide Plains, Plain, PushFiles, Calls, Curs, Texts, Others, With, CallsKept, CursKept, TextsKept, OthersKept,
      CallsFiled, AsksFiled, KeysFiled, Counter, PlanFirst, TextKey, ChangedTool, First, Latest;
    var e, f' := log[n], PushFiles(f, log[n]);
    var h, h' := Plains(f.heap), Plains(f'.heap);
    var c := ChangesBlock(e.body.turn, e.body.patch);
    FreshKey(f, turn, log, n);
    ChangedThere(f, turn, log, n);
    FilesEffect(f, e);
    WithKeys(h);
    KeepFiled(f, f', turn, log, n);
    QuietLane(turn, log, n, None);
    var call := Changed(turn, log, n);
    if e.body.toolCallId == "" || call.None? {
      if e.body.toolCallId == "" { TopKept(h, e.sn, c); } else { SelfKept(h); }
      OpensOther(f, f', turn, log, n);
    } else {
      ChangedKnown(turn, log, n);
      PatchStep(h, h', turn, log, n, call.value);
    }
  }

  lemma ChangedKnown(turn: int, log: seq<Event>, n: nat)
    requires n < |log| && log[n].body.FilesChanged?
    ensures var call := Changed(turn, log, n); call.Some? ==> CallKey(turn, log, n, call).Some?
  {
  }

  lemma PatchStep(h: map<Key, Block>, h': map<Key, Block>, turn: int, log: seq<Event>, n: nat, call: Call)
    requires n < |log| && Distinct(log) && log[n].body.FilesChanged? && Changed(turn, log, n) == Some(call)
    requires Calls(h, turn, log, n) && Curs(h, turn, log, n) && Texts(h, turn, log, n) && Others(h, log, n)
    requires var k := CallKey(turn, log, n, Some(call));
      && k.Some? && k.value in h && h[k.value].c.ToolBlock?
      && h' == With(h, k.value, h[k.value].c.(diff := Some(log[n].body.patch)))
    ensures Calls(h', turn, log, n + 1) && Curs(h', turn, log, n + 1) && Texts(h', turn, log, n + 1)
      && Others(h', log, n + 1)
  {
    hide Calls, Curs, Texts, Others, CursKept, TextsKept, OthersKept, CallKey, CallIs, CallCur;
    var k := CallKey(turn, log, n, Some(call)).value;
    WithKept(h, k, h[k].c.(diff := Some(log[n].body.patch)));
    KeepTexts(h, h', turn, log, n);
    KeepOthers(h, h', log, n);
    CursPatched(h, h', turn, log, n, k);
    CallsPatched(h, h', turn, log, n, call);
  }

  lemma CursPatched(h: map<Key, Block>, h': map<Key, Block>, turn: int, log: seq<Event>, n: nat, k: Key)
    requires n < |log| && log[n].body.FilesChanged? && Calls(h, turn, log, n) && Curs(h, turn, log, n)
    requires k in h && h[k].c.ToolBlock? && h' == With(h, k, h[k].c.(diff := Some(log[n].body.patch)))
    ensures Curs(h', turn, log, n + 1)
  {
    hide CallIs, CallKey, Last, First, Head, TextKey;
    var m := n + 1;
    forall call ensures CallCur(h', turn, log, m, call) {
      assert CallCur(h, turn, log, n, call);
      CallThere(h, turn, log, n, call);
      CallStays(turn, log, n, call);
      QuietLane(turn, log, n, Some(call));
    }
  }

  lemma CallsPatched(h: map<Key, Block>, h': map<Key, Block>, turn: int, log: seq<Event>, n: nat, call: Call)
    requires n < |log| && Distinct(log) && log[n].body.FilesChanged? && Changed(turn, log, n) == Some(call)
    requires Calls(h, turn, log, n)
    requires var k := CallKey(turn, log, n, Some(call));
      && k.Some? && k.value in h && h[k.value].c.ToolBlock?
      && h' == With(h, k.value, h[k.value].c.(diff := Some(log[n].body.patch)))
    ensures Calls(h', turn, log, n + 1)
  {
    var m := n + 1;
    forall c ensures CallIs(h', turn, log, m, c) {
      assert CallIs(h, turn, log, n, c);
      CallPatched(h, h', turn, log, n, call, c);
    }
  }

  lemma CallPatched(h: map<Key, Block>, h': map<Key, Block>, turn: int, log: seq<Event>, n: nat, call: Call, c: Call)
    requires n < |log| && Distinct(log) && log[n].body.FilesChanged? && Changed(turn, log, n) == Some(call)
    requires CallIs(h, turn, log, n, c)
    requires var k := CallKey(turn, log, n, Some(call));
      && k.Some? && k.value in h && h[k.value].c.ToolBlock?
      && h' == With(h, k.value, h[k.value].c.(diff := Some(log[n].body.patch)))
    ensures CallIs(h', turn, log, n + 1, c)
  {
    hide Output, LaneOf, Given, Card, Changed;
    QuietCall(turn, log, n, c);
    if c != call { KeysApart(turn, log, n, c, call); }
    if First(turn, log, n, c).Some? { LaneKeyStays(turn, log, n, First(turn, log, n, c).value); }
  }

  // ---- calls ----

  lemma BoxIsLane(f: Fold, turn: int, log: seq<Event>, n: nat)
    requires n < |log| && Distinct(log) && Filed(f, turn, log, n) && Calls(Plains(f.heap), turn, log, n)
    requires log[n].body.Tool?
    ensures var d := log[n].body;
      && ToolAt(f, d.id) == CallKey(turn, log, n, Some((Counter(turn, log, n), d.id)))
      && ToolBox(f, d.id, d.parent) == CallKey(turn, log, n, LaneOf(turn, log, n))
  {
    var d := log[n].body;
    var call, lane := (Counter(turn, log, n), d.id), Lane(turn, log, n, d.parent);
    assert Find(f.tools, call) == CallKey(turn, log, n, Some(call));
    LaneIsBox(f, turn, log, n, d.parent);
    if lane.Some? && lane != Some(call) { KeysApart(turn, log, n, lane.value, call); }
  }

  lemma ToolStep(f: Fold, turn: int, log: seq<Event>, n: nat)
    requires n < |log| && Distinct(log) && Inv(f, turn, log, n) && log[n].body.Tool?
    ensures Inv(PushTool(f, log[n]), turn, log, n + 1)
  {
    hide Plains, Plain, PushTool, Calls, Curs, Texts, Others, With, Merged, Called, ToolAt, ToolBox, LaneOf, CallsFiled,
      AsksFiled, KeysFiled, TextKey, CallKey, First;
    var e, f' := log[n], PushTool(f, log[n]);
    var h, d, call := Plains(f.heap), log[n].body, (Counter(turn, log, n), log[n].body.id);
    FreshKey(f, turn, log, n);
    BoxIsLane(f, turn, log, n);
    CallThereToo(f, turn, log, n, call);
    ToolEffect(f, e);
    var known, into := ToolAt(f, d.id), ToolBox(f, d.id, d.parent);
    var t := if known.Some? then known.value else e.sn;
    ToolKeys(h, known, e, into, t);
    ToolFiled(f, f', turn, log, n, t);
    KeepAsksFiled(f, f', log, n);
    KeepKeysFiled(f, f', log, n);
    ToolBlocks(h, turn, log, n, known, into, t, Plains(f'.heap));
    LaneKnown(turn, log, n, LaneOf(turn, log, n));
    ToolCur(turn, log, n);
  }

  lemma ToolKeys(h: map<Key, Block>, known: Option<Key>, e: Event, into: Option<Key>, t: Key)
    requires e.body.Tool? && (into.Some? ==> IsCard(h, into.value))
    requires var h2 := Called(h, known, e, into); t in h2 && h2[t].c.ToolBlock?
    ensures var h2 := Called(h, known, e, into);
      forall k :: k in With(h2, t, Merged(h2[t].c, e.body)) ==> k in h || k == e.sn
  {
  }

  lemma ToolFiled(f: Fold, f': Fold, turn: int, log: seq<Event>, n: nat, t: Key)
    requires n < |log| && CallsFiled(f, turn, log, n) && log[n].body.Tool? && f.turn == Counter(turn, log, n)
    requires var d, known := log[n].body, ToolAt(f, log[n].body.id);
      && t == (if known.Some? then known.value else log[n].sn)
      && f'.tools == (if known.Some? then f.tools else f.tools[(f.turn, d.id) := log[n].sn])
      && f'.byId == f.byId[d.id := t]
    ensures CallsFiled(f', turn, log, n + 1)
  {
    var m, mine := n + 1, (f.turn, log[n].body.id);
    assert Find(f.tools, mine) == CallKey(turn, log, n, Some(mine));
    forall call ensures Find(f'.tools, call) == CallKey(turn, log, m, Some(call)) {
      assert Find(f.tools, call) == CallKey(turn, log, n, Some(call));
    }
    forall id ensures Find(f'.byId, id) == CallKey(turn, log, m, Latest(turn, log, m, id)) {
      assert Find(f.byId, id) == CallKey(turn, log, n, Latest(turn, log, n, id));
    }
  }

  lemma ToolCur(turn: int, log: seq<Event>, n: nat)
    requires n < |log| && log[n].body.Tool?
    ensures TextKey(turn, log, n + 1, None) ==
      if LaneOf(turn, log, n).None? then None else TextKey(turn, log, n, None)
  {
  }

  lemma ToolBlocks(h: map<Key, Block>, turn: int, log: seq<Event>, n: nat, known: Option<Key>, into: Option<Key>,
                   t: Key, h': map<Key, Block>)
    requires n < |log| && Distinct(log) && log[n].body.Tool? && log[n].sn !in h
    requires Calls(h, turn, log, n) && Curs(h, turn, log, n) && Texts(h, turn, log, n) && Others(h, log, n)
    requires known == CallKey(turn, log, n, Some((Counter(turn, log, n), log[n].body.id)))
    requires into == CallKey(turn, log, n, LaneOf(turn, log, n)) && (into.Some? ==> IsCard(h, into.value))
    requires t == (if known.Some? then known.value else log[n].sn) && (known.Some? ==> t in h)
    requires var h2 := Called(h, known, log[n], into);
      t in h2 && h2[t].c.ToolBlock? && h' == With(h2, t, Merged(h2[t].c, log[n].body))
    ensures Calls(h', turn, log, n + 1) && Curs(h', turn, log, n + 1) && Texts(h', turn, log, n + 1)
      && Others(h', log, n + 1)
  {
    hide Calls, Curs, Texts, Others, With, Merged, Called, CallsKept, CursKept, TextsKept, OthersKept, CallKey, LaneOf,
      Counter;
    var e := log[n];
    var h2 := Called(h, known, e, into);
    IntoApart(turn, log, n);
    CalledKept(h, known, e, into);
    MergeKept(h2, t, e.body);
    KeptBoth(h, h2, h');
    KeepTexts(h, h', turn, log, n);
    KeepOthers(h, h', log, n);
    ToolCurs(h, h2, turn, log, n, h');
    ToolCalls(h, h2, turn, log, n, t, h');
  }

  /** A call is not nested in its own card. */
  lemma IntoApart(turn: int, log: seq<Event>, n: nat)
    requires n < |log| && Distinct(log) && log[n].body.Tool?
    ensures LaneOf(turn, log, n) != Some((Counter(turn, log, n), log[n].body.id))
    ensures var into, call := CallKey(turn, log, n, LaneOf(turn, log, n)), (Counter(turn, log, n), log[n].body.id);
      into.Some? ==> into != CallKey(turn, log, n, Some(call)) && into.value != log[n].sn
  {
    var lane := LaneOf(turn, log, n);
    if lane.Some? { KeysApart(turn, log, n, lane.value, (Counter(turn, log, n), log[n].body.id)); }
  }

  lemma CalledKept(h: map<Key, Block>, known: Option<Key>, e: Event, into: Option<Key>)
    requires e.body.Tool? && (into.Some? ==> IsCard(h, into.value)) && (known.None? ==> e.sn !in h)
    requires known.Some? ==> known.value in h && into != known
    ensures var h2 := Called(h, known, e, into);
      && CallsKept(h, h2) && TextsKept(h, h2) && OthersKept(h, h2)
      && (known.None? ==> e.sn in h2 && h2[e.sn] == Block(NewTool(e.body.id, e.ts), 0, into))
      && (known.Some? ==> known.value in h2 && h2[known.value] == h[known.value])
      && (into.Some? ==> IsCard(h2, into.value) && h2[into.value].c.cur == None)
      && forall k :: k in h && h[k].c.ToolBlock? && into != Some(k) ==> h2[k].c.cur == h[k].c.cur
  {
  }

  lemma MergeKept(h: map<Key, Block>, t: Key, d: Body)
    requires d.Tool? && t in h && h[t].c.ToolBlock?
    ensures var h' := With(h, t, Merged(h[t].c, d));
      && CursKept(h, h') && TextsKept(h, h') && OthersKept(h, h')
      && forall k :: k in h ==> k in h' && (h[k].c.ToolBlock? ==> h'[k].c.ToolBlock?)
  {
  }

  lemma KeptBoth(a: map<Key, Block>, b: map<Key, Block>, c: map<Key, Block>)
    requires TextsKept(a, b) && OthersKept(a, b) && TextsKept(b, c) && OthersKept(b, c)
    ensures TextsKept(a, c) && OthersKept(a, c)
  {
  }

  lemma ToolCurs(h: map<Key, Block>, h2: map<Key, Block>, turn: int, log: seq<Event>, n: nat, h': map<Key, Block>)
    requires n < |log| && Distinct(log) && log[n].body.Tool? && Calls(h, turn, log, n) && Curs(h, turn, log, n)
    requires CallsKept(h, h2) && CursKept(h2, h')
    requires forall k :: k in h2 ==> k in h' && (h2[k].c.ToolBlock? ==> h'[k].c.ToolBlock?)
    requires var into, known := CallKey(turn, log, n, LaneOf(turn, log, n)),
        CallKey(turn, log, n, Some((Counter(turn, log, n), log[n].body.id)));
      && (into.Some? ==> IsCard(h2, into.value) && h2[into.value].c.cur == None)
      && (known.None? ==> log[n].sn in h2 && h2[log[n].sn].c == NewTool(log[n].body.id, log[n].ts))
      && forall k :: k in h && h[k].c.ToolBlock? && into != Some(k) ==> h2[k].c.cur == h[k].c.cur
    ensures Curs(h', turn, log, n + 1)
  {
    hide CallIs, Last, First, LaneOf, TextKey, CallKey, Head, Counter;
    var m := n + 1;
    forall call ensures CallCur(h', turn, log, m, call) {
      assert CallCur(h, turn, log, n, call);
      CallThere(h, turn, log, n, call);
      ToolCursOf(turn, log, n, call);
    }
  }

  lemma ToolCursOf(turn: int, log: seq<Event>, n: nat, call: Call)
    requires n < |log| && Distinct(log) && log[n].body.Tool?
    ensures var k, k' := CallKey(turn, log, n, Some(call)), CallKey(turn, log, n + 1, Some(call));
      var lane := LaneOf(turn, log, n);
      && TextKey(turn, log, n + 1, Some(call)) ==
           (if lane == Some(call) then None else TextKey(turn, log, n, Some(call)))
      && (k.Some? ==> k' == k)
      && (k.Some? && lane != Some(call) ==> k != CallKey(turn, log, n, lane))
      && (k.None? && k'.Some? ==> k'.value == log[n].sn && call == (Counter(turn, log, n), log[n].body.id))
      && (k.None? ==> TextKey(turn, log, n, Some(call)) == None)
  {
    var lane := LaneOf(turn, log, n);
    if lane.Some? && lane.value != call { KeysApart(turn, log, n, call, lane.value); }
    var i := Last(turn, log, n, Some(call));
    if i.Some? {
      LaneKnown(turn, log, i.value, Some(call));
      FirstStays(turn, log, i.value, n, call);
    }
  }

  lemma ToolCalls(h: map<Key, Block>, h2: map<Key, Block>, turn: int, log: seq<Event>, n: nat, t: Key,
                  h': map<Key, Block>)
    requires n < |log| && Distinct(log) && log[n].body.Tool? && Calls(h, turn, log, n) && CallsKept(h, h2)
    requires t in h2 && h2[t].c.ToolBlock? && h' == With(h2, t, Merged(h2[t].c, log[n].body))
    requires var into, known := CallKey(turn, log, n, LaneOf(turn, log, n)),
        CallKey(turn, log, n, Some((Counter(turn, log, n), log[n].body.id)));
      if known.Some? then t == known.value && t in h && h2[t] == h[t]
      else t == log[n].sn && h2[t] == Block(NewTool(log[n].body.id, log[n].ts), 0, into)
    ensures Calls(h', turn, log, n + 1)
  {
    var m, mine := n + 1, (Counter(turn, log, n), log[n].body.id);
    hide With, Merged, CallKey, CallIs, CallsKept, LaneOf, Counter;
    assert CallIs(h, turn, log, n, mine);
    MineMerged(h, h2, turn, log, n, t, h');
    forall call ensures CallIs(h', turn, log, m, call) {
      if call != mine {
        assert CallIs(h, turn, log, n, call);
        CallsElsewhere(h, h2, turn, log, n, t, h', call);
      }
    }
  }

  lemma CallsElsewhere(h: map<Key, Block>, h2: map<Key, Block>, turn: int, log: seq<Event>, n: nat, t: Key,
                       h': map<Key, Block>, call: Call)
    requires n < |log| && Distinct(log) && log[n].body.Tool? && CallIs(h, turn, log, n, call) && CallsKept(h, h2)
    requires t in h2 && h2[t].c.ToolBlock? && h' == With(h2, t, Merged(h2[t].c, log[n].body))
    requires var mine := (Counter(turn, log, n), log[n].body.id);
      call != mine && CallKey(turn, log, n + 1, Some(mine)) == Some(t)
    ensures CallIs(h', turn, log, n + 1, call)
  {
    hide Output, LaneOf, Given, Card, Changed, Counter, Merged;
    QuietCall(turn, log, n, call);
    KeysApart(turn, log, n + 1, call, (Counter(turn, log, n), log[n].body.id));
    if First(turn, log, n, call).Some? { LaneKeyStays(turn, log, n, First(turn, log, n, call).value); }
  }

  lemma MineMerged(h: map<Key, Block>, h2: map<Key, Block>, turn: int, log: seq<Event>, n: nat, t: Key,
                   h': map<Key, Block>)
    requires n < |log| && Distinct(log) && log[n].body.Tool?
    requires t in h2 && h2[t].c.ToolBlock? && h' == With(h2, t, Merged(h2[t].c, log[n].body))
    requires var mine := (Counter(turn, log, n), log[n].body.id);
      && CallIs(h, turn, log, n, mine)
      && var into, known := CallKey(turn, log, n, LaneOf(turn, log, n)), CallKey(turn, log, n, Some(mine));
         if known.Some? then t == known.value && t in h && h2[t] == h[t]
         else t == log[n].sn && h2[t] == Block(NewTool(log[n].body.id, log[n].ts), 0, into)
    ensures CallIs(h', turn, log, n + 1, (Counter(turn, log, n), log[n].body.id))
    ensures CallKey(turn, log, n + 1, Some((Counter(turn, log, n), log[n].body.id))) == Some(t)
  {
    hide LaneOf, Output, Given, Card, Patch, Counter, Merged, FieldsAre;
    var call, d := (Counter(turn, log, n), log[n].body.id), log[n].body;
    if First(turn, log, n, call).None? {
      NothingYet(turn, log, n, call);
      NoFields(turn, log, n, call);
      if LaneOf(turn, log, n).Some? {
        LaneKnown(turn, log, n, LaneOf(turn, log, n));
        FirstStays(turn, log, n, n + 1, LaneOf(turn, log, n).value);
      }
    } else {
      LaneKeyStays(turn, log, n, First(turn, log, n, call).value);
    }
    assert OfCall(turn, log, n, call);
    OneMore(turn, log, n, call);
    MergedIs(h2[t].c, d);
    FieldsMore(h2[t].c.fields, turn, log, n, call);
  }

  lemma MergedIs(c: Content, d: Body)
    requires c.ToolBlock? && d.Tool?
    ensures var m := Merged(c, d);
      && m.ToolBlock? && m.id == c.id && m.t0 == c.t0 && m.diff == c.diff && m.fields == c.fields + d.fields
      && m.output == (if d.output.Some? then d.output.value
                      else if d.outputDelta.Some? then c.output + d.outputDelta.value
                      else c.output)
      && (m.children.Some? <==> c.children.Some? || d.subagent)
  {
  }

  lemma FieldsMore(fields: map<string, string>, turn: int, log: seq<Event>, n: nat, call: Call)
    requires n < |log| && OfCall(turn, log, n, call) && FieldsAre(fields, turn, log, n, call)
    ensures FieldsAre(fields + log[n].body.fields, turn, log, n + 1, call)
  {
    var m := n + 1;
    forall x ensures Given(turn, log, m, call, x) ==
                       if x in fields + log[n].body.fields then Some((fields + log[n].body.fields)[x]) else None
    {
      assert Given(turn, log, n, call, x) == if x in fields then Some(fields[x]) else None;
    }
  }

  lemma NoFields(turn: int, log: seq<Event>, n: nat, call: Call)
    requires n <= |log| && forall x :: Given(turn, log, n, call, x) == None
    ensures FieldsAre(map[], turn, log, n, call)
  {
  }

  /** What one more event of a call makes of it. */
  lemma OneMore(turn: int, log: seq<Event>, n: nat, call: Call)
    requires n < |log| && OfCall(turn, log, n, call)
    ensures var e := log[n].body;
      && Output(turn, log, n + 1, call) ==
           (if e.output.Some? then e.output.value
            else if e.outputDelta.Some? then Output(turn, log, n, call) + e.outputDelta.value
            else Output(turn, log, n, call))
      && (forall x :: Given(turn, log, n + 1, call, x) ==
            if x in e.fields then Some(e.fields[x]) else Given(turn, log, n, call, x))
      && (Card(turn, log, n + 1, call) <==> Card(turn, log, n, call) || e.subagent)
      && Patch(turn, log, n + 1, call) == Patch(turn, log, n, call)
  {
    var m := Start(turn, log, n + 1, call);
    if log[n].body.output.Some? { assert m == n + 1; }
    else { assert m == Start(turn, log, n, call); }
  }

  lemma {:induction false} NothingYet(turn: int, log: seq<Event>, n: nat, call: Call)
    requires n <= |log| && First(turn, log, n, call).None?
    ensures Output(turn, log, n, call) == "" && !Card(turn, log, n, call) && Patch(turn, log, n, call) == None
    ensures forall x :: Given(turn, log, n, call, x) == None
  {
    if n > 0 {
      NothingYet(turn, log, n - 1, call);
      assert !OfCall(turn, log, n - 1, call);
      QuietCall(turn, log, n - 1, call);
    }
  }

  // ---- any event, any log ----

  lemma RouteStep(f: Fold, turn: int, log: seq<Event>, n: nat)
    requires n < |log| && Distinct(log) && Inv(f, turn, log, n)
    ensures Inv(Route(f, log[n]), turn, log, n + 1)
  {
    hide Inv, Open, PushText, PushTool, PushPlan, PushFiles, Answered;
    match log[n].body {
      case Message(_, _, _, parent, _, _) => TextStep(f, turn, log, n, parent);
      case Thought(_, parent) => TextStep(f, turn, log, n, parent);
      case Tool(_, _, _, _, _, _) => ToolStep(f, turn, log, n);
      case FilesChanged(_, _, _) => FilesStep(f, turn, log, n);
      case Plan(_) => PlanStep(f, turn, log, n);
      case PermissionRequest(_, _) => RequestStep(f, turn, log, n);
      case ElicitationRequest(_, _) => RequestStep(f, turn, log, n);
      case PermissionResolved(pid, _) => AnswerStep(f, turn, log, n, pid, true);
      case ElicitationResolved(eid, _) => AnswerStep(f, turn, log, n, eid, false);
      case TurnEnd(_, _) => TurnStep(f, turn, log, n);
      case Notice(_) => NoticeStep(f, turn, log, n);
      case _ => NothingStep(f, turn, log, n);
    }
  }

  lemma PushStep(f: Fold, turn: int, log: seq<Event>, n: nat)
    requires n < |log| && Distinct(log) && Inv(f, turn, log, n)
    ensures Inv(Push(f, log[n]), turn, log, n + 1)
  {
    var e := log[n];
    var f0 := f.(lastSeq := if e.sn > f.lastSeq then e.sn else f.lastSeq);
    var f1 := if LeavesThought(e.body) then f0 else Done(f0, f0.cur, e.ts);
    DonePlain(f0, f0.cur, e.ts);
    hide Done, Plains;
    ClockAside(f, f1, turn, log, n);
    RouteStep(f1, turn, log, n);
  }

  lemma ClockAside(f: Fold, g: Fold, turn: int, log: seq<Event>, n: nat)
    requires n <= |log| && Inv(f, turn, log, n)
    requires g == f.(heap := g.heap, lastSeq := g.lastSeq) && Plains(g.heap) == Plains(f.heap)
    ensures Inv(g, turn, log, n)
  {
    PlainsAt(f, g);
  }

  /** Every block of a fold, from any turn number, holds what the log says. */
  lemma {:induction false} FoldHolds(seed: nat, log: seq<Event>, n: nat)
    requires Distinct(log) && n <= |log|
    ensures Inv(FoldFrom(Seeded(seed), log[..n]), Seeded(seed).turn, log, n)
  {
    hide Push, Inv, Distinct;
    if n == 0 {
      NothingFolded(seed, log);
    } else {
      FoldHolds(seed, log, n - 1);
      assert log[..n][..n - 1] == log[..n - 1];
      PushStep(FoldFrom(Seeded(seed), log[..n - 1]), Seeded(seed).turn, log, n - 1);
    }
  }

  lemma NothingFolded(seed: nat, log: seq<Event>)
    ensures Inv(Seeded(seed), Seeded(seed).turn, log, 0) && FoldFrom(Seeded(seed), log[..0]) == Seeded(seed)
  {
  }

  // ---- what is shown ----

  /** A call is one block, under its first event: its output is the last one given and the deltas since, in order, each
      field is what was last given, it is a card once some event said so, and its changes are the last brought. */
  lemma CallIsItsEvents(seed: nat, log: seq<Event>, call: Call)
    requires Distinct(log) && First(Seeded(seed).turn, log, |log|, call).Some?
    ensures var f, turn, n := FoldFrom(Seeded(seed), log), Seeded(seed).turn, |log|;
      var first := First(turn, log, n, call).value;
      && f.turn == Counter(turn, log, n) && Find(f.tools, call) == Some(log[first].sn)
      && log[first].sn in f.heap
      && var c := f.heap[log[first].sn].c;
         && c.ToolBlock? && c.id == call.1 && c.t0 == log[first].ts && c.diff == Patch(turn, log, n, call)
         && c.output == Output(turn, log, n, call)
         && (forall x :: Given(turn, log, n, call, x) == if x in c.fields then Some(c.fields[x]) else None)
         && (c.children.Some? <==> exists i :: 0 <= i < n && OfCall(turn, log, i, call) && log[i].body.subagent)
         && f.heap[log[first].sn].up == CallKey(turn, log, n, LaneOf(turn, log, first))
  {
    var turn, n := Seeded(seed).turn, |log|;
    FoldHolds(seed, log, n);
    assert log[..n] == log;
    var f := FoldFrom(Seeded(seed), log);
    assert CallIs(Plains(f.heap), turn, log, n, call) && Find(f.tools, call) == CallKey(turn, log, n, Some(call));
    CallThereToo(f, turn, log, n, call);
  }

  /** A text is part of one block, under the text that began its run, which holds the texts of the run one after the
      other. */
  lemma TextIsItsRun(seed: nat, log: seq<Event>, i: nat)
    requires Distinct(log) && i < |log| && IsText(log[i].body)
    ensures var f, turn, n := FoldFrom(Seeded(seed), log), Seeded(seed).turn, |log|;
      var head := Head(turn, log, i);
      var k := log[head].sn;
      && k in f.heap && f.heap[k].up == CallKey(turn, log, n, LaneOf(turn, log, i))
      && match log[head].body
         case Message(role, _, mid, _, files, steered) =>
           f.heap[k].c == MsgBlock(role, mid, Run(turn, log, n, head), files, steered)
         case Thought(_, _) =>
           f.heap[k].c.ThoughtBlock? && f.heap[k].c.text == Run(turn, log, n, head) && f.heap[k].c.t0 == log[head].ts
  {
    hide Head, Run, CallKey, LaneOf, FoldFrom, Filed, Calls, Curs, Others, Distinct;
    var turn, n := Seeded(seed).turn, |log|;
    FoldHolds(seed, log, n);
    assert log[..n] == log;
    var f := FoldFrom(Seeded(seed), log);
    var k := log[Head(turn, log, i)].sn;
    assert TextIs(Plains(f.heap), turn, log, n, i);
    assert Plains(f.heap)[k] == Plain(f.heap[k]);
  }

  /** An ask shows its last answer, a plan the entries it was last given; the other blocks stay as they came. */
  lemma OthersAreTheirEvents(seed: nat, log: seq<Event>, i: nat)
    requires Distinct(log) && i < |log|
    ensures var h, n := FoldFrom(Seeded(seed), log).heap, |log|;
      var k := log[i].sn;
      match log[i].body
      case PermissionRequest(pid, ask) => k in h && h[k].c == AskBlock(pid, ask, Answer(log, n, i))
      case ElicitationRequest(eid, ask) => k in h && h[k].c == AskBlock(eid, ask, Answer(log, n, i))
      case Plan(_) => PlanFirst(log, i).None? ==> k in h && h[k].c == PlanBlock(Entries(log, n, i))
      case TurnEnd(ended, stop) => k in h && h[k].c == TurnBlock(ended, stop)
      case Notice(text) => k in h && h[k].c == NoticeBlock(text)
      case FilesChanged(id, ended, patch) => id == "" ==> k in h && h[k].c == ChangesBlock(ended, patch)
      case _ => true
  {
    var n := |log|;
    FoldHolds(seed, log, n);
    assert log[..n] == log;
    var h := FoldFrom(Seeded(seed), log).heap;
    assert OtherIs(Plains(h), log, n, i);
    if log[i].sn in h { assert Plains(h)[log[i].sn] == Plain(h[log[i].sn]); }
  }
}
