/** How long a thought took, read off the log: from its first event to the one that ended it. */
module FoldClock {
  import opened Options
  import opened FoldSpec
  import opened FoldSim
  import opened FoldLog
  import opened FoldEffects
  import opened FoldContents
  import opened FoldRows

  // ---- what the log says ----

  /** The run of text a lane goes on with. */
  ghost function Going(turn: int, log: seq<Event>, n: nat, lane: Option<Call>): (h: Option<nat>)
    requires n <= |log|
    ensures h.Some? ==> h.value < n && IsText(log[h.value].body) && LaneOf(turn, log, h.value) == lane
  {
    var i := Last(turn, log, n, lane);
    if i.Some? then Some(Head(turn, log, i.value)) else None
  }

  /** What ends a thought, at its time: for one of the log's own, anything but a thought, a status, changes or the
      queue; for any, a message in its lane. */
  ghost predicate Stops(turn: int, log: seq<Event>, i: nat, h: nat)
    requires i < |log|
  {
    var e := log[i].body;
    || (!e.Thought? && !e.Status? && !e.FilesChanged? && !e.Queue? && Going(turn, log, i, None) == Some(h))
    || (e.Message? && Going(turn, log, i, LaneOf(turn, log, i)) == Some(h))
  }

  /** The call an event belongs to is over: its status was last given as neither pending nor in progress. */
  ghost predicate IsOver(turn: int, log: seq<Event>, i: nat)
    requires i < |log| && log[i].body.Tool?
  {
    var status := Given(turn, log, i + 1, (Counter(turn, log, i), log[i].body.id), "status");
    status.Some? && status.value != "pending" && status.value != "in_progress"
  }

  /** What ends a thought in a card, leaving its time: a call in the card, and the end of the card's own call. */
  ghost predicate Cuts(turn: int, log: seq<Event>, i: nat, h: nat)
    requires h < i < |log|
  {
    && log[i].body.Tool?
    && var lane := LaneOf(turn, log, i);
       || (lane.Some? && Going(turn, log, i, lane) == Some(h))
       || (IsOver(turn, log, i) && LaneOf(turn, log, h) == Some((Counter(turn, log, i), log[i].body.id)))
  }

  ghost predicate IsDone(turn: int, log: seq<Event>, n: nat, h: nat)
    requires n <= |log|
  {
    exists i :: h < i < n && (Stops(turn, log, i, h) || Cuts(turn, log, i, h))
  }

  /** The last time given by an event of a thought, or by the one that stopped it. */
  ghost function Until(turn: int, log: seq<Event>, n: nat, h: nat): nat
    requires h < n <= |log|
  {
    if n == h + 1 then log[h].ts
    else
      var e := log[n - 1];
      var mine := IsText(e.body) && Head(turn, log, n - 1) == h;
      var stopped := !IsDone(turn, log, n - 1, h) && Stops(turn, log, n - 1, h);
      if (mine || stopped) && e.ts > 0 then e.ts else Until(turn, log, n - 1, h)
  }

  // ---- what an operation does to a thought ----

  predicate IsThought(f: Fold, j: Key) { j in f.heap && f.heap[j].c.ThoughtBlock? }

  /** The thought's time is set, if that is a time, and it may be done. */
  predicate Ticked(f: Fold, f': Fold, j: Key, ts: nat, done: bool)
    requires IsThought(f, j)
  {
    && IsThought(f', j)
    && f'.heap[j].c.t1 == (if ts > 0 then ts else f.heap[j].c.t1)
    && f'.heap[j].c.done == (f.heap[j].c.done || done)
  }

  lemma DoneTicks(f: Fold, k: Option<Key>, ts: nat, j: Key)
    requires IsThought(f, j)
    ensures Ticked(f, Done(f, k, ts), j, if k == Some(j) && !f.heap[j].c.done then ts else 0, k == Some(j))
  {
    if FoldSim.Running(At(f, k)) {
      var t := f.heap[k.value].c;
      BumpContents(Change(f, k.value, ThoughtBlock(t.text, t.t0, if ts > 0 then ts else t.t1, true)).heap, k.value);
    }
  }

  lemma {:induction false} DoneAllTicks(f: Fold, ks: seq<Key>, j: Key)
    requires IsThought(f, j)
    ensures Ticked(f, DoneAll(f, ks), j, 0, j in ks)
  {
    if ks != [] {
      var front := ks[..|ks| - 1];
      DoneAllTicks(f, front, j);
      DoneTicks(DoneAll(f, front), Some(ks[|ks| - 1]), 0, j);
      assert ks == front + [ks[|ks| - 1]];
    }
  }

  lemma BumpTicks(f: Fold, k: Key, j: Key)
    requires IsThought(f, j)
    ensures Ticked(f, Bumped(f, k), j, 0, false)
  {
    BumpContents(f.heap, k);
  }

  lemma OpenTicks(f: Fold, k: Key, c: Content, into: Option<Key>, j: Key)
    requires IsThought(f, j) && j != k
    ensures Ticked(f, Open(f, k, c, into), j, 0, false)
  {
    hide Bump;
    if into.Some? { BumpContents(f.heap, into.value); }
  }

  lemma SetCurTicks(f: Fold, into: Option<Key>, k: Option<Key>, j: Key)
    requires IsThought(f, j)
    ensures Ticked(f, SetCur(f, into, k), j, 0, false)
  {
  }

  lemma MergeTicks(f: Fold, t: Key, d: Body, j: Key)
    requires IsThought(f, j) && d.Tool? && t in f.heap && f.heap[t].c.ToolBlock?
    ensures var c := Merged(f.heap[t].c, d);
      && Ticked(f, FoldTool(f, t, d), j, 0, c.children.Some? && Finished(c) && j in c.children.value)
      && t in FoldTool(f, t, d).heap && FoldTool(f, t, d).heap[t].c == c
  {
    var c := Merged(f.heap[t].c, d);
    var g := Change(f, t, c).(byId := f.byId[d.id := t]);
    var ks := if c.children.Some? && Finished(c) then c.children.value else [];
    DoneAllTicks(g, ks, j);
    DoneAllTool(g, ks, t);
    hide Merged, Finished, DoneAll, Bump;
    BumpTicks(DoneAll(g, ks), t, j);
    BumpContents(DoneAll(g, ks).heap, t);
  }

  lemma {:induction false} DoneAllTool(f: Fold, ks: seq<Key>, t: Key)
    requires t in f.heap && f.heap[t].c.ToolBlock?
    ensures t in DoneAll(f, ks).heap && DoneAll(f, ks).heap[t].c == f.heap[t].c
  {
    if ks != [] {
      DoneAllTool(f, ks[..|ks| - 1], t);
      DoneSame(DoneAll(f, ks[..|ks| - 1]), Some(ks[|ks| - 1]), 0);
    }
  }

  // ---- events ----

  lemma TextTicks(f: Fold, e: Event, parent: string, j: Key)
    requires IsText(e.body) && IsThought(f, j) && j != e.sn
    ensures var c := Cur(f, Box(f, parent));
      Ticked(f, PushText(f, e, parent), j,
        if c == Some(j) && (e.body.Thought? || !f.heap[j].c.done) then e.ts else 0, e.body.Message? && c == Some(j))
  {
    var into := Box(f, parent);
    var c := Cur(f, into);
    DoneTicks(f, c, e.ts, j);
    DonePlain(f, c, e.ts);
    var f1 := if e.body.Message? then Done(f, c, e.ts) else f;
    hide Done, Box, Cur;
    if Continues(At(f1, c), e.body) {
      var f2 := Change(f1, c.value, Continued(f1.heap[c.value].c, e));
      BumpTicks(f2, c.value, j);
      SetCurTicks(Bumped(f2, c.value), into, c, j);
    } else {
      var b := if e.body.Thought? then ThoughtBlock(e.body.text, e.ts, e.ts, false)
               else MsgBlock(e.body.role, e.body.mid, e.body.text, e.body.files, e.body.steered);
      OpenTicks(f1, e.sn, b, into, j);
      SetCurTicks(Open(f1, e.sn, b, into), into, Some(e.sn), j);
    }
  }

  lemma ToolTicks(f: Fold, e: Event, j: Key)
    requires e.body.Tool? && IsThought(f, j) && e.sn !in f.heap
    requires var known := ToolAt(f, e.body.id);
      known.Some? ==> known.value in f.heap && f.heap[known.value].c.ToolBlock?
    ensures var d, f' := e.body, PushTool(f, e);
      var known, into := ToolAt(f, d.id), ToolBox(f, d.id, d.parent);
      var t := if known.Some? then known.value else e.sn;
      && t in f'.heap && f'.heap[t].c.ToolBlock?
      && Ticked(f, f', j, 0,
           || (into.Some? && Cur(f, into) == Some(j))
           || (Finished(f'.heap[t].c) && known.Some? && f.heap[t].c.children.Some? && j in f.heap[t].c.children.value))
  {
    var d := e.body;
    var known, into := ToolAt(f, d.id), ToolBox(f, d.id, d.parent);
    var f0 := if into.Some? then Done(f, Cur(f, into), 0) else f;
    DoneTicks(f, Cur(f, into), 0, j);
    DoneSame(f, Cur(f, into), 0);
    SetCurTicks(f0, into, None, j);
    var f1 := SetCur(f0, into, None);
    IntoKept(f0, into, known);
    hide Done, SetCur, ToolBox, Cur;
    if known.Some? {
      MergeTicks(f1, known.value, d, j);
      MergedChildren(f1.heap[known.value].c, d);
    } else {
      OpenTicks(f1, e.sn, NewTool(d.id, e.ts), into, j);
      Opened(f1, e.sn, NewTool(d.id, e.ts), into);
      var f2 := Open(f1, e.sn, NewTool(d.id, e.ts), into).(tools := f1.tools[(f1.turn, d.id) := e.sn]);
      hide Open;
      MergeTicks(f2, e.sn, d, j);
      MergedChildren(NewTool(d.id, e.ts), d);
    }
  }

  lemma IntoKept(f: Fold, into: Option<Key>, known: Option<Key>)
    requires known.Some? ==> known.value in f.heap && f.heap[known.value].c.ToolBlock?
    ensures var f1 := SetCur(f, into, None);
      && f1.tools == f.tools && f1.turn == f.turn && f1.heap.Keys == f.heap.Keys
      && (known.Some? ==>
           && f1.heap[known.value].c.ToolBlock?
           && f1.heap[known.value].c.children == f.heap[known.value].c.children)
  {
  }

  lemma Opened(f: Fold, k: Key, c: Content, into: Option<Key>)
    requires k !in f.heap
    ensures k in Open(f, k, c, into).heap && Open(f, k, c, into).heap[k].c == c
  {
    hide Bump;
  }

  lemma OtherTicks(f: Fold, e: Event, j: Key)
    requires !e.body.Tool? && !IsText(e.body) && IsThought(f, j) && j != e.sn && f.plan != Some(j)
    ensures Ticked(f, Route(f, e), j, 0, false)
  {
    hide Bump;
    match e.body {
      case FilesChanged(id, ended, patch) =>
        var t := ChangedTool(f, id);
        if id != "" && t.Some? && At(f, t).Some? && At(f, t).value.ToolBlock? {
          BumpTicks(Change(f, t.value, At(f, t).value.(diff := Some(patch))), t.value, j);
        }
      case Plan(entries) => PlanTicks(f, e, j);
      case PermissionResolved(pid, answer) => AnswerTicks(f, Find(f.perms, pid), answer, j);
      case ElicitationResolved(eid, answer) => AnswerTicks(f, Find(f.asks, eid), answer, j);
      case _ =>
    }
  }

  lemma AnswerTicks(f: Fold, k: Option<Key>, answer: string, j: Key)
    requires IsThought(f, j)
    ensures Ticked(f, Answered(f, k, answer), j, 0, false)
  {
    hide Bump;
    if At(f, k).Some? && At(f, k).value.AskBlock? {
      BumpTicks(Change(f, k.value, At(f, k).value.(answer := Some(answer))), k.value, j);
    }
  }

  lemma PlanTicks(f: Fold, e: Event, j: Key)
    requires e.body.Plan? && IsThought(f, j) && j != e.sn && f.plan != Some(j)
    ensures Ticked(f, PushPlan(f, e), j, 0, false)
  {
    hide Bump;
    var f1 := f.(cur := None);
    var f2 := if f.plan.Some? then f1 else Open(f1, e.sn, PlanBlock(""), None).(plan := Some(e.sn));
    if At(f2, f2.plan).Some? {
      BumpTicks(Change(f2, f2.plan.value, PlanBlock(e.body.entries)), f2.plan.value, j);
    }
  }

  // ---- the clock ----

  ghost predicate IsHead(turn: int, log: seq<Event>, h: nat)
    requires h < |log|
  {
    log[h].body.Thought? && Head(turn, log, h) == h
  }

  ghost predicate ClockIs(f: Fold, turn: int, log: seq<Event>, n: nat, h: nat)
    requires h < n <= |log|
  {
    var k := log[h].sn;
    && IsThought(f, k) && f.heap[k].c.t1 == Until(turn, log, n, h)
    && (f.heap[k].c.done <==> IsDone(turn, log, n, h))
  }

  lemma GoingKey(turn: int, log: seq<Event>, n: nat, lane: Option<Call>, h: nat)
    requires h < |log| && n <= |log| && Distinct(log)
    ensures TextKey(turn, log, n, lane) == Some(log[h].sn) <==> Going(turn, log, n, lane) == Some(h)
  {
    hide Head, Last;
  }

  /** One event more of the log. */
  lemma OneMoreEvent(turn: int, log: seq<Event>, n: nat, h: nat)
    requires h < n < |log|
    ensures IsDone(turn, log, n + 1, h) <==> IsDone(turn, log, n, h) || Stops(turn, log, n, h) || Cuts(turn, log, n, h)
    ensures var e := log[n];
      var mine := IsText(e.body) && Head(turn, log, n) == h;
      var stopped := !IsDone(turn, log, n, h) && Stops(turn, log, n, h);
      Until(turn, log, n + 1, h) == if (mine || stopped) && e.ts > 0 then e.ts else Until(turn, log, n, h)
  {
    hide Stops, Cuts, Head;
  }

  /** The event's first effect: the log's own running thought is over, unless the event leaves it. */
  lemma TopTicks(f: Fold, turn: int, log: seq<Event>, n: nat, h: nat)
    requires h < n < |log| && Distinct(log) && f.cur == TextKey(turn, log, n, None) && IsThought(f, log[h].sn)
    ensures var e, k := log[n], log[h].sn;
      var f0 := f.(lastSeq := if e.sn > f.lastSeq then e.sn else f.lastSeq);
      var f1 := if LeavesThought(e.body) then f0 else Done(f0, f0.cur, e.ts);
      var top := !LeavesThought(e.body) && Going(turn, log, n, None) == Some(h);
      Ticked(f, f1, k, if top && !f.heap[k].c.done then e.ts else 0, top)
  {
    hide Going, TextKey;
    GoingKey(turn, log, n, None, h);
    var f0 := f.(lastSeq := if log[n].sn > f.lastSeq then log[n].sn else f.lastSeq);
    DoneTicks(f0, f0.cur, log[n].ts, log[h].sn);
    hide Done;
  }

  lemma TextClock(f: Fold, turn: int, log: seq<Event>, n: nat, parent: string, h: nat)
    requires h < n < |log| && Distinct(log) && Inv(f, turn, log, n) && IsThought(f, log[h].sn)
    requires IsText(log[n].body) && log[n].body.parent == parent && IsHead(turn, log, h)
    ensures var e, k := log[n], log[h].sn;
      var here := Going(turn, log, n, LaneOf(turn, log, n)) == Some(h);
      && Ticked(f, PushText(f, e, parent), k, if here && (e.body.Thought? || !f.heap[k].c.done) then e.ts else 0,
                e.body.Message? && here)
      && (Head(turn, log, n) == h <==> here && e.body.Thought?)
  {
    hide PushText, Box, Cur, Inv, TextKey;
    TextResolves(f, turn, log, n, parent);
    GoingKey(turn, log, n, LaneOf(turn, log, n), h);
    TextTicks(f, log[n], parent, log[h].sn);
    hide Distinct;
    RunGoesOn(turn, log, n, h);
  }

  lemma RunGoesOn(turn: int, log: seq<Event>, n: nat, h: nat)
    requires h < n < |log| && IsText(log[n].body) && IsHead(turn, log, h)
    ensures Head(turn, log, n) == h <==>
      log[n].body.Thought? && Going(turn, log, n, LaneOf(turn, log, n)) == Some(h)
  {
    var i := Last(turn, log, n, LaneOf(turn, log, n));
    if i.Some? && Head(turn, log, i.value) == h && i.value != h { assert Joins(log[h].body, log[i.value].body); }
  }

  lemma ToolClock(f: Fold, turn: int, log: seq<Event>, n: nat, h: nat)
    requires h < n < |log| && Distinct(log) && Inv(f, turn, log, n) && Placed(f, turn, log, n)
    requires IsThought(f, log[h].sn) && log[n].body.Tool? && IsHead(turn, log, h)
    ensures Ticked(f, PushTool(f, log[n]), log[h].sn, 0, Cuts(turn, log, n, h))
  {
    hide PushTool, Plains, Plain, ToolBox, Cur, ToolAt, Calls, Curs, Texts, Others, TextKey, CallKey, LaneOf,
      CallsFiled, AsksFiled, KeysFiled, Kids, RowsAre, Going, IsOver, Finished, Head;
    var e, k, call := log[n], log[h].sn, (Counter(turn, log, n), log[n].body.id);
    FreshKey(f, turn, log, n);
    BoxIsLane(f, turn, log, n);
    CallThereToo(f, turn, log, n, call);
    ToolTicks(f, e, k);
    LaneKnown(turn, log, n, LaneOf(turn, log, n));
    if LaneOf(turn, log, n).Some? {
      LaneGoesOn(f, turn, log, n, LaneOf(turn, log, n));
      GoingKey(turn, log, n, LaneOf(turn, log, n), h);
    }
    ToolStep(f, turn, log, n);
    OverIsFinished(PushTool(f, e), turn, log, n);
    InCard(f, turn, log, n, call, h);
    KnownKey(turn, log, n, call);
  }

  lemma KnownKey(turn: int, log: seq<Event>, n: nat, call: Call)
    requires n < |log| && log[n].body.Tool? && call == (Counter(turn, log, n), log[n].body.id)
    ensures var k := CallKey(turn, log, n, Some(call));
      CallKey(turn, log, n + 1, Some(call)) == Some(if k.Some? then k.value else log[n].sn)
  {
  }

  lemma OverIsFinished(f: Fold, turn: int, log: seq<Event>, n: nat)
    requires n < |log| && log[n].body.Tool? && Inv(f, turn, log, n + 1)
    ensures var k := CallKey(turn, log, n + 1, Some((Counter(turn, log, n), log[n].body.id)));
      && k.Some? && k.value in f.heap && f.heap[k.value].c.ToolBlock?
      && (Finished(f.heap[k.value].c) <==> IsOver(turn, log, n))
  {
    hide Filed, Curs, Texts, Others, Counter, Output, LaneOf, Given, Card, Patch;
    var call := (Counter(turn, log, n), log[n].body.id);
    KnownKey(turn, log, n, call);
    assert CallIs(Plains(f.heap), turn, log, n + 1, call);
    CallThereToo(f, turn, log, n + 1, call);
    var c := f.heap[CallKey(turn, log, n + 1, Some(call)).value].c;
    assert Given(turn, log, n + 1, call, "status") == if "status" in c.fields then Some(c.fields["status"]) else None;
  }

  /** A thought is among what a card holds exactly when it is in its lane. */
  lemma InCard(f: Fold, turn: int, log: seq<Event>, n: nat, call: Call, h: nat)
    requires h < n < |log| && Distinct(log) && Inv(f, turn, log, n) && Placed(f, turn, log, n) && IsHead(turn, log, h)
    ensures var k := CallKey(turn, log, n, Some(call));
      (k.Some? && k.value in f.heap && f.heap[k.value].c.ToolBlock? && f.heap[k.value].c.children.Some?
       && log[h].sn in f.heap[k.value].c.children.value) <==> LaneOf(turn, log, h) == Some(call)
  {
    hide Filed, Curs, Texts, Others, RowsAre, Output, Given, Patch, LaneOf;
    assert CallIs(Plains(f.heap), turn, log, n, call) && Holds(Plains(f.heap), turn, log, n, call);
    CallThereToo(f, turn, log, n, call);
    InsideHas(turn, log, n, call, h);
    if LaneOf(turn, log, h) == Some(call) { LaneIsCard(turn, log, n, h, call); }
  }

  lemma LaneIsCard(turn: int, log: seq<Event>, n: nat, h: nat, call: Call)
    requires h < n <= |log| && LaneOf(turn, log, h) == Some(call)
    ensures Card(turn, log, n, call) && First(turn, log, n, call).Some?
  {
    LaneKnown(turn, log, h, Some(call));
    FirstStays(turn, log, h, n, call);
  }

  lemma {:induction false} InsideHas(turn: int, log: seq<Event>, n: nat, call: Call, h: nat)
    requires h < |log| && n <= |log| && Distinct(log) && IsHead(turn, log, h)
    ensures log[h].sn in Inside(turn, log, n, call) <==> h < n && LaneOf(turn, log, h) == Some(call)
  {
    hide LaneOf, Head;
    if n > 0 { InsideHas(turn, log, n - 1, call, h); }
  }

  lemma NotThePlan(f: Fold, turn: int, log: seq<Event>, n: nat, j: Key)
    requires n <= |log| && Inv(f, turn, log, n) && IsThought(f, j)
    ensures f.plan != Some(j)
  {
    PlanThere(f, log, n);
  }

  lemma RouteClock(f: Fold, turn: int, log: seq<Event>, n: nat, h: nat)
    requires h < n < |log| && Distinct(log) && Inv(f, turn, log, n) && Placed(f, turn, log, n)
    requires IsThought(f, log[h].sn) && IsHead(turn, log, h)
    ensures var e, k := log[n], log[h].sn;
      var here := IsText(e.body) && Going(turn, log, n, LaneOf(turn, log, n)) == Some(h);
      && Ticked(f, Route(f, e), k, if here && (e.body.Thought? || !f.heap[k].c.done) then e.ts else 0,
                (e.body.Message? && here) || Cuts(turn, log, n, h))
      && (IsText(e.body) && Head(turn, log, n) == h <==> here && e.body.Thought?)
  {
    hide PushText, PushTool, Inv, Placed, Ticked, IsHead, IsThought, Going, LaneOf, Head;
    match log[n].body {
      case Message(_, _, _, parent, _, _) => TextClock(f, turn, log, n, parent, h);
      case Thought(_, parent) => TextClock(f, turn, log, n, parent, h);
      case Tool(_, _, _, _, _, _) => ToolClock(f, turn, log, n, h);
      case _ =>
        NotThePlan(f, turn, log, n, log[h].sn);
        assert log[h].sn != log[n].sn;
        OtherTicks(f, log[n], log[h].sn);
    }
  }

  lemma ClockStep(f: Fold, turn: int, log: seq<Event>, n: nat, h: nat)
    requires h < n < |log| && Distinct(log) && Inv(f, turn, log, n) && Placed(f, turn, log, n)
    requires IsHead(turn, log, h) && ClockIs(f, turn, log, n, h)
    ensures ClockIs(Push(f, log[n]), turn, log, n + 1, h)
  {
    hide Done, Plains, Filed, Calls, Curs, Texts, Others, Kids, RowsAre, Route, Going, LaneOf, Head, IsDone, Until,
      TextKey, Cuts;
    var e := log[n];
    var f0 := f.(lastSeq := if e.sn > f.lastSeq then e.sn else f.lastSeq);
    var f1 := if LeavesThought(e.body) then f0 else Done(f0, f0.cur, e.ts);
    DonePlain(f0, f0.cur, e.ts);
    ClockAside(f, f1, turn, log, n);
    TopTicks(f, turn, log, n, h);
    RouteClock(f1, turn, log, n, h);
    OneMoreEvent(turn, log, n, h);
  }

  /** A thought begins. */
  lemma ClockStarts(f: Fold, turn: int, log: seq<Event>, n: nat)
    requires n < |log| && Distinct(log) && Inv(f, turn, log, n) && IsHead(turn, log, n)
    ensures ClockIs(Push(f, log[n]), turn, log, n + 1, n)
  {
    hide Plains, Filed, Calls, Curs, Texts, Others, LaneOf, Last, Head, TextKey, Box, Cur;
    var e := log[n];
    var f0 := f.(lastSeq := if e.sn > f.lastSeq then e.sn else f.lastSeq);
    ClockAside(f, f0, turn, log, n);
    TextResolves(f0, turn, log, n, e.body.parent);
    HeadOpens(turn, log, n);
    var into := Box(f0, e.body.parent);
    FreshKey(f0, turn, log, n);
    var c := ThoughtBlock(e.body.text, e.ts, e.ts, false);
    Opened(f0, e.sn, c, into);
    SetCurTicks(Open(f0, e.sn, c, into), into, Some(e.sn), e.sn);
    hide Open, SetCur;
  }

  lemma HeadOpens(turn: int, log: seq<Event>, n: nat)
    requires n < |log| && IsHead(turn, log, n)
    ensures var i := Last(turn, log, n, LaneOf(turn, log, n)); !(i.Some? && Joins(log[i.value].body, log[n].body))
  {
  }

  lemma {:induction false} FoldClocks(seed: nat, log: seq<Event>, n: nat, h: nat)
    requires Distinct(log) && h < n <= |log| && IsHead(Seeded(seed).turn, log, h)
    ensures ClockIs(FoldFrom(Seeded(seed), log[..n]), Seeded(seed).turn, log, n, h)
  {
    hide Push, Inv, Distinct, Placed, ClockIs, IsHead;
    var f, turn := FoldFrom(Seeded(seed), log[..n - 1]), Seeded(seed).turn;
    assert log[..n][..n - 1] == log[..n - 1];
    FoldHolds(seed, log, n - 1);
    if n == h + 1 {
      ClockStarts(f, turn, log, h);
    } else {
      FoldClocks(seed, log, n - 1, h);
      FoldPlaced(seed, log, n - 1);
      ClockStep(f, turn, log, n - 1, h);
    }
  }

  /** A thought is done once an event has ended it, and its time runs from its first event's to the last one given by an
      event of its own, or by the one that stopped it. */
  lemma ThoughtLasts(seed: nat, log: seq<Event>, h: nat)
    requires Distinct(log) && h < |log| && log[h].body.Thought? && Head(Seeded(seed).turn, log, h) == h
    ensures var f, turn, n := FoldFrom(Seeded(seed), log), Seeded(seed).turn, |log|;
      var k := log[h].sn;
      && k in f.heap && f.heap[k].c.ThoughtBlock?
      && f.heap[k].c.t0 == log[h].ts && f.heap[k].c.t1 == Until(turn, log, n, h)
      && (f.heap[k].c.done <==> exists i :: h < i < n && (Stops(turn, log, i, h) || Cuts(turn, log, i, h)))
  {
    FoldClocks(seed, log, |log|, h);
    TextIsItsRun(seed, log, h);
    assert log[..|log|] == log;
  }
}
