/** The condition on a split is needed, whatever the limit it goes by: a tail split while one of its events is missing
    may keep, in its older part, what later events did to the blocks they took for their own. */
module AnyOrderExamples {
  import opened Options
  import opened FoldSpec
  import opened FoldSim
  import opened FoldSplit
  import opened FoldSeed
  import opened PagesSpec
  import opened Pages
  import opened PagesRun
  import opened PagesTheorems
  import opened Delivery
  import opened AnyOrder
  import opened SplitExactly
  import opened AnyOrderRuns

  // ---- plain messages, and events that show nothing ----

  function Text(sn: nat, role: string, text: string): Event { Event(sn, 0, Message(role, text, "", "", None, false)) }

  function Quiet(sn: nat): Event { Event(sn, 0, Status("")) }

  function Said(role: string, text: string, v: nat): Block { Block(MsgBlock(role, "", text, None, false), v, None) }

  predicate Saying(f: Fold, role: string, text: string, v: nat) {
    f.cur.Some? && f.cur.value in f.heap && f.heap[f.cur.value] == Said(role, text, v)
  }

  /** The fold, whatever was its last event. */
  function Still(f: Fold): Fold { f.(lastSeq := 0) }

  /** A message of another role opens a block. */
  lemma NewText(f: Fold, sn: nat, role: string, text: string)
    requires f.cur.None? || exists other, said, v :: Saying(f, other, said, v) && other != role
    ensures Still(Push(f, Text(sn, role, text))) ==
      Still(f).(blocks := f.blocks + [sn], heap := f.heap[sn := Said(role, text, 0)], cur := Some(sn))
    ensures forall lo :: Clean(lo, f, Text(sn, role, text))
  {
  }

  /** A message of the same role goes on with the last block. */
  lemma MoreText(f: Fold, sn: nat, role: string, said: string, text: string, v: nat)
    requires Saying(f, role, said, v)
    ensures Still(Push(f, Text(sn, role, text))) ==
      Still(f).(heap := f.heap[f.cur.value := Said(role, said + text, v + 1)])
  {
  }

  predicate AllQuiet(events: seq<Event>) { forall i :: 0 <= i < |events| ==> events[i] == Quiet(events[i].sn) }

  lemma QuietPrefix(events: seq<Event>, n: nat)
    requires AllQuiet(events) && n <= |events|
    ensures AllQuiet(events[..n])
  {
  }

  lemma {:induction false} QuietFolds(f: Fold, events: seq<Event>)
    requires AllQuiet(events)
    ensures Still(FoldFrom(f, events)) == Still(f)
  {
    if events != [] {
      QuietFolds(f, events[..|events| - 1]);
      FoldStep(f, events);
      QuietPush(FoldFrom(f, events[..|events| - 1]), events[|events| - 1].sn);
    }
  }

  lemma QuietPush(f: Fold, sn: nat)
    ensures Still(Push(f, Quiet(sn))) == Still(f) && forall lo :: Clean(lo, f, Quiet(sn))
  {
  }

  // ---- the session ----

  /** Where the first message stands: behind as many quiet events as a tail may hold before it is split. */
  function At1(limit: nat): nat { 3 * limit + 1 }

  function QuietRun(from: nat, n: nat): (q: seq<Event>)
    ensures |q| == n && (forall i :: 0 <= i < n ==> q[i] == Quiet(from + i)) && AllQuiet(q)
  {
    seq(n, i requires 0 <= i < n => Quiet(from + i))
  }

  /** Three messages between quiet events; `pad` of them make up the rest of the last page. */
  function Session(limit: nat, pad: nat): (l: seq<Event>)
    ensures |l| == At1(limit) + 2 + pad
  {
    var a := At1(limit);
    QuietRun(1, a - 1) + [Text(a, "agent", "a"), Text(a + 1, "user", "b"), Text(a + 2, "agent", "c")]
      + QuietRun(a + 3, pad)
  }

  lemma SessionIs(limit: nat, pad: nat)
    ensures var l, a := Session(limit, pad), At1(limit);
      && (forall i :: 0 <= i < |l| ==> l[i].sn == i + 1)
      && l[a - 1] == Text(a, "agent", "a") && l[a] == Text(a + 1, "user", "b") && l[a + 1] == Text(a + 2, "agent", "c")
      && AllQuiet(l[..a - 1]) && AllQuiet(l[a + 2..])
  {
    var l, a := Session(limit, pad), At1(limit);
    var before, after := QuietRun(1, a - 1), QuietRun(a + 3, pad);
    assert l[..a - 1] == before && l[a + 2..] == after;
    forall i | 0 <= i < |l| ensures l[i].sn == i + 1 {
      if i < a - 1 { assert l[i] == before[i]; } else if i >= a + 2 { assert l[i] == after[i - a - 2]; }
    }
  }

  /** The fold once the first message was said; the second; the third. */
  function Fold1(a: nat): Fold { EMPTY.(blocks := [a], heap := map[a := Said("agent", "a", 0)], cur := Some(a)) }

  function Fold2(a: nat): Fold {
    Fold1(a).(blocks := [a, a + 1], heap := Fold1(a).heap[a + 1 := Said("user", "b", 0)], cur := Some(a + 1))
  }

  function Fold3(a: nat): Fold {
    Fold2(a).(blocks := [a, a + 1, a + 2], heap := Fold2(a).heap[a + 2 := Said("agent", "c", 0)], cur := Some(a + 2))
  }

  function FoldAt(a: nat, i: nat): Fold {
    if i < a then EMPTY else if i == a then Fold1(a) else if i == a + 1 then Fold2(a) else Fold3(a)
  }

  /** Each message of the session opens a block of its own. */
  lemma WholeIs(limit: nat, pad: nat, i: nat)
    requires i <= At1(limit) + 2 + pad
    ensures var l := Session(limit, pad); Still(FoldFrom(EMPTY, l[..i])) == FoldAt(At1(limit), i)
  {
    SessionIs(limit, pad);
    hide Push, Clean, FoldFrom, Session;
    var l, a := Session(limit, pad), At1(limit);
    if i < a {
      assert l[..i] == l[..a - 1][..i];
      QuietPrefix(l[..a - 1], i);
      QuietFolds(EMPTY, l[..i]);
    } else if i <= a + 2 {
      WholeIs(limit, pad, i - 1);
      var f := FoldFrom(EMPTY, l[..i - 1]);
      FoldStep(EMPTY, l[..i]);
      assert l[..i][..i - 1] == l[..i - 1];
      Speaks(a, i, f);
    } else {
      WholeIs(limit, pad, a + 2);
      FoldConcat(EMPTY, l[..a + 2], l[a + 2..i]);
      assert l[..a + 2] + l[a + 2..i] == l[..i];
      assert l[a + 2..i] == l[a + 2..][..i - a - 2];
      QuietPrefix(l[a + 2..], i - a - 2);
      QuietFolds(FoldFrom(EMPTY, l[..a + 2]), l[a + 2..i]);
    }
  }

  lemma Speaks(a: nat, i: nat, f: Fold)
    requires 0 < a <= i <= a + 2 && Still(f) == FoldAt(a, i - 1)
    ensures var e := if i == a then Text(a, "agent", "a") else if i == a + 1 then Text(i, "user", "b")
                     else Text(i, "agent", "c");
      Still(Push(f, e)) == FoldAt(a, i) && forall lo :: Clean(lo, f, e)
  {
    hide Push, Clean;
    if i == a {
      NewText(f, a, "agent", "a");
    } else if i == a + 1 {
      assert Saying(f, "agent", "a", 0);
      NewText(f, i, "user", "b");
    } else {
      assert Saying(f, "user", "b", 0);
      NewText(f, i, "agent", "c");
    }
  }

  lemma EventIsClean(limit: nat, pad: nat, i: nat, lo: nat)
    requires i < At1(limit) + 2 + pad
    ensures var l := Session(limit, pad); Clean(lo, FoldFrom(EMPTY, l[..i]), l[i])
  {
    SessionIs(limit, pad);
    hide Push, Clean, FoldFrom, Session;
    var l, a := Session(limit, pad), At1(limit);
    WholeIs(limit, pad, i);
    var f := FoldFrom(EMPTY, l[..i]);
    if a - 1 <= i <= a + 1 {
      Speaks(a, i + 1, f);
    } else {
      assert if i < a - 1 then l[i] == l[..a - 1][i] else l[i] == l[a + 2..][i - a - 2];
      QuietPush(f, i + 1);
    }
  }

  /** So a page may start anywhere in it. */
  lemma AnyCut(limit: nat, pad: nat, c: nat)
    requires 1 <= c <= At1(limit) + 3 + pad
    ensures var l := Session(limit, pad); Log(l) && CleanCut(l, c) && SeedFits(l, c, 0)
  {
    SessionIs(limit, pad);
    hide Clean, FoldFrom;
    var l := Session(limit, pad);
    NoTurns(limit, pad);
    var rest := l[c - 1..];
    forall i | 0 <= i < |rest| ensures Clean(c, FoldFrom(Whole(l, c - 1), rest[..i]), rest[i]) {
      FoldConcat(EMPTY, l[..c - 1], rest[..i]);
      assert l[..c - 1] + rest[..i] == l[..c - 1 + i];
      EventIsClean(limit, pad, c - 1 + i, c);
    }
  }

  lemma NoTurns(limit: nat, pad: nat)
    ensures forall i :: 0 <= i < |Session(limit, pad)| ==> !Session(limit, pad)[i].body.TurnEnd?
  {
    SessionIs(limit, pad);
    hide Session;
    var l, a := Session(limit, pad), At1(limit);
    forall i | 0 <= i < |l| ensures !l[i].body.TurnEnd? {
      if i < a - 1 { assert l[i] == l[..a - 1][i]; } else if i > a + 1 { assert l[i] == l[a + 2..][i - a - 2]; }
    }
  }

  // ---- the run ----

  /** The session up to the first message; and its last page, from the second one on. */
  function FirstPage(limit: nat, pad: nat): Page {
    Page(Session(limit, pad)[..At1(limit)], false, 1, At1(limit), 0)
  }

  function LastPage(limit: nat, pad: nat): Page {
    Page(Session(limit, pad)[At1(limit)..], true, At1(limit) + 1, At1(limit) + 2 + pad, 0)
  }

  /** All events come but the second message, the tail is split, and then that message comes. */
  function Early(limit: nat, pad: nat): seq<Op> {
    var l, a := Session(limit, pad), At1(limit);
    [OpenAt(FirstPage(limit, pad)), Op.Live(l[a + 1..]), Split(LastPage(limit, pad), limit), Op.Live([l[a]])]
  }

  lemma PagesAnswer(limit: nat, pad: nat)
    ensures TailPage(Session(limit, pad), FirstPage(limit, pad)) && TailPage(Session(limit, pad), LastPage(limit, pad))
  {
    SessionIs(limit, pad);
    hide CleanRun, TurnsRise, Session, CleanCut, SeedFits;
    AnyCut(limit, pad, 1);
    AnyCut(limit, pad, At1(limit) + 1);
    var l := Session(limit, pad);
    assert l[0..At1(limit)] == l[..At1(limit)] && l[At1(limit)..|l|] == l[At1(limit)..];
  }

  /** The session without its second message. */
  function Without2(l: seq<Event>, a: nat): seq<Event>
    requires a < |l|
  {
    l[..a] + l[a + 1..]
  }

  /** What folding that gives: one block. */
  function Joined(a: nat): Fold {
    EMPTY.(blocks := [a], heap := map[a := Said("agent", "ac", 1)], cur := Some(a))
  }

  lemma JoinedFolds(limit: nat, pad: nat)
    ensures var l, a := Session(limit, pad), At1(limit);
      Still(FoldFrom(FoldFrom(EMPTY, l[..a]), l[a + 1..])) == Joined(a)
  {
    SessionIs(limit, pad);
    hide Push, FoldFrom, Session;
    var l, a := Session(limit, pad), At1(limit);
    WholeIs(limit, pad, a);
    var f := FoldFrom(EMPTY, l[..a]);
    assert l[a + 1..] == [l[a + 1]] + l[a + 2..];
    FoldConcat(f, [l[a + 1]], l[a + 2..]);
    FoldStep(f, [l[a + 1]]);
    assert [l[a + 1]][..0] == [] && FoldFrom(f, []) == f by { NothingMore(f); }
    assert Saying(f, "agent", "a", 0);
    MoreText(f, a + 2, "agent", "a", "c", 0);
    assert "a" + "c" == "ac";
    assert f.heap[a := Said("agent", "ac", 1)] == map[a := Said("agent", "ac", 1)];
    QuietFolds(Push(f, l[a + 1]), l[a + 2..]);
  }

  lemma NothingMore(f: Fold)
    ensures FoldFrom(f, []) == f
  {
  }

  // ---- events that are new ----

  predicate New(t: View, events: seq<Event>) {
    && (forall n :: n in t.seen ==> n <= t.lastSeq)
    && forall i :: 0 <= i < |events| ==>
         events[i].sn > t.lastSeq && forall j :: 0 <= j < i ==> events[j].sn < events[i].sn
  }

  /** A view of one segment, live, with new events behind it. */
  function Behind1(t: View, s: Seg, events: seq<Event>): View {
    t.(segs := [s.(events := s.events + events, fold := FoldFrom(s.fold, events))], seen := t.seen + Numbers(events),
       lastSeq := if events == [] then t.lastSeq else events[|events| - 1].sn)
  }

  lemma {:induction false} NewCome(t: View, s: Seg, events: seq<Event>)
    requires t.segs == [s] && !t.detached && New(t, events)
    ensures DeliverAll(t, events) == (Behind1(t, s, events), {})
  {
    if events == [] {
      assert s.events + [] == s.events && Numbers([]) == {} && FoldFrom(s.fold, []) == s.fold;
      assert t.seen + Numbers([]) == t.seen && Behind1(t, s, []) == t;
    } else {
      var n := |events| - 1;
      NewCome(t, s, events[..n]);
      hide FoldFrom, Numbers, DeliverAll, Deliver;
      NotSeenYet(t, events, n);
      DeliverFront(t, events);
      NextComes(t, s, events, Behind1(t, s, events[..n]));
    }
  }

  lemma DeliverFront(t: View, events: seq<Event>)
    requires events != [] && DeliverAll(t, events[..|events| - 1]).1 == {}
    requires Deliver(DeliverAll(t, events[..|events| - 1]).0, events[|events| - 1]).1 == None
    ensures DeliverAll(t, events) == (Deliver(DeliverAll(t, events[..|events| - 1]).0, events[|events| - 1]).0, {})
  {
    hide Deliver;
  }

  lemma NextComes(t: View, s: Seg, events: seq<Event>, t1: View)
    requires events != [] && t.segs == [s] && !t.detached && t1 == Behind1(t, s, events[..|events| - 1])
    requires events[|events| - 1].sn !in t1.seen && events[|events| - 1].sn > t1.lastSeq
    ensures Deliver(t1, events[|events| - 1]) == (Behind1(t, s, events), None)
  {
    var n := |events| - 1;
    FoldStep(s.fold, events);
    NumbersAdd(events[..n], events[n]);
    assert events[..n] + [events[n]] == events && s.events + events[..n] + [events[n]] == s.events + events;
    hide FoldFrom, Numbers, Push;
    var s1 := t1.segs[0];
    assert t1.segs[..0] == [] && s1.events + [events[n]] == s.events + events;
    var s2 := s1.(events := s1.events + [events[n]], fold := Push(s1.fold, events[n]));
    assert [] + [s2] == Behind1(t, s, events).segs;
    assert t1.seen + {events[n].sn} == t.seen + Numbers(events);
    assert Deliver(t1, events[n]) ==
      (t1.(seen := t1.seen + {events[n].sn}, lastSeq := events[n].sn, segs := t1.segs[..0] + [s2]), None);
  }

  lemma NotSeenYet(t: View, events: seq<Event>, n: nat)
    requires New(t, events) && n < |events|
    ensures events[n].sn !in t.seen + Numbers(events[..n]) && events[n].sn > t.lastSeq
    ensures n > 0 ==> events[n].sn > events[n - 1].sn
  {
    forall e | e in events[..n] ensures e.sn != events[n].sn { var i :| 0 <= i < n && events[i] == e; }
  }

  // ---- step by step ----

  function Opened(limit: nat, pad: nat): View {
    var l, a := Session(limit, pad), At1(limit);
    View([Seg(1, l[..a], FoldFrom(EMPTY, l[..a]), 0)], Numbers(l[..a]), false, false, [], a)
  }

  lemma OpenedIs(limit: nat, pad: nat)
    ensures OpenTail(FirstPage(limit, pad)) == Opened(limit, pad)
  {
    SessionIs(limit, pad);
    hide Session, FoldFrom, Numbers;
    assert Seeded(0) == EMPTY;
  }

  /** The fold of all but the second message. */
  function LongFold(limit: nat, pad: nat): Fold {
    var l, a := Session(limit, pad), At1(limit);
    FoldFrom(FoldFrom(EMPTY, l[..a]), l[a + 1..])
  }

  function Followed1(limit: nat, pad: nat): View {
    var l, a := Session(limit, pad), At1(limit);
    var seen := Numbers(l[..a]) + Numbers(l[a + 1..]);
    View([Seg(1, Without2(l, a), LongFold(limit, pad), 0)], seen, false, false, [], |l|)
  }

  lemma FollowedOneIs(limit: nat, pad: nat)
    ensures Apply(Opened(limit, pad), Session(limit, pad)[At1(limit) + 1..]) == Followed1(limit, pad)
  {
    SessionIs(limit, pad);
    var l, a := Session(limit, pad), At1(limit);
    var t, events := Opened(limit, pad), l[a + 1..];
    FirstNumbers(limit, pad);
    hide Session, FoldFrom, Numbers, DeliverAll, Apply;
    assert New(t, events) by { assert forall i :: 0 <= i < |events| ==> events[i] == l[a + 1 + i]; }
    NewCome(t, t.segs[0], events);
    NoneLate(t, events, Behind1(t, t.segs[0], events));
    assert events[|events| - 1] == l[|l| - 1];
  }

  lemma NoneLate(t: View, events: seq<Event>, t': View)
    requires DeliverAll(t, events) == (t', {})
    ensures Apply(t, events) == t'
  {
    hide DeliverAll;
    assert RefoldSegs(t'.segs, {}) == t'.segs;
  }

  lemma FirstNumbers(limit: nat, pad: nat)
    ensures var l, a := Session(limit, pad), At1(limit);
      Exactly(Numbers(l[..a]), 1, a + 1) && Exactly(Numbers(l[a + 1..]), a + 2, |l| + 1)
  {
    SessionIs(limit, pad);
    var l, a := Session(limit, pad), At1(limit);
    hide Session;
    NumbersOfSlice(l, 1, a + 1);
    NumbersOfSlice(l, a + 2, |l| + 1);
    assert l[0..a] == l[..a] && l[a + 1..|l|] == l[a + 1..];
  }

  /** Once it was split: the older part shows "ac". */
  function Cut1(limit: nat, pad: nat): View {
    var l, a := Session(limit, pad), At1(limit);
    var f := LongFold(limit, pad);
    Followed1(limit, pad).(segs :=
      [Seg(1, l[..a], OldPart(f, a + 1), 0), Seg(a + 1, l[a + 1..], NewPart(f, a + 1), 0)])
  }

  lemma CutOneIs(limit: nat, pad: nat)
    ensures SplitTail(Followed1(limit, pad), LastPage(limit, pad), limit) == Cut1(limit, pad)
    ensures Followed1(limit, pad) != Cut1(limit, pad)
  {
    SessionIs(limit, pad);
    var l, a := Session(limit, pad), At1(limit);
    hide Session, OldPart, NewPart, LongFold, Numbers;
    var evs := Without2(l, a);
    assert evs[..a] == l[..a] && evs[a..] == l[a + 1..] && |evs| == |l| - 1;
    assert forall j :: 0 <= j < |evs| ==> evs[j] == if j < a then l[j] else l[j + 1];
    FirstFromIs(evs, a + 1, a);
    hide FirstFrom;
    var t := Followed1(limit, pad);
    assert t.segs[..0] == [];
  }

  lemma {:induction false} InsertFirst(events: seq<Event>, e: Event)
    requires forall i :: 0 <= i < |events| ==> events[i].sn > e.sn
    ensures InsertEvent(events, e) == [e] + events
  {
    if events != [] {
      InsertFirst(events[..|events| - 1], e);
      assert [e] + events[..|events| - 1] + [events[|events| - 1]] == [e] + events;
    }
  }

  lemma EndIs(limit: nat, pad: nat)
    ensures var l, a := Session(limit, pad), At1(limit);
      var t, c := Apply(Cut1(limit, pad), [l[a]]), Cut1(limit, pad);
      && |t.segs| == 2 && t.lastSeq == |l| && !t.detached && t.below == [] && t.segs[0] == c.segs[0]
      && t.segs[1].first == a + 1 && t.segs[1].events == l[a..] && forall n :: n in t.seen <==> 1 <= n <= |l|
  {
    SessionIs(limit, pad);
    FirstNumbers(limit, pad);
    var l, a := Session(limit, pad), At1(limit);
    hide Session, OldPart, NewPart, LongFold, Numbers, FoldFrom;
    var t := Cut1(limit, pad);
    assert SegOf(t, a + 1, 2) == Some(1);
    InsertFirst(l[a + 1..], l[a]);
    assert [l[a]] + l[a + 1..] == l[a..];
    OneDelivery(t, l[a]);
  }

  lemma OneDelivery(t: View, e: Event)
    ensures var (t', k) := Deliver(t, e);
      Apply(t, [e]) == t'.(segs := RefoldSegs(t'.segs, if k.Some? then {k.value} else {}))
  {
    assert [e][..0] == [];
    hide Deliver, RefoldSegs;
    assert DeliverAll(t, [e][..0]) == (t, {});
  }

  lemma EarlySteps(limit: nat, pad: nat)
    ensures var ops := Early(limit, pad);
      && After(ops[..0]) == CLOSED && After(ops[..1]) == Opened(limit, pad) && After(ops[..2]) == Followed1(limit, pad)
      && After(ops[..3]) == Cut1(limit, pad)
      && After(ops) == Apply(Cut1(limit, pad), [Session(limit, pad)[At1(limit)]])
  {
    hide OpenTail, Apply, SplitTail, Session, FirstPage, LastPage, Opened, Followed1, Cut1;
    var ops := Early(limit, pad);
    assert forall i, j :: 0 <= i <= j <= 4 ==> ops[..j][..i] == ops[..i];
    assert ops[..4] == ops;
    OpenedIs(limit, pad);
    FollowedOneIs(limit, pad);
    CutOneIs(limit, pad);
  }

  lemma OneIsSteady(t: View, e: Event)
    requires MayTake(t, e)
    ensures Steady(t, [e])
  {
    assert [e][..0] == [];
  }

  lemma OpeningMay(limit: nat, pad: nat)
    ensures May(Session(limit, pad), CLOSED, Early(limit, pad)[0]) && Log(Session(limit, pad))
    ensures Good(Session(limit, pad), Opened(limit, pad))
  {
    AnyCut(limit, pad, 1);
    PagesAnswer(limit, pad);
    OpenedIs(limit, pad);
    hide Session, Log, TailPage, OpenTail, Opened, Good, FirstPage, LastPage;
    OpenHolds(Session(limit, pad), FirstPage(limit, pad));
  }

  /** A tail that holds on to nothing older takes what is in the log. */
  lemma FollowingMay(limit: nat, pad: nat)
    ensures May(Session(limit, pad), Opened(limit, pad), Early(limit, pad)[1])
    ensures Good(Session(limit, pad), Followed1(limit, pad))
  {
    OpeningMay(limit, pad);
    FollowedOneIs(limit, pad);
    OpenedFolded(limit, pad);
    RestOfLog(limit, pad);
    hide Session, Log, Opened, Followed1, Good, FirstPage, LastPage, Folded, Steady, AllOfLog, Apply, TailFree;
    FoldedIsFree(Session(limit, pad), Opened(limit, pad));
    FreeTakes(Session(limit, pad), Opened(limit, pad), Session(limit, pad)[At1(limit) + 1..]);
  }

  lemma RestOfLog(limit: nat, pad: nat)
    ensures AllOfLog(Session(limit, pad), Session(limit, pad)[At1(limit) + 1..])
  {
    SessionIs(limit, pad);
    hide Session;
    var rest := Session(limit, pad)[At1(limit) + 1..];
    assert forall i :: 0 <= i < |rest| ==> rest[i] == Session(limit, pad)[At1(limit) + 1 + i];
  }

  lemma OpenedFolded(limit: nat, pad: nat)
    ensures var t := Opened(limit, pad); !t.detached && |t.segs| == 1 && Folded(t.segs[0])
  {
    hide FoldFrom, Session;
    assert Seeded(0) == EMPTY;
  }

  /** For every limit the tail may be split at: each step is as asked, but that the tail is split while the second
      message is missing, and the third has gone on with the first one's block. All events come; the older part, which
      ends with the first message, goes on showing the third one's text. */
  lemma SplitWithAGap(limit: nat, pad: nat)
    ensures var l, a, ops := Session(limit, pad), At1(limit), Early(limit, pad);
      && Log(l) && ops[0].OpenAt? && TailPage(l, LastPage(limit, pad)) && After(ops[..3]) != After(ops[..2])
      && (forall i :: 0 <= i < 4 ==> (May(l, After(ops[..i]), ops[i]) <==> i != 2))
      && var t := After(ops);
         && |t.segs| == 2 && (forall n :: n in t.seen <==> 1 <= n <= |l|) && NoGap(t) && Hi(t, 0) == a + 1
         && t.segs[0].events == l[..a] && t.segs[1].events == l[a..]
         && At(t.segs[0].fold, Some(a)) == Some(MsgBlock("agent", "", "ac", None, false))
         && At(OwnFold(t.segs[0]), Some(a)) == Some(MsgBlock("agent", "", "a", None, false))
         && At(Whole(l, |l|), Some(a)) == Some(MsgBlock("agent", "", "a", None, false))
         && !Agrees(t.segs[0], a + 1)
  {
    OpeningMay(limit, pad);
    PagesAnswer(limit, pad);
    EarlySteps(limit, pad);
    GapMay(limit, pad);
    CutOneIs(limit, pad);
    hide Session, Log, TailPage, FoldFrom, Apply, Numbers, May, After, Agrees, Followed1, Cut1, Opened, FirstPage,
      LastPage, Good;
    GapEnds(limit, pad);
  }

  lemma GapMay(limit: nat, pad: nat)
    ensures var l, ops := Session(limit, pad), Early(limit, pad);
      forall i :: 0 <= i < 4 ==> (May(l, After(ops[..i]), ops[i]) <==> i != 2)
  {
    OpeningMay(limit, pad);
    EarlySteps(limit, pad);
    FollowingMay(limit, pad);
    SplitMayNot(limit, pad);
    LastMessageMay(limit, pad);
    hide Session, Log, May, After, Opened, Followed1, Cut1, Good, Early;
  }

  lemma GapEnds(limit: nat, pad: nat)
    ensures var l, a := Session(limit, pad), At1(limit);
      var t := Apply(Cut1(limit, pad), [l[a]]);
      && |t.segs| == 2 && (forall n :: n in t.seen <==> 1 <= n <= |l|) && NoGap(t) && Hi(t, 0) == a + 1
      && t.segs[0].events == l[..a] && t.segs[1].events == l[a..]
      && At(t.segs[0].fold, Some(a)) == Some(MsgBlock("agent", "", "ac", None, false))
      && At(OwnFold(t.segs[0]), Some(a)) == At(Whole(l, |l|), Some(a)) == Some(MsgBlock("agent", "", "a", None, false))
      && !Agrees(t.segs[0], a + 1)
  {
    EndIs(limit, pad);
    BlockTexts(limit, pad);
    CutFirst(limit, pad);
    hide Session, FoldFrom, Apply, Agrees, Cut1, Whole, OwnFold;
  }

  lemma CutFirst(limit: nat, pad: nat)
    ensures var t := Cut1(limit, pad);
      |t.segs| == 2 && Hi(t, 0) == At1(limit) + 1 && t.segs[0].first == 1
      && t.segs[0].events == Session(limit, pad)[..At1(limit)]
  {
  }

  lemma LastMessageMay(limit: nat, pad: nat)
    ensures May(Session(limit, pad), Cut1(limit, pad), Early(limit, pad)[3])
  {
    SessionIs(limit, pad);
    hide Session, FoldFrom, Numbers;
    OneIsSteady(Cut1(limit, pad), Session(limit, pad)[At1(limit)]);
  }

  /** What the older part shows, and what it should. */
  lemma BlockTexts(limit: nat, pad: nat)
    ensures var l, a := Session(limit, pad), At1(limit);
      var s := Cut1(limit, pad).segs[0];
      && At(s.fold, Some(a)) == Some(MsgBlock("agent", "", "ac", None, false))
      && At(OwnFold(s), Some(a)) == At(Whole(l, |l|), Some(a)) == Some(MsgBlock("agent", "", "a", None, false))
      && !Agrees(s, a + 1)
  {
    var l, a := Session(limit, pad), At1(limit);
    var s := Cut1(limit, pad).segs[0];
    OlderText(limit, pad);
    WholeIs(limit, pad, |l|);
    assert l[..|l|] == l;
    hide Session, FoldFrom, Cut1;
    TextOf(Whole(l, |l|), Fold3(a), a, "a");
    Differ(s, a);
  }

  lemma OlderText(limit: nat, pad: nat)
    ensures var l, a := Session(limit, pad), At1(limit);
      var s := Cut1(limit, pad).segs[0];
      && s.first == 1 && At(s.fold, Some(a)) == Some(MsgBlock("agent", "", "ac", None, false))
      && At(OwnFold(s), Some(a)) == Some(MsgBlock("agent", "", "a", None, false))
  {
    var l, a := Session(limit, pad), At1(limit);
    var s := Cut1(limit, pad).segs[0];
    hide Session, FoldFrom, NewPart, KeysBelow, Numbers;
    JoinedFolds(limit, pad);
    WholeIs(limit, pad, a);
    assert s.fold.heap == LongFold(limit, pad).heap && Seeded(0) == EMPTY && OwnFold(s) == FoldFrom(EMPTY, l[..a]);
    TextOf(s.fold, Joined(a), a, "ac");
    TextOf(OwnFold(s), Fold1(a), a, "a");
  }

  lemma TextOf(f: Fold, g: Fold, k: Key, text: string)
    requires f.heap == g.heap && k in g.heap && g.heap[k].c == MsgBlock("agent", "", text, None, false)
    ensures At(f, Some(k)) == Some(MsgBlock("agent", "", text, None, false))
  {
  }

  lemma Differ(s: Seg, k: Key)
    requires s.first <= k && At(s.fold, Some(k)).Some? && At(s.fold, Some(k)) != At(OwnFold(s), Some(k))
    ensures !Agrees(s, k + 1)
  {
    hide FoldFrom;
  }

  /** The split is not one of those that are safe: what it leaves is no longer what a fold of its events shows. */
  lemma SplitMayNot(limit: nat, pad: nat)
    ensures !May(Session(limit, pad), Followed1(limit, pad), Early(limit, pad)[2])
  {
    var l, p, t := Session(limit, pad), LastPage(limit, pad), Followed1(limit, pad);
    OpeningMay(limit, pad);
    FollowingMay(limit, pad);
    CutOneIs(limit, pad);
    BlockTexts(limit, pad);
    CutFirst(limit, pad);
    hide Session, Log, FoldFrom, Agrees, Followed1, Cut1, Good, TailWhole, CleanSplit, SplitTail, LastPage, FirstPage,
      Hi, Opened, TailPage;
    if May(l, t, Split(p, limit)) {
      SafeSplitHolds(l, t, p, limit);
      GoodAgrees(l, Cut1(limit, pad), 0);
    }
  }
}
