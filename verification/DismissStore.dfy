/** The page's one store of dismissals: a change shows at once and is stored by one chain of updates, each reading,
    changing and writing while the others wait. */
module DismissStore {
  import opened Options
  import opened Dismiss

  /** How often a failed update is tried again. */
  const RETRIES := 3

  // ---- what is shown ----

  /** Changes in order, each read back. */
  function Compose(v: Json, cs: seq<Change>): Json {
    if cs == [] then v else Apply(cs[|cs| - 1], Compose(v, cs[..|cs| - 1]))
  }

  function Reduce(cs: seq<Change>, v: Json): Json {
    if cs == [] then v else Run(cs[|cs| - 1], Reduce(cs[..|cs| - 1], v))
  }

  lemma {:induction false} ReduceComposes(cs: seq<Change>, v: Json)
    requires Norm(v) == v
    ensures Norm(Reduce(cs, v)) == Compose(v, cs) && Norm(Compose(v, cs)) == Compose(v, cs)
  {
    hide Norm, Run;
    if cs != [] {
      var front, c := cs[..|cs| - 1], cs[|cs| - 1];
      ReduceComposes(front, v);
      RunNormalises(c, Reduce(front, v));
      NormTwice(Run(c, Compose(v, front)));
    }
  }

  lemma {:induction false} ComposeConcat(v: Json, a: seq<Change>, b: seq<Change>)
    ensures Compose(v, a + b) == Compose(Compose(v, a), b)
  {
    hide Apply;
    if b == [] {
      assert a + b == a;
    } else {
      ComposeConcat(v, a, b[..|b| - 1]);
      assert (a + b)[..|a + b| - 1] == a + b[..|b| - 1];
    }
  }

  // ---- the page ----

  /** What readers see; the last stored value read or written; the changes not stored yet, oldest first. */
  datatype Page = Page(value: Option<Json>, stored: Option<Json>, queued: seq<Change>)

  function Settled(p: Page, d: Json): Page {
    p.(stored := Some(Norm(d)), value := Some(Norm(Reduce(p.queued, Norm(d)))))
  }

  function Changed(p: Page, c: Change): Page {
    p.(queued := p.queued + [c], value := if p.value.Some? then Some(Apply(c, p.value.value)) else None)
  }

  function IndexOf(cs: seq<Change>, c: Change): (i: nat)
    ensures i <= |cs| && (i < |cs| ==> cs[i] == c) && forall j :: 0 <= j < i ==> cs[j] != c
  {
    if cs == [] || cs[0] == c then 0 else 1 + IndexOf(cs[1..], c)
  }

  function Spliced(p: Page, c: Change): Page {
    var i := IndexOf(p.queued, c);
    if i < |p.queued| then p.(queued := p.queued[..i] + p.queued[i + 1..]) else p
  }

  // ---- updates ----

  datatype Phase =
    | Waiting
    | Reading(tries: nat)
    | Writing(tries: nat, next: Json)
    | Sleeping(tries: nat)
    | Undoing // given up, reading what is stored
    | Ended(ok: bool)

  /** `took`: one of its writes took effect at the server, answered or not. */
  datatype Update = Update(c: Change, phase: Phase, took: bool)

  datatype Sys = Sys(page: Page, updates: seq<Update>, server: Json)

  /** Nothing is dismissed: the value is deleted instead. */
  predicate Empty(v: Json) { v.Obj? && v.m.Keys == KINDS && forall k :: k in KINDS ==> v.m[k] == Obj(map[]) }

  datatype Step =
    | Change(c: Change)
    | Load(d: Option<Json>) // whatever the server says, now or a while ago
    | Start(i: nat)
    | Read(i: nat, ok: bool)
    | Write(i: nat, ok: bool, took: bool)
    | Wake(i: nat)
    | Undo(i: nat, d: Option<Json>)
    | Other(written: Json) // another page writes

  predicate IsAt(y: Sys, i: nat) { i < |y.updates| }

  predicate Guard(y: Sys, step: Step) {
    match step
    case Change(_) => true
    case Load(_) => true
    case Start(i) => IsAt(y, i) && y.updates[i].phase.Waiting? && (i > 0 ==> y.updates[i - 1].phase.Ended?)
    case Read(i, _) => IsAt(y, i) && y.updates[i].phase.Reading?
    case Write(i, ok, took) => IsAt(y, i) && y.updates[i].phase.Writing? && (ok ==> took)
    case Wake(i) => IsAt(y, i) && y.updates[i].phase.Sleeping?
    case Undo(i, _) => IsAt(y, i) && y.updates[i].phase.Undoing?
    case Other(_) => true
  }

  function With(y: Sys, i: nat, phase: Phase): Sys
    requires IsAt(y, i)
  {
    y.(updates := y.updates[i := y.updates[i].(phase := phase)])
  }

  /** An attempt failed: again after a wait, or given up. */
  function Failed(y: Sys, i: nat, tries: nat): Sys
    requires IsAt(y, i)
  {
    if tries >= RETRIES then With(y.(page := Spliced(y.page, y.updates[i].c)), i, Undoing)
      else With(y, i, Sleeping(tries))
  }

  function Do(y: Sys, step: Step): Sys
    requires Guard(y, step)
  {
    match step
    case Change(c) => y.(page := Changed(y.page, c), updates := y.updates + [Update(c, Waiting, false)])
    case Load(d) => if d.Some? then y.(page := Settled(y.page, d.value)) else y
    case Start(i) => With(y, i, Reading(0))
    case Read(i, ok) =>
      var u := y.updates[i];
      if ok then With(y, i, Writing(u.phase.tries, Apply(u.c, Norm(y.server)))) else Failed(y, i, u.phase.tries)
    case Write(i, ok, took) =>
      var u := y.updates[i];
      var next := u.phase.next;
      var y1 := y.(server := if !took then y.server else if Empty(next) then Null else next,
                   updates := y.updates[i := u.(took := u.took || took)]);
      if ok then With(y1.(page := Settled(Spliced(y.page, u.c), next)), i, Ended(true))
        else Failed(y1, i, u.phase.tries)
    case Wake(i) => With(y, i, Reading(y.updates[i].phase.tries + 1))
    case Undo(i, d) =>
      var cur := if d.Some? then d else y.page.stored;
      With(if cur.Some? then y.(page := Settled(y.page, cur.value)) else y, i, Ended(false))
    case Other(d) => y.(server := d)
  }

  // ---- one at a time, in order ----

  predicate Over(u: Update) { u.phase.Ended? || u.phase.Undoing? }

  /** An update has begun only when all before it have ended. */
  predicate OneAtATime(us: seq<Update>) {
    forall i, j :: 0 <= i < j < |us| && !us[j].phase.Waiting? ==> us[i].phase.Ended?
  }

  /** The changes of the updates not over. */
  function Pending(us: seq<Update>): seq<Change> {
    if us == [] then [] else (if Over(us[0]) then [] else [us[0].c]) + Pending(us[1..])
  }

  lemma {:induction false} PendingAdd(us: seq<Update>, u: Update)
    ensures Pending(us + [u]) == Pending(us) + if Over(u) then [] else [u.c]
  {
    if us != [] { PendingAdd(us[1..], u); assert (us + [u])[1..] == us[1..] + [u]; }
  }

  /** The one update under way is the oldest pending. */
  lemma {:induction false} PendingAt(us: seq<Update>, i: nat)
    requires i < |us| && forall j :: 0 <= j < i ==> us[j].phase.Ended?
    ensures Pending(us) == (if Over(us[i]) then [] else [us[i].c]) + Pending(us[i + 1..])
  {
    if i > 0 { PendingAt(us[1..], i - 1); assert us[1..][i..] == us[i + 1..]; }
  }

  lemma PendingSet(us: seq<Update>, i: nat, u: Update)
    requires i < |us| && (forall j :: 0 <= j < i ==> us[j].phase.Ended?) && u.c == us[i].c
    ensures Pending(us[i := u]) == (if Over(u) then [] else [u.c]) + Pending(us[i + 1..])
  {
    PendingAt(us[i := u], i);
    assert us[i := u][i + 1..] == us[i + 1..];
  }

  // ---- what is shown, all along ----

  /** The value shown is the changes queued, or those and one just given up, on top of the stored value. */
  predicate ShownIs(p: Page, us: seq<Update>) {
    && (p.value.Some? <==> p.stored.Some?)
    && (p.stored.Some? ==> Norm(p.stored.value) == p.stored.value)
    && (p.stored.Some? ==>
          || p.value.value == Compose(p.stored.value, p.queued)
          || exists i ::
               && 0 <= i < |us| && us[i].phase.Undoing?
               && p.value.value == Compose(p.stored.value, [us[i].c] + p.queued))
  }

  predicate Inv(y: Sys) { OneAtATime(y.updates) && y.page.queued == Pending(y.updates) && ShownIs(y.page, y.updates) }

  lemma SettledShows(p: Page, d: Json, us: seq<Update>)
    ensures ShownIs(Settled(p, d), us) && Settled(p, d).queued == p.queued
    ensures Settled(p, d).value == Some(Compose(Norm(d), p.queued))
  {
    hide Norm;
    NormTwice(d);
    ReduceComposes(p.queued, Norm(d));
  }

  lemma ChangedShows(p: Page, us: seq<Update>, c: Change)
    requires ShownIs(p, us)
    ensures ShownIs(Changed(p, c), us + [Update(c, Waiting, false)])
  {
    hide Norm, Apply;
    if p.stored.Some? {
      var s, q := p.stored.value, p.queued;
      assert (q + [c])[..|q|] == q;
      if p.value.value != Compose(s, q) {
        var i :| 0 <= i < |us| && us[i].phase.Undoing? && p.value.value == Compose(s, [us[i].c] + q);
        assert (us + [Update(c, Waiting, false)])[i] == us[i];
        assert ([us[i].c] + (q + [c]))[..|q| + 1] == [us[i].c] + q;
      }
    }
  }

  /** The chain's next steps keep order. */
  lemma OrderKept(us: seq<Update>, i: nat, u: Update)
    requires OneAtATime(us) && i < |us| && !u.phase.Waiting?
    requires us[i].phase.Waiting? ==> i > 0 ==> us[i - 1].phase.Ended?
    requires us[i].phase.Ended? ==> u.phase.Ended?
    ensures OneAtATime(us[i := u]) && forall j :: 0 <= j < i ==> us[j].phase.Ended?
  {
    forall j | 0 <= j < i ensures us[j].phase.Ended? {
      if us[i].phase.Waiting? && j < i - 1 { assert !us[i - 1].phase.Waiting?; }
    }
  }

  /** While an update runs and none is being undone, the shown value is exactly the queue on top of the stored value. */
  lemma NoneUndoing(us: seq<Update>, i: nat)
    requires OneAtATime(us) && i < |us| && !us[i].phase.Undoing? && !us[i].phase.Waiting?
      && (us[i].phase.Ended? ==> i == |us| - 1)
    ensures forall j :: 0 <= j < |us| ==> !us[j].phase.Undoing?
  {
  }

  lemma SplicedHead(p: Page, c: Change, rest: seq<Change>)
    requires p.queued == [c] + rest
    ensures Spliced(p, c) == p.(queued := rest)
  {
    assert IndexOf(p.queued, c) == 0;
    assert p.queued[..0] + p.queued[1..] == rest;
  }

  lemma MoveKeeps(y: Sys, i: nat, u: Update)
    requires Inv(y) && IsAt(y, i) && u.c == y.updates[i].c && !Over(y.updates[i]) && !Over(u) && !u.phase.Waiting?
    requires y.updates[i].phase.Waiting? ==> i > 0 ==> y.updates[i - 1].phase.Ended?
    ensures Inv(y.(updates := y.updates[i := u]))
  {
    hide Norm, Compose;
    var us, us' := y.updates, y.updates[i := u];
    OrderKept(us, i, u);
    PendingAt(us, i);
    PendingSet(us, i, u);
    forall j | 0 <= j < |us| ensures us[j].phase.Undoing? <==> us'[j].phase.Undoing? {}
    forall j | 0 <= j < |us| ensures us[j].c == us'[j].c {}
  }

  lemma GivenUp(y: Sys, i: nat, u: Update)
    requires Inv(y) && IsAt(y, i) && u.c == y.updates[i].c && !Over(y.updates[i]) && !y.updates[i].phase.Waiting?
      && u.phase.Undoing?
    ensures Inv(Sys(Spliced(y.page, u.c), y.updates[i := u], y.server))
  {
    hide Norm, Compose;
    var us, us' := y.updates, y.updates[i := u];
    OrderKept(us, i, u);
    PendingAt(us, i);
    PendingSet(us, i, u);
    NoneUndoing(us, i);
    SplicedHead(y.page, u.c, Pending(us[i + 1..]));
    assert us'[i].phase.Undoing? && y.page.queued == [u.c] + Pending(us[i + 1..]);
  }

  lemma SuccessKeeps(y: Sys, i: nat, u: Update, next: Json)
    requires Inv(y) && IsAt(y, i) && u.c == y.updates[i].c && !Over(y.updates[i]) && !y.updates[i].phase.Waiting?
      && u.phase.Ended?
    ensures Inv(Sys(Settled(Spliced(y.page, u.c), next), y.updates[i := u], y.server))
  {
    hide Norm, Compose;
    var us := y.updates;
    OrderKept(us, i, u);
    PendingAt(us, i);
    PendingSet(us, i, u);
    SplicedHead(y.page, u.c, Pending(us[i + 1..]));
    SettledShows(Spliced(y.page, u.c), next, us[i := u]);
  }

  lemma UndoneKeeps(y: Sys, i: nat, d: Option<Json>)
    requires Inv(y) && Guard(y, Undo(i, d))
    ensures Inv(Do(y, Undo(i, d)))
    ensures var y' := Do(y, Undo(i, d));
      y'.page.stored.Some? ==> y'.page.value == Some(Compose(y'.page.stored.value, y'.page.queued))
  {
    hide Norm, Compose;
    var us, u := y.updates, y.updates[i].(phase := Ended(false));
    OrderKept(us, i, u);
    PendingAt(us, i);
    PendingSet(us, i, u);
    var cur := if d.Some? then d else y.page.stored;
    if cur.Some? { SettledShows(y.page, cur.value, us[i := u]); }
  }

  lemma FailedKeeps(y: Sys, i: nat, took: bool, server: Json)
    requires Inv(y) && IsAt(y, i) && (y.updates[i].phase.Reading? || y.updates[i].phase.Writing?)
    ensures var u := y.updates[i];
      Inv(Failed(y.(server := server, updates := y.updates[i := u.(took := u.took || took)]), i, u.phase.tries))
  {
    var u, us := y.updates[i], y.updates;
    var y1 := y.(server := server, updates := us[i := u.(took := u.took || took)]);
    var gone := u.(took := u.took || took,
                       phase := if u.phase.tries >= RETRIES then Undoing else Sleeping(u.phase.tries));
    assert y1.updates[i := gone] == us[i := gone];
    if u.phase.tries >= RETRIES {
      GivenUp(y.(server := server), i, gone);
    } else {
      MoveKeeps(y.(server := server), i, gone);
    }
  }

  lemma DoKeeps(y: Sys, step: Step)
    requires Inv(y) && Guard(y, step)
    ensures Inv(Do(y, step))
  {
    hide Norm, Compose, Inv, ShownIs, Pending, Apply, Settled, Spliced;
    match step {
      case Change(c) => ChangeKeeps(y, c);
      case Load(d) => LoadKeeps(y, d);
      case Start(i) => MoveKeeps(y, i, y.updates[i].(phase := Reading(0)));
      case Read(i, ok) =>
        var u := y.updates[i];
        if ok {
          MoveKeeps(y, i, u.(phase := Writing(u.phase.tries, Apply(u.c, Norm(y.server)))));
        } else {
          FailedKeeps(y, i, false, y.server);
          assert y.updates[i := u.(took := u.took || false)] == y.updates;
        }
      case Write(i, ok, took) =>
        var u := y.updates[i];
        var server := if !took then y.server else if Empty(u.phase.next) then Null else u.phase.next;
        if ok {
          var done := u.(took := u.took || took, phase := Ended(true));
          OtherKeeps(y, server);
          SuccessKeeps(y.(server := server), i, done, u.phase.next);
          assert y.updates[i := u.(took := u.took || took)][i := done] == y.updates[i := done];
        } else {
          FailedKeeps(y, i, took, server);
        }
      case Wake(i) => MoveKeeps(y, i, y.updates[i].(phase := Reading(y.updates[i].phase.tries + 1)));
      case Undo(i, d) => UndoneKeeps(y, i, d);
      case Other(d) => OtherKeeps(y, d);
    }
  }

  lemma OtherKeeps(y: Sys, d: Json)
    requires Inv(y)
    ensures Inv(y.(server := d))
  {
  }

  lemma LoadKeeps(y: Sys, d: Option<Json>)
    requires Inv(y)
    ensures Inv(Do(y, Load(d)))
  {
    hide Norm, Compose;
    if d.Some? { SettledShows(y.page, d.value, y.updates); }
  }

  lemma ChangeKeeps(y: Sys, c: Change)
    requires Inv(y)
    ensures Inv(Do(y, Step.Change(c)))
  {
    hide Norm, Compose, Apply;
    ChangedShows(y.page, y.updates, c);
    PendingAdd(y.updates, Update(c, Waiting, false));
  }

  // ---- runs ----

  const NEW := Sys(Page(None, None, []), [], Null)

  function After(y: Sys, steps: seq<Step>): Sys
    requires Runs(y, steps)
    decreases |steps|, 1
  {
    if steps == [] then y else Do(After(y, steps[..|steps| - 1]), steps[|steps| - 1])
  }

  predicate Runs(y: Sys, steps: seq<Step>)
    decreases |steps|, 0
  {
    steps != [] ==> Runs(y, steps[..|steps| - 1]) && Guard(After(y, steps[..|steps| - 1]), steps[|steps| - 1])
  }

  lemma {:induction false} RunKeeps(y: Sys, steps: seq<Step>)
    requires Inv(y) && Runs(y, steps)
    ensures Inv(After(y, steps))
  {
    hide Inv, Do, Guard;
    if steps != [] {
      RunKeeps(y, steps[..|steps| - 1]);
      DoKeeps(After(y, steps[..|steps| - 1]), steps[|steps| - 1]);
    }
  }

  /** Over any run, whoever else writes: updates run one at a time, in the order the changes were made; the changes
      queued are those not stored yet, in that order; and unless one given up is still being undone, the value shown is
      the queue on top of the last stored value. */
  lemma ShownIsQueueOnStored(server: Json, steps: seq<Step>)
    requires Runs(NEW.(server := server), steps)
    ensures var y := After(NEW.(server := server), steps);
      && OneAtATime(y.updates) && y.page.queued == Pending(y.updates)
      && (y.page.value.Some? <==> y.page.stored.Some?)
      && (y.page.stored.Some? && (forall i :: 0 <= i < |y.updates| ==> !y.updates[i].phase.Undoing?) ==>
            y.page.value.value == Compose(y.page.stored.value, y.page.queued))
  {
    RunKeeps(NEW.(server := server), steps);
  }

  // ---- attempts ----

  /** An attempt to store update i's change failed. */
  predicate Fails(step: Step, i: nat) { step == Read(i, false) || (step.Write? && step.i == i && !step.ok) }

  function Failures(steps: seq<Step>, i: nat): nat {
    if steps == [] then 0
    else Failures(steps[..|steps| - 1], i) + if Fails(steps[|steps| - 1], i) then 1 else 0
  }

  /** How many attempts a phase has behind it. */
  predicate Behind(p: Phase, n: nat) {
    match p
    case Waiting => n == 0
    case Reading(tries) => n == tries <= 3
    case Writing(tries, _) => n == tries <= 3
    case Sleeping(tries) => n == tries + 1 <= 3
    case Undoing => n == 4
    case Ended(ok) => if ok then n <= 3 else n == 4
  }

  lemma {:induction false} AttemptsBehind(server: Json, steps: seq<Step>, i: nat)
    requires Runs(NEW.(server := server), steps)
    ensures var us := After(NEW.(server := server), steps).updates;
      if i < |us| then Behind(us[i].phase, Failures(steps, i)) else Failures(steps, i) == 0
  {
    hide Norm, Apply, Settled, Spliced, Changed, Empty;
    if steps != [] { AttemptsBehind(server, steps[..|steps| - 1], i); }
  }

  /** A change is given up, and undone, after four failed attempts, never before; and one that was stored failed three
      times at most. */
  lemma GivenUpAfterFour(server: Json, steps: seq<Step>, i: nat)
    requires Runs(NEW.(server := server), steps) && i < |After(NEW.(server := server), steps).updates|
    ensures var u := After(NEW.(server := server), steps).updates[i];
      && Failures(steps, i) <= 4
      && (u.phase.Undoing? || u.phase == Ended(false) <==> Failures(steps, i) == 4)
  {
    AttemptsBehind(server, steps, i);
  }

  // ---- nothing is lost ----

  /** The changes that took effect, in order. */
  function Took(us: seq<Update>): seq<Change> {
    if us == [] then []
    else
      var u := us[|us| - 1];
      Took(us[..|us| - 1]) + if u.took then [u.c] else []
  }

  /** What the server holds is what it held, with the changes that took effect made in order; a write under way adds its
      own. */
  predicate Kept(first: Json, y: Sys) {
    && Norm(y.server) == Compose(Norm(first), Took(y.updates))
    && forall i :: 0 <= i < |y.updates| ==>
         && (y.updates[i].phase.Waiting? ==> !y.updates[i].took)
         && (y.updates[i].phase.Writing? ==> y.updates[i].phase.next == Apply(y.updates[i].c, Norm(y.server)))
         && (y.updates[i].phase == Ended(true) ==> y.updates[i].took)
  }

  lemma {:induction false} TookUpTo(us: seq<Update>, n: nat)
    requires n <= |us| && forall j :: n <= j < |us| ==> !us[j].took
    ensures Took(us) == Took(us[..n])
  {
    if n < |us| {
      TookUpTo(us[..|us| - 1], n);
      assert us[..|us| - 1][..n] == us[..n];
    } else {
      assert us[..n] == us;
    }
  }

  /** The last update begun is the last that can have taken effect. */
  lemma TookLast(us: seq<Update>, i: nat, u: Update)
    requires i < |us| && OneAtATime(us) && !us[i].phase.Ended? && u.c == us[i].c && (us[i].took ==> u.took)
    requires forall j :: 0 <= j < |us| && us[j].phase.Waiting? ==> !us[j].took
    ensures Took(us[i := u]) == Took(us) + if u.took && !us[i].took then [u.c] else []
    ensures us[i].took ==> exists before :: Took(us) == before + [u.c]
  {
    var us' := us[i := u];
    forall j | i + 1 <= j < |us| ensures !us[j].took && us'[j] == us[j] {}
    TookUpTo(us, i + 1);
    TookUpTo(us', i + 1);
    assert us[..i + 1][..i] == us[..i] && us'[..i + 1][..i] == us[..i];
    if us[i].took { assert Took(us) == Took(us[..i]) + [u.c]; }
  }

  /** A value deleted reads as one with nothing dismissed. */
  lemma DeletedIsEmpty(next: Json)
    requires Empty(next)
    ensures Norm(Null) == next
  {
    assert Norm(Null).m == next.m;
  }

  /** A write that takes effect makes its change once, however often it was tried. */
  lemma WriteTakes(first: Json, us: seq<Update>, i: nat, u: Update, server: Json)
    requires i < |us| && OneAtATime(us) && !us[i].phase.Ended? && u == us[i].(took := true, phase := u.phase)
    requires forall j :: 0 <= j < |us| && us[j].phase.Waiting? ==> !us[j].took
    requires Norm(server) == Compose(Norm(first), Took(us))
    ensures Apply(u.c, Norm(server)) == Compose(Norm(first), Took(us[i := u]))
  {
    hide Norm, Apply;
    TookLast(us, i, u);
    if us[i].took {
      var before :| Took(us) == before + [u.c];
      assert Took(us) + [] == Took(us);
      assert (before + [u.c])[..|before|] == before;
      ApplyTwice(u.c, Compose(Norm(first), before));
    } else {
      assert (Took(us) + [u.c])[..|Took(us)|] == Took(us);
    }
  }

  lemma WriteKeeps(first: Json, y: Sys, i: nat, u: Update, server: Json)
    requires Inv(y) && Kept(first, y) && IsAt(y, i) && y.updates[i].phase.Writing?
      && u == y.updates[i].(took := true, phase := u.phase)
    requires !u.phase.Waiting? && !u.phase.Writing?
    requires server == if Empty(y.updates[i].phase.next) then Null else y.updates[i].phase.next
    ensures Kept(first, y.(server := server, updates := y.updates[i := u]))
  {
    hide Norm, Apply, Compose, Pending, ShownIs;
    var us, us', next := y.updates, y.updates[i := u], y.updates[i].phase.next;
    WriteTakes(first, us, i, u, y.server);
    assert Norm(next) == next by { NormOfApply(us[i].c, Norm(y.server)); }
    if Empty(next) { DeletedIsEmpty(next); }
    forall j | 0 <= j < |us'| && us'[j].phase.Writing? ensures false {}
  }

  lemma NormOfApply(c: Change, v: Json)
    ensures Norm(Apply(c, v)) == Apply(c, v)
  {
    NormTwice(Run(c, v));
  }

  /** An update moving on without a write taking effect. */
  lemma StillKept(first: Json, y: Sys, i: nat, u: Update)
    requires Inv(y) && Kept(first, y) && IsAt(y, i) && u == y.updates[i].(phase := u.phase)
      && !y.updates[i].phase.Ended?
    requires !u.phase.Waiting? && (u.phase == Ended(true) ==> u.took)
    requires u.phase.Writing? ==> u.phase.next == Apply(u.c, Norm(y.server))
    ensures Kept(first, y.(updates := y.updates[i := u]))
  {
    hide Norm, Apply, Compose, Pending, ShownIs;
    TookLast(y.updates, i, u);
    assert Took(y.updates) + [] == Took(y.updates);
  }

  lemma StepKept(first: Json, y: Sys, step: Step)
    requires Inv(y) && Kept(first, y) && Guard(y, step) && !step.Other?
    ensures Kept(first, Do(y, step))
  {
    hide Norm, Apply, Compose, Inv, Settled, Spliced, Kept, Empty;
    match step {
      case Change(c) => NewKept(first, y, c);
      case Load(d) => PageAside(first, y, Do(y, step));
      case Start(i) => StillKept(first, y, i, y.updates[i].(phase := Reading(0)));
      case Read(i, ok) =>
        var u := y.updates[i];
        var u' := u.(phase := if ok then Writing(u.phase.tries, Apply(u.c, Norm(y.server)))
                              else if u.phase.tries >= RETRIES then Undoing else Sleeping(u.phase.tries));
        StillKept(first, y, i, u');
        PageAside(first, y.(updates := y.updates[i := u']), Do(y, step));
      case Write(i, ok, took) =>
        var u := y.updates[i];
        var u' := u.(took := u.took || took,
                     phase := if ok then Ended(true)
                              else if u.phase.tries >= RETRIES then Undoing else Sleeping(u.phase.tries));
        var server := if !took then y.server else if Empty(u.phase.next) then Null else u.phase.next;
        if took { WriteKeeps(first, y, i, u', server); } else { StillKept(first, y, i, u'); }
        assert y.updates[i := u.(took := u.took || took)][i := u'] == y.updates[i := u'];
        PageAside(first, y.(server := server, updates := y.updates[i := u']), Do(y, step));
      case Wake(i) => StillKept(first, y, i, y.updates[i].(phase := Reading(y.updates[i].phase.tries + 1)));
      case Undo(i, d) =>
        var u' := y.updates[i].(phase := Ended(false));
        StillKept(first, y, i, u');
        PageAside(first, y.(updates := y.updates[i := u']), Do(y, step));
    }
  }

  lemma PageAside(first: Json, y: Sys, y': Sys)
    requires Kept(first, y) && y'.updates == y.updates && y'.server == y.server
    ensures Kept(first, y')
  {
  }

  lemma NewKept(first: Json, y: Sys, c: Change)
    requires Kept(first, y)
    ensures Kept(first, Do(y, Step.Change(c)))
  {
    hide Norm, Apply, Compose, Changed;
    var us, u := y.updates, Update(c, Waiting, false);
    forall j | |us| <= j < |us + [u]| ensures !(us + [u])[j].took {}
    TookUpTo(us + [u], |us|);
    assert (us + [u])[..|us|] == us;
  }

  lemma {:induction false} RunKept(first: Json, steps: seq<Step>)
    requires Runs(NEW.(server := first), steps) && forall i :: 0 <= i < |steps| ==> !steps[i].Other?
    ensures Kept(first, After(NEW.(server := first), steps))
  {
    hide Inv, Do, Guard, Kept;
    if steps == [] {
      StartKept(first);
    } else {
      RunKept(first, steps[..|steps| - 1]);
      StartInv(first);
      RunKeeps(NEW.(server := first), steps[..|steps| - 1]);
      StepKept(first, After(NEW.(server := first), steps[..|steps| - 1]), steps[|steps| - 1]);
    }
  }

  lemma StartKept(first: Json)
    ensures Kept(first, NEW.(server := first))
  {
  }

  lemma StartInv(first: Json)
    ensures Inv(NEW.(server := first))
  {
  }

  /** While one page writes, no change is lost: once every update has ended, the server holds what it held at first with
      every change that was stored made in the order it was asked for, and the only others are of updates given up whose
      write took effect unanswered. (A write that fails takes effect by then or never; one that lands later is a step of
      someone else's, and not of these runs.) */
  lemma NoChangeIsLost(first: Json, steps: seq<Step>)
    requires Runs(NEW.(server := first), steps) && forall i :: 0 <= i < |steps| ==> !steps[i].Other?
    requires forall i :: 0 <= i < |After(NEW.(server := first), steps).updates| ==>
      After(NEW.(server := first), steps).updates[i].phase.Ended?
    ensures var y := After(NEW.(server := first), steps);
      && y.page.queued == []
      && (forall i :: 0 <= i < |y.updates| && y.updates[i].phase.ok ==> y.updates[i].took)
      && Norm(y.server) == Compose(Norm(first), Took(y.updates))
  {
    hide Norm, Compose, Runs, After;
    RunKept(first, steps);
    StartInv(first);
    RunKeeps(NEW.(server := first), steps);
    NonePending(After(NEW.(server := first), steps).updates);
  }

  lemma {:induction false} NonePending(us: seq<Update>)
    requires forall i :: 0 <= i < |us| ==> us[i].phase.Ended?
    ensures Pending(us) == []
  {
    if us != [] { NonePending(us[1..]); }
  }

  // ---- the store ----

  class Dismissals {
    var value: Option<Json>
    var stored: Option<Json>
    var queued: seq<Change>

    function P(): Page
      reads this
    {
      Page(value, stored, queued)
    }

    constructor ()
      ensures P() == Page(None, None, [])
    {
      value, stored, queued := None, None, [];
    }

    /** A stored value, with the changes still queued on top. */
    method Settle(d: Json)
      modifies this`value, this`stored
      ensures P() == Settled(old(P()), d)
    {
      hide Norm, Run;
      var n := Norm(d);
      var v := n;
      for i := 0 to |queued|
        invariant v == Reduce(queued[..i], n)
      {
        assert queued[..i + 1][..i] == queued[..i];
        v := Run(queued[i], v);
      }
      assert queued[..|queued|] == queued;
      stored, value := Some(n), Some(Norm(v));
    }

    method Enqueue(c: Change)
      modifies this
      ensures P() == Changed(old(P()), c)
    {
      queued := queued + [c];
      if value.Some? { value := Some(Norm(Run(c, value.value))); }
    }

    method Dequeue(c: Change)
      modifies this`queued
      ensures P() == Spliced(old(P()), c)
    {
      var i := 0;
      while i < |queued| && queued[i] != c
        invariant i <= |queued| && IndexOf(queued, c) == i + IndexOf(queued[i..], c)
      {
        assert queued[i..][1..] == queued[i + 1..];
        i := i + 1;
      }
      if i < |queued| { queued := queued[..i] + queued[i + 1..]; }
    }

    /** An update over: stored as `next`, or given up. */
    method Finish(c: Change, next: Option<Json>)
      modifies this
      ensures P() == if next.Some? then Settled(Spliced(old(P()), c), next.value) else Spliced(old(P()), c)
    {
      Dequeue(c);
      if next.Some? { Settle(next.value); }
    }

    /** The change given up is undone: what is stored, the rest of the queue on top. */
    method GiveUp(cur: Option<Json>)
      modifies this
      ensures var d := if cur.Some? then cur else old(stored);
        P() == if d.Some? then Settled(old(P()), d.value) else old(P())
    {
      if cur.Some? { Settle(cur.value); } else if stored.Some? { Settle(stored.value); }
    }
  }
}
