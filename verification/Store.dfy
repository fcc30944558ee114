/** The relay's store. Each method is what the source does while it holds the store's lock; the records it
    returns are the batch it hands to the journal after letting go of it (RelaySystem). */
module Store {
  import opened Options
  import opened RelayTypes
  import opened StoreSpec

  const MAX_HANDLES_PER_TOKEN := 64
  const MAX_CHILDREN := 16
  const SWEEP_EVERY := 10 * MINUTE

  datatype Error = NoHandle | HandleType | HandleBound | BadWorkspace | Full | NotWritten

  datatype Result<+T> = Ok(value: T) | Err(error: Error)

  /** Capacity, and retention in nanoseconds. */
  datatype Limits = Limits(
    maxHandles: int, maxWorkspaces: int, unboundTTL: int, idleTTL: int, unusedWorkspace: int, idleWorkspace: int)

  // ---- retention ----

  predicate SweepDue(lastSweep: int, now: nat, full: bool) {
    var since := now - lastSweep;
    !(since < MINUTE || (!full && since < SWEEP_EVERY))
  }

  function Recency(h: Handle): (r: int)
    ensures r >= h.used && r >= h.created && (r == h.used || r == h.created)
  {
    Max(h.used, h.created)
  }

  /** The retention rules for one handle, judged with its device handle's data when it hangs off one. */
  predicate Stale(handles: map<Id, Handle>, id: Id, t: int, unbound: int, idle: int)
    requires id in handles
  {
    var h := handles[id];
    var hasParent := h.parent != "" && h.parent in handles;
    var bound := h.workspace != "" || (hasParent && handles[h.parent].workspace != "");
    var used := if hasParent && h.start then Max(Recency(h), Recency(handles[h.parent])) else Recency(h);
    (!bound && t - h.created > unbound) || t - used > idle
  }

  predicate StaleWorkspace(w: Workspace, t: int, unused: int, idle: int) {
    (w.used == 0 && t - w.created > unused) || (w.used != 0 && t - w.used > idle)
  }

  function StaleHandles(handles: map<Id, Handle>, lim: Limits, now: nat): set<Id> {
    set id | id in handles
      && Stale(handles, id, Unix(now), TruncDiv(lim.unboundTTL, SECOND), TruncDiv(lim.idleTTL, SECOND))
  }

  function StaleWorkspaces(workspaces: map<Id, Workspace>, lim: Limits, now: nat): set<Id> {
    set id | id in workspaces &&
      StaleWorkspace(workspaces[id], Unix(now), TruncDiv(lim.unusedWorkspace, SECOND),
        TruncDiv(lim.idleWorkspace, SECOND))
  }

  /** What a sweep looks at and leaves. */
  datatype Tables = Tables(handles: map<Id, Handle>, workspaces: map<Id, Workspace>, lastSweep: int)

  /** A due retention sweep: stale handles go with whatever hangs off them, and stale workspaces go. */
  function Swept(t: Tables, lim: Limits, now: nat, full: bool): Tables {
    if SweepDue(t.lastSweep, now, full) then
      Tables(t.handles - Forest(t.handles, StaleHandles(t.handles, lim, now)),
             t.workspaces - StaleWorkspaces(t.workspaces, lim, now), now)
    else t
  }

  /** What an operation that adds a handle finds: the periodic sweep, and a second one when the store is full. */
  function AfterSweeps(t: Tables, lim: Limits, now: nat): Tables { SweptIfFull(Swept(t, lim, now, false), lim, now) }

  function SweptIfFull(t: Tables, lim: Limits, now: nat): Tables {
    if |t.handles| >= lim.maxHandles then Swept(t, lim, now, true) else t
  }

  function AfterWorkspaceSweeps(t: Tables, lim: Limits, now: nat): Tables {
    var once := Swept(t, lim, now, false);
    if |once.workspaces| >= lim.maxWorkspaces then Swept(once, lim, now, true) else once
  }

  function DeviceHandle(token: string, topic: string, env: string, now: nat): Handle {
    Handle(token, topic, env, "", "", false, "", Unix(now), 0, 0)
  }

  function HoldersOf(handles: map<Id, Handle>, token: string): set<Id> {
    set id | id in handles && handles[id].token == token
  }

  /** Where a run of steps starts. */
  lemma Starts(m: Mem)
    requires Sound(m)
    ensures LiveAreBorn(m) && StoreStep(m, m, [])
  {
    WfLiveAreBorn(m);
    StepNone(m);
  }

  lemma StartsWf(m: Mem)
    requires Wf(m)
    ensures LiveAreBorn(m) && StoreStep(m, m, [])
  {
    Starts(m);
  }

  lemma ClockMoved(m: Mem, m': Mem)
    requires Wf(m) && m.clock <= m'.clock && m' == m.(clock := m'.clock)
    ensures Wf(m') && StoreStep(m, m', [])
  {
    WfLiveAreBorn(m);
    StepTouch(m, m');
    FewerEntries(m, m');
  }

  lemma AfterClock(m0: Mem, m1: Mem, m2: Mem, recs: seq<Record>)
    requires Wf(m0) && m0.clock <= m1.clock && m1 == m0.(clock := m1.clock) && StoreStep(m1, m2, recs)
    ensures StoreStep(m0, m2, recs)
  {
    ClockMoved(m0, m1);
    StepTransWf(m0, m1, m2, [], recs);
    assert [] + recs == recs;
  }

  lemma StepTransWf(m0: Mem, m1: Mem, m2: Mem, a: seq<Record>, b: seq<Record>)
    requires Wf(m0) && StoreStep(m0, m1, a) && StoreStep(m1, m2, b)
    ensures StoreStep(m0, m2, a + b)
  {
    WfLiveAreBorn(m0);
    StepTrans(m0, m1, m2, a, b);
  }

  lemma StepTrans3(m0: Mem, m1: Mem, m2: Mem, m3: Mem, a: seq<Record>, b: seq<Record>, c: seq<Record>)
    requires Wf(m0) && StoreStep(m0, m1, a) && StoreStep(m1, m2, b) && StoreStep(m2, m3, c)
    ensures StoreStep(m0, m3, a + b + c)
  {
    WfLiveAreBorn(m0);
    StepTrans(m0, m1, m2, a, b);
    StepTrans(m0, m2, m3, a + b, c);
  }

  lemma TokenPoolIsFlat(m: Mem, token: string)
    requires Wf(m)
    ensures forall x :: x in TokenPool(m.st.handles, token) ==>
      m.st.handles[x].parent !in TokenPool(m.st.handles, token)
  {
    KindsAgree(m);
    SoundIsOneLevel(m);
  }

  lemma OwnHandle(m: Mem, id: Id)
    requires Sound(m) && id in m.st.handles
    ensures var h := m.st.handles[id]; h.used <= Unix(m.clock) && (h.start ==> h.parent != "")
  {
    assert OwnValue(HKey(id), Lookup(m.st, HKey(id)).value, m.clock, m.born, m.bornW);
  }

  lemma KindsAgree(m: Mem)
    requires Sound(m)
    ensures forall id :: id in m.st.handles ==> (m.st.handles[id].typ == "" <==> m.st.handles[id].parent == "")
  {
    forall id | id in m.st.handles ensures m.st.handles[id].typ == "" <==> m.st.handles[id].parent == "" {
      assert OwnValue(HKey(id), Lookup(m.st, HKey(id)).value, m.clock, m.born, m.bornW);
    }
  }

  // ---- Live Activity handles ----

  /** A token registered again under its parent, as the kind it is now; a parent holds one push-to-start handle. */
  function Reregistered(handles: map<Id, Handle>, parent: Id, c: Id, start: bool): map<Id, Handle>
    requires c in handles
  {
    var h := handles[c];
    var flipped := handles[c := h.(start := start, saved := h.used)];
    if h.start == start then handles
    else if start then flipped - Forest(flipped, StartPool(flipped, parent) - {c})
    else flipped
  }

  lemma ReregisteredKeeps(m: Mem, m': Mem, parent: Id, c: Id, start: bool)
    requires Wf(m) && c in m.st.handles && m.st.handles[c].parent == parent != ""
    requires m'.st.handles == Reregistered(m.st.handles, parent, c, start)
    ensures KeepsFamilies(m.st.handles, m'.st.handles)
  {
    SoundIsOneLevel(m);
    ReregisteredFamilies(m.st.handles, parent, c, start);
  }

  lemma ReregisteredFamilies(a: map<Id, Handle>, parent: Id, c: Id, start: bool)
    requires OneLevel(a) && "" !in a && c in a && a[c].parent == parent != ""
    ensures KeepsFamilies(a, Reregistered(a, parent, c, start))
  {
    var b := Reregistered(a, parent, c, start);
    forall dev | Together(a, dev) ensures Together(b, dev) {}
    forall dev | OneStart(a, dev) ensures OneStart(b, dev) {
      if a[c].start != start && dev == parent {
        assert StartPool(b, dev) == if start then {c} else StartPool(a, dev) - {c};
      } else {
        assert StartPool(b, dev) <= StartPool(a, dev);
      }
    }
  }

  predicate ChildVictims(handles: map<Id, Handle>, parent: Id, start: bool, victims: set<Id>) {
    if start then victims == StartPool(handles, parent)
    else LruVictims(handles, ActivityPool(handles, parent), MAX_CHILDREN, victims)
  }

  function ChildHandle(token: string, topic: string, env: string, parent: Id, start: bool, workspace: Id, now: nat)
    : Handle
  {
    Handle(token, topic, env, LIVE_ACTIVITY, parent, start, workspace, Unix(now), 0, 0)
  }

  /** What registering a Live Activity token does: `once` are the handles after the periodic sweep, `kept` those
      after the second one, which only a new token at capacity gets to. */
  predicate ChildOutcome(once: map<Id, Handle>, kept: map<Id, Handle>, lim: Limits, parent: Id, token: string,
                         topic: string, env: string, start: bool, now: nat, draw: Id, res: Result<Id>,
                         victims: set<Id>, after: map<Id, Handle>)
  {
    if parent !in once then res == Err(NoHandle) && after == once
    else if once[parent].typ != "" || once[parent].topic != topic || once[parent].env != env then
      res == Err(HandleType) && after == once
    else if exists c :: c in once && once[c].parent == parent && once[c].token == token then
      res.Ok? && res.value in once && once[res.value].parent == parent && once[res.value].token == token &&
      after == Reregistered(once, parent, res.value, start)
    else NewTokenOutcome(kept, lim, parent, token, topic, env, start, now, draw, res, victims, after)
  }

  /** A token this device handle has no Live Activity handle for: only it can run into the capacity. */
  predicate IsNewToken(handles: map<Id, Handle>, parent: Id, token: string, topic: string, env: string) {
    && parent in handles && handles[parent].typ == "" && handles[parent].topic == topic && handles[parent].env == env
    && !exists c :: c in handles && handles[c].parent == parent && handles[c].token == token
  }

  predicate NewTokenOutcome(kept: map<Id, Handle>, lim: Limits, parent: Id, token: string, topic: string,
                            env: string, start: bool, now: nat, draw: Id, res: Result<Id>, victims: set<Id>,
                            after: map<Id, Handle>)
  {
    if |kept| >= lim.maxHandles || parent !in kept then res == Err(Full) && after == kept
    else
      res == Ok(draw) && ChildVictims(kept, parent, start, victims) &&
      after == (kept - Forest(kept, victims))[draw :=
        ChildHandle(token, topic, env, parent, start, kept[parent].workspace, now)]
  }

  lemma ActivityPoolIsFlat(m: Mem, parent: Id)
    requires Wf(m) && parent in m.st.handles && m.st.handles[parent].parent == ""
    ensures ActivityPool(m.st.handles, parent) == set c | c in ChildrenOf(m, parent) && !m.st.handles[c].start
    ensures parent !in ActivityPool(m.st.handles, parent)
  {
    SoundIsOneLevel(m);
  }

  // ---- pushes ----

  function DeviceOf(handles: map<Id, Handle>, id: Id): Id
    requires id in handles
  {
    if handles[id].parent != "" then handles[id].parent else id
  }

  /** Whether a push from `ws` is refused: only an unknown handle, another workspace's family or the wrong kind. */
  function Refusal(handles: map<Id, Handle>, id: Id, ws: Id, typ: string, start: bool): Option<Error> {
    if id !in handles then Some(NoHandle)
    else
      var h := handles[id];
      if h.workspace != "" && h.workspace != ws then Some(HandleBound)
      else if h.parent in handles && handles[h.parent].workspace != "" && handles[h.parent].workspace != ws
        then Some(HandleBound)
      else if h.typ != typ || h.start != start then Some(HandleType)
      else None
  }

  /** Whose a push of `ws` may be: neither the handle nor its device handle is another workspace's. */
  predicate FreeFor(handles: map<Id, Handle>, id: Id, ws: Id)
    requires id in handles
  {
    forall x :: x in handles && (x == id || x == handles[id].parent) ==>
      handles[x].workspace == "" || handles[x].workspace == ws
  }

  /** A push to a handle the relay does not know is told so; one to another workspace's family is refused as bound; one
      of another kind than the handle's, to a family of the pusher's own or of nobody's, is refused for its kind; and
      every other push goes out. */
  lemma RefusedExactly(handles: map<Id, Handle>, id: Id, ws: Id, typ: string, start: bool)
    ensures var e := Refusal(handles, id, ws, typ, start);
      if id !in handles then e == Some(NoHandle)
      else
        && (!FreeFor(handles, id, ws) <==> e == Some(HandleBound))
        && (FreeFor(handles, id, ws) && (typ != handles[id].typ || start != handles[id].start) <==>
             e == Some(HandleType))
        && (FreeFor(handles, id, ws) && typ == handles[id].typ && start == handles[id].start <==> e == None)
  {
  }

  /** The unbound handles under `dev` bound to `ws`, except the pushed handle and those in `todo`. */
  function BoundChildren(handles: map<Id, Handle>, dev: Id, id: Id, ws: Id, todo: set<Id>): map<Id, Handle> {
    map x | x in handles ::
      var h := handles[x];
      if x != id && h.workspace == "" && h.parent == dev && x !in todo then h.(workspace := ws, saved := h.used) else h
  }

  lemma OneMoreBound(handles: map<Id, Handle>, dev: Id, id: Id, ws: Id, todo: set<Id>, c: Id)
    requires c in todo && c in handles && handles[c].parent == dev
    ensures BoundChildren(handles, dev, id, ws, todo - {c}) ==
      var h := handles[c];
      BoundChildren(handles, dev, id, ws, todo)[
        c := if c != id && h.workspace == "" then h.(workspace := ws, saved := h.used) else h]
    ensures BoundChildren(handles, dev, id, ws, todo)[c] == handles[c]
  {
  }

  /** The family of `dev` bound to `ws`, except the pushed handle. */
  function BoundFamily(handles: map<Id, Handle>, dev: Id, id: Id, ws: Id): map<Id, Handle>
    requires dev in handles
  {
    var d := handles[dev];
    BoundChildren(if dev == id then handles else handles[dev := d.(workspace := ws, saved := d.used)], dev, id, ws, {})
  }

  /** Binding a handle's family leaves the handle itself to the push. */
  lemma BoundIs(handles: map<Id, Handle>, dev: Id, id: Id, ws: Id)
    requires id in handles && dev in handles
    ensures id in BoundFamily(handles, dev, id, ws) && BoundFamily(handles, dev, id, ws)[id] == handles[id]
    ensures var bound := BoundFamily(handles, dev, id, ws);
      bound.Keys == handles.Keys && forall x :: x in handles ==> bound[x].parent == handles[x].parent
  {
  }

  lemma ChildrenInFamily(m: Mem, dev: Id)
    requires Wf(m)
    ensures ChildrenOf(m, dev) <= Family(m.st.handles, dev) - {dev}
  {
    SoundIsOneLevel(m);
  }

  lemma DeviceIsThere(m: Mem, id: Id)
    requires Wf(m) && id in m.st.handles
    ensures DeviceOf(m.st.handles, id) in m.st.handles && DeviceOf(m.st.handles, id) != ""
    ensures OneLevel(m.st.handles) && "" !in m.st.handles
  {
    SoundIsOneLevel(m);
  }

  /** The handles after an accepted push at time t. */
  function Pushed(handles: map<Id, Handle>, id: Id, ws: Id, t: int): map<Id, Handle>
    requires id in handles && DeviceOf(handles, id) in handles
  {
    var dev := DeviceOf(handles, id);
    var first := handles[dev].workspace == "";
    var h := handles[id];
    var bound := if first then BoundFamily(handles, dev, id, ws) else handles;
    bound[id := h.(workspace := ws, used := t,
                   saved := if first || h.workspace == "" || t - h.saved > USED_EVERY then t else h.saved)]
  }

  /** Whether a push to `id`, of the family of `dev`, makes a handle the pusher's. */
  predicate Taken(a: map<Id, Handle>, id: Id, dev: Id, x: Id)
    requires dev in a && x in a
  {
    x == id || (a[dev].workspace == "" && (x == dev || (a[x].parent == dev && a[x].workspace == "")))
  }

  /** Who owns what after a push: the pushed handle, and, when the device handle had no owner, it and every handle under
      it that had none. */
  lemma PushedOwners(a: map<Id, Handle>, id: Id, ws: Id, t: int)
    requires id in a && DeviceOf(a, id) in a
    ensures var b, dev := Pushed(a, id, ws, t), DeviceOf(a, id);
      && b.Keys == a.Keys
      && (forall x :: x in a ==> b[x].parent == a[x].parent && b[x].start == a[x].start)
      && (forall x :: x in a ==> b[x].workspace == (if Taken(a, id, dev, x) then ws else a[x].workspace))
  {
  }

  /** Of the rest a push changes the pushed handle's usage alone. */
  lemma PushMarksOne(a: map<Id, Handle>, id: Id, ws: Id, t: int)
    requires id in a && DeviceOf(a, id) in a
    ensures var b := Pushed(a, id, ws, t);
      forall x :: x in a ==>
        b[x] == a[x].(workspace := b[x].workspace, saved := b[x].saved, used := if x == id then t else a[x].used)
  {
  }

  lemma PushedKeeps(a: map<Id, Handle>, id: Id, ws: Id, t: int)
    requires id in a && DeviceOf(a, id) in a && ws != "" && OneLevel(a) && "" !in a
    requires Refusal(a, id, ws, a[id].typ, a[id].start).None?
    ensures KeepsFamilies(a, Pushed(a, id, ws, t))
  {
    PushedOwners(a, id, ws, t);
    var b := Pushed(a, id, ws, t);
    hide Pushed;
    forall dev | Together(a, dev) ensures Together(b, dev) {}
    forall dev ensures StartPool(b, dev) == StartPool(a, dev) {}
  }

  /** After an accepted push its family is together exactly when every other member was the pusher's already, or had no
      owner and got one because the device handle had none either: so a push mends a family split by a crash whose
      owned members are the pusher's, unless the device handle is already owned. */
  lemma PushMends(a: map<Id, Handle>, id: Id, ws: Id, t: int)
    requires id in a && DeviceOf(a, id) in a && ws != "" && OneLevel(a) && "" !in a
    requires Refusal(a, id, ws, a[id].typ, a[id].start).None?
    ensures var dev := DeviceOf(a, id);
      Together(Pushed(a, id, ws, t), dev) <==>
        forall x :: x in a && a[x].parent == dev && x != id ==>
          a[x].workspace == ws || (a[x].workspace == "" && a[dev].workspace == "")
  {
    PushedOwners(a, id, ws, t);
    var b, dev := Pushed(a, id, ws, t), DeviceOf(a, id);
    hide Pushed;
    assert b[dev].workspace == ws;
    if Together(b, dev) {
      forall x | x in a && a[x].parent == dev && x != id
        ensures a[x].workspace == ws || (a[x].workspace == "" && a[dev].workspace == "")
      {
        assert b[x].workspace == ws;
      }
    }
  }

  /** A device handle and what hangs off it. */
  function Family(handles: map<Id, Handle>, dev: Id): set<Id> {
    set x | x in handles && (x == dev || handles[x].parent == dev)
  }

  /** A record that gives a handle, in its old place, to an owner. */
  predicate Binding(handles: map<Id, Handle>, ws: Id, r: Record) {
    && r.HandleRec? && r.id in handles && r.hv.Some?
    && r.hv.value.workspace == ws && r.hv.value.parent == handles[r.id].parent
  }

  /** Records of this kind for handles of a set, one for each at most. */
  predicate Bindings(handles: map<Id, Handle>, ws: Id, among: set<Id>, recs: seq<Record>) {
    && (forall i :: 0 <= i < |recs| ==> Binding(handles, ws, recs[i]) && recs[i].id in among)
    && forall i, j :: 0 <= i < j < |recs| ==> recs[i].id != recs[j].id
  }

  lemma BindingsJoin(handles: map<Id, Handle>, ws: Id, s: set<Id>, t: set<Id>, a: seq<Record>, b: seq<Record>)
    requires Bindings(handles, ws, s, a) && Bindings(handles, ws, t, b) && s !! t
    ensures Bindings(handles, ws, s + t, a + b)
  {
    hide Binding;
  }

  lemma NoBindings(handles: map<Id, Handle>, ws: Id, among: set<Id>)
    ensures Bindings(handles, ws, among, [])
  {
  }

  lemma BindingsAlike(a: map<Id, Handle>, b: map<Id, Handle>, ws: Id, s: set<Id>, t: set<Id>, recs: seq<Record>)
    requires a.Keys == b.Keys && (forall x :: x in a ==> b[x].parent == a[x].parent)
    requires Bindings(a, ws, s, recs) && s <= t
    ensures Bindings(b, ws, t, recs)
  {
  }

  // ---- snapshots ----

  function NotedHandles(handles: map<Id, Handle>, written: map<Id, Handle>, todo: set<Id>): map<Id, Handle> {
    map id | id in handles ::
      if id in written && id !in todo then handles[id].(saved := Max(handles[id].saved, written[id].used))
      else handles[id]
  }

  function NotedWorkspaces(workspaces: map<Id, Workspace>, written: map<Id, Workspace>, todo: set<Id>)
    : map<Id, Workspace>
  {
    map id | id in workspaces ::
      if id in written && id !in todo then workspaces[id].(saved := Max(workspaces[id].saved, written[id].used))
      else workspaces[id]
  }

  /** The live entries once snapshot c is on disk. */
  function NotedSaved(st: State, c: State): State {
    State(st.sn, NotedHandles(st.handles, c.handles, {}), NotedWorkspaces(st.workspaces, c.workspaces, {}))
  }

  lemma NotedLookup(st: State, c: State, k: Key)
    ensures var a, b := Lookup(st, k), Lookup(NotedSaved(st, c), k);
      && a.Some? == b.Some?
      && (a.Some? ==>
            && a.value.Core() == b.value.Core() && a.value.Used() == b.value.Used()
            && b.value.Saved() ==
                 if Lookup(c, k).Some? then Max(a.value.Saved(), Lookup(c, k).value.Used()) else a.value.Saved())
  {
  }

  lemma NotedKeeps(m: Mem, m': Mem, c: State)
    requires Wf(m) && m' == m.(st := NotedSaved(m.st, c))
    requires forall k :: Lookup(c, k).Some? && Lookup(m.st, k).Some? ==>
      Lookup(c, k).value.Used() <= Lookup(m.st, k).value.Used()
    ensures Wf(m')
  {
    NotedValues(m, c);
    NotedShape(m.st, c);
    hide NotedSaved, OwnValues, SavedRecently;
    LikeIndexes(m, m');
  }

  lemma NotedValues(m: Mem, c: State)
    requires Wf(m)
    requires forall k :: Lookup(c, k).Some? && Lookup(m.st, k).Some? ==>
      Lookup(c, k).value.Used() <= Lookup(m.st, k).value.Used()
    ensures OwnValues(NotedSaved(m.st, c), m.clock, m.born, m.bornW) && SavedRecently(NotedSaved(m.st, c))
  {
    hide NotedSaved, ChildrenIndexed, HashesIndexed, NoOrphan;
    forall k | Lookup(NotedSaved(m.st, c), k).Some?
      ensures OwnValue(k, Lookup(NotedSaved(m.st, c), k).value, m.clock, m.born, m.bornW)
      ensures var e := Lookup(NotedSaved(m.st, c), k).value; e.Saved() <= e.Used() <= e.Saved() + USED_EVERY
    {
      NotedLookup(m.st, c, k);
      assert OwnValue(k, Lookup(m.st, k).value, m.clock, m.born, m.bornW);
    }
  }

  lemma NotedShape(st: State, c: State)
    ensures var t := NotedSaved(st, c);
      && t.handles.Keys == st.handles.Keys && t.workspaces.Keys == st.workspaces.Keys
      && (forall id :: id in st.handles ==> t.handles[id].parent == st.handles[id].parent)
      && forall id :: id in st.workspaces ==> t.workspaces[id].keyHash == st.workspaces[id].keyHash
  {
  }

  /** What the indexes say depends only on the parents and the key hashes. */
  lemma LikeIndexes(m: Mem, m': Mem)
    requires Wf(m) && m' == m.(st := m'.st) && m'.st.handles.Keys == m.st.handles.Keys
      && m'.st.workspaces.Keys == m.st.workspaces.Keys
    requires forall id :: id in m.st.handles ==> m'.st.handles[id].parent == m.st.handles[id].parent
    requires forall id :: id in m.st.workspaces ==> m'.st.workspaces[id].keyHash == m.st.workspaces[id].keyHash
    ensures ChildrenIndexed(m'.st.handles, m'.children) && HashesIndexed(m'.st.workspaces, m'.byHash)
      && NoOrphan(m'.st.handles)
  {
    hide OwnValues, SavedRecently, WfBirths, ChildrenIndexed, HashesIndexed;
    LikeChildren(m.st.handles, m'.st.handles, m.children);
    LikeHashes(m.st.workspaces, m'.st.workspaces, m.byHash);
  }

  lemma LikeChildren(a: map<Id, Handle>, b: map<Id, Handle>, children: map<Id, set<Id>>)
    requires ChildrenIndexed(a, children) && b.Keys == a.Keys && forall id :: id in a ==> b[id].parent == a[id].parent
    ensures ChildrenIndexed(b, children)
  {
  }

  lemma LikeHashes(a: map<Id, Workspace>, b: map<Id, Workspace>, byHash: map<string, Id>)
    requires HashesIndexed(a, byHash) && b.Keys == a.Keys && forall id :: id in a ==> b[id].keyHash == a[id].keyHash
    ensures HashesIndexed(b, byHash)
  {
  }

  // ---- opening ----

  const ZERO_TIME := -62135596800 * SECOND // the year 1: a store that never swept

  /** What a recovered state becomes in memory: what is on disk is saved. */
  ghost function Loaded(st: State): State { State(st.sn, HandlesSaved(st.handles), WorkspacesSaved(st.workspaces)) }

  ghost function HandlesSaved(handles: map<Id, Handle>): (out: map<Id, Handle>)
    ensures out.Keys == handles.Keys
    ensures forall id :: id in handles ==> out[id] == handles[id].(saved := handles[id].used)
    decreases |handles|
  {
    if handles.Keys == {} then handles
    else
      var id :| id in handles;
      assert handles.Keys == (handles - {id}).Keys + {id};
      assert |handles| == |handles.Keys| && |handles - {id}| == |(handles - {id}).Keys|;
      HandlesSaved(handles - {id})[id := handles[id].(saved := handles[id].used)]
  }

  ghost function WorkspacesSaved(ws: map<Id, Workspace>): (out: map<Id, Workspace>)
    ensures out.Keys == ws.Keys && forall id :: id in ws ==> out[id] == ws[id].(saved := ws[id].used)
    decreases |ws|
  {
    if ws.Keys == {} then ws
    else
      var id :| id in ws;
      assert ws.Keys == (ws - {id}).Keys + {id};
      assert |ws| == |ws.Keys| && |ws - {id}| == |(ws - {id}).Keys|;
      WorkspacesSaved(ws - {id})[id := ws[id].(saved := ws[id].used)]
  }

  function Orphans(handles: map<Id, Handle>): set<Id> {
    set id | id in handles && handles[id].parent != "" && handles[id].parent !in handles
  }

  lemma NoEmptyId(st: State, clock: nat, born: map<Id, Id>, bornW: map<Id, string>)
    requires WfBirths(born, bornW) && OwnValues(st, clock, born, bornW)
    ensures "" !in st.handles
  {
    assert Lookup(st, HKey("")).Some? ==> "" in born;
  }

  lemma LoadedValues(st: State, clock: nat, born: map<Id, Id>, bornW: map<Id, string>)
    requires OwnValues(st, clock, born, bornW)
    ensures OwnValues(Loaded(st), clock, born, bornW) && SavedRecently(Loaded(st))
  {
    forall k | Lookup(Loaded(st), k).Some?
      ensures OwnValue(k, Lookup(Loaded(st), k).value, clock, born, bornW)
      ensures var e := Lookup(Loaded(st), k).value; e.Saved() <= e.Used() <= e.Saved() + USED_EVERY
    {
      assert OwnValue(k, Lookup(st, k).value, clock, born, bornW);
    }
  }

  lemma HashOneMore(workspaces: map<Id, Workspace>, todo: set<Id>, byHash: map<string, Id>, id: Id)
    requires HashesIndexed(workspaces - todo, byHash) && id in todo && id in workspaces
    requires forall a :: a in workspaces && workspaces[a].keyHash == workspaces[id].keyHash ==> a == id
    ensures HashesIndexed(workspaces - (todo - {id}), byHash[workspaces[id].keyHash := id])
  {
    var before, after := workspaces - todo, workspaces - (todo - {id});
    assert after == before[id := workspaces[id]];
    forall x | x in before ensures workspaces[x].keyHash in byHash && byHash[workspaces[x].keyHash] == x {
      assert before[x] == workspaces[x];
    }
    var byHash' := byHash[workspaces[id].keyHash := id];
    forall h | h in byHash' ensures byHash'[h] in after && after[byHash'[h]].keyHash == h {
      if h != workspaces[id].keyHash { assert byHash[h] in before && before[byHash[h]].keyHash == h; }
    }
  }

  lemma LinkOneMore(m: Mem, todo: set<Id>, id: Id)
    requires ChildrenIndexed(m.st.handles - todo, m.children) && id in todo && id in m.st.handles
    ensures ChildrenIndexed(m.st.handles - (todo - {id}), Linked(m, m.st.handles[id].parent, id))
  {
    var before, after := m.st.handles - todo, m.st.handles - (todo - {id});
    assert after == before[id := m.st.handles[id]];
  }

  lemma DistinctHashes(m: Mem)
    requires WfBirths(m.born, m.bornW) && OwnValues(m.st, m.clock, m.born, m.bornW)
    ensures var ws := m.st.workspaces; forall a, b :: a in ws && b in ws && ws[a].keyHash == ws[b].keyHash ==> a == b
  {
    forall id | id in m.st.workspaces ensures id in m.bornW && m.bornW[id] == m.st.workspaces[id].keyHash {
      assert OwnValue(WKey(id), Lookup(m.st, WKey(id)).value, m.clock, m.born, m.bornW);
    }
  }

  // ---- eviction ----

  function TokenPool(handles: map<Id, Handle>, token: string): set<Id> {
    set id | id in handles && handles[id].token == token && handles[id].typ == ""
  }

  function ActivityPool(handles: map<Id, Handle>, parent: Id): set<Id> {
    set id | id in handles && handles[id].parent == parent && !handles[id].start
  }

  /** The least recently used of a pool, just enough for one more to make `room`. */
  predicate LruVictims(handles: map<Id, Handle>, pool: set<Id>, room: nat, victims: set<Id>) {
    && victims <= pool <= handles.Keys
    && |victims| == (if |pool| >= room then |pool| - room + 1 else 0)
    && forall v, s :: v in victims && s in pool - victims ==> Recency(handles[v]) <= Recency(handles[s])
  }

  function IdSet(ids: seq<Id>): set<Id> { set x | x in ids }

  /** Distinct handles, least recently used first. */
  predicate ByRecency(handles: map<Id, Handle>, ids: seq<Id>) {
    && (forall i :: 0 <= i < |ids| ==> ids[i] in handles)
    && (forall i, j :: 0 <= i < j < |ids| ==> ids[i] != ids[j] && Recency(handles[ids[i]]) <= Recency(handles[ids[j]]))
  }

  function InsertAt(order: seq<Id>, k: nat, id: Id): seq<Id>
    requires k <= |order|
  {
    order[..k] + [id] + order[k..]
  }

  lemma InsertedElements(order: seq<Id>, k: nat, id: Id)
    requires k <= |order|
    ensures IdSet(InsertAt(order, k, id)) == IdSet(order) + {id}
  {
    assert order == order[..k] + order[k..];
  }

  lemma InsertedByRecency(handles: map<Id, Handle>, order: seq<Id>, k: nat, id: Id)
    requires ByRecency(handles, order) && id in handles && id !in order && k <= |order|
    requires k > 0 ==> Recency(handles[order[k - 1]]) <= Recency(handles[id])
    requires forall i :: k <= i < |order| ==> Recency(handles[id]) < Recency(handles[order[i]])
    ensures ByRecency(handles, InsertAt(order, k, id))
  {
    hide Recency;
    var out := InsertAt(order, k, id);
    forall i ensures 0 <= i < |out| ==> out[i] == (if i < k then order[i] else if i == k then id else order[i - 1]) {}
  }

  lemma FirstAreVictims(handles: map<Id, Handle>, pool: set<Id>, room: nat, order: seq<Id>)
    requires ByRecency(handles, order) && pool == IdSet(order) && |order| == |pool| && 0 < room <= |pool|
    ensures LruVictims(handles, pool, room, IdSet(order[..|pool| - room + 1]))
  {
    var n := |pool| - room + 1;
    DistinctCount(order[..n]);
    assert forall j :: 0 <= j < n ==> order[j] in order[..n];
    forall v, s | v in order[..n] && s in pool && s !in order[..n] ensures Recency(handles[v]) <= Recency(handles[s]) {
      var i :| 0 <= i < n && order[i] == v;
      var j :| 0 <= j < |order| && order[j] == s;
    }
  }

  lemma {:induction false} DistinctCount(ids: seq<Id>)
    requires forall i, j :: 0 <= i < j < |ids| ==> ids[i] != ids[j]
    ensures |IdSet(ids)| == |ids|
  {
    if ids != [] {
      var front, last := ids[..|ids| - 1], ids[|ids| - 1];
      DistinctCount(front);
      assert IdSet(ids) == IdSet(front) + {last};
    }
  }

  /** Nothing hangs off a handle whose own device handle is gone. */
  lemma OrphanIsAlone(m: Mem, id: Id)
    requires Sound(m) && id in m.st.handles && m.st.handles[id].parent != ""
    ensures Forest(m.st.handles, {id}) == {id} && id != ""
  {
    SoundIsOneLevel(m);
  }

  lemma NoneOrphaned(handles: map<Id, Handle>)
    requires OneLevel(handles)
    ensures NoOrphan(handles - (Orphans(handles) - {}))
  {
  }

  lemma IndexedChild(m: Mem, p: Id, c: Id)
    requires Sound(m) && p in m.children && c in m.children[p]
    ensures c in m.st.handles && Born(m, HKey(c))
  {
    assert Lookup(m.st, HKey(c)).Some?;
    WfLiveAreBorn(m);
  }

  lemma SoundStays(m: Mem)
    requires Sound(m)
    ensures StoreStep(m, m, [])
  {
    WfLiveAreBorn(m);
    StepNone(m);
  }

  lemma NotItsOwnChild(m0: Mem, m1: Mem, id: Id)
    requires Sound(m0) && id in m0.st.handles && id != "" && m1 == m0.(st := m1.st)
    requires m1.st.handles == if id in m0.children then m0.st.handles - m0.children[id] else m0.st.handles
    ensures id in m1.st.handles && Unlinked(m1, id) == Unlinked(m0, id)
    ensures m1.st.handles == m0.st.handles - ChildrenOf(m0, id)
  {
    SoundIsOneLevel(m0);
  }

  lemma TreeCascade(m: Mem, id: Id, recs: seq<Record>, r: Record)
    requires Sound(m) && id != "" && r.HandleRec? && r.id == id && r.hv.None?
    requires Deletions(recs) && Ids(recs) == ChildrenOf(m, id)
    ensures Cascade(m.st.handles, id, recs + [r])
  {
    OneMoreDeletion(recs, r);
    assert (recs + [r])[..|recs|] == recs;
  }

  lemma NoDeletions()
    ensures Deletions([]) && Ids([]) == {}
  {
  }

  /** Every handle read from the disk is saved as it is. */
  method SaveHandles(handles: map<Id, Handle>) returns (out: map<Id, Handle>)
    ensures out == HandlesSaved(handles)
  {
    out := handles;
    var todo := handles.Keys;
    ghost var saved := HandlesSaved(handles);
    hide HandlesSaved;
    while todo != {}
      invariant todo <= handles.Keys == out.Keys == saved.Keys
      invariant forall id :: id in handles ==> out[id] == if id in todo then handles[id] else saved[id]
      decreases |todo|
    {
      var id :| id in todo;
      todo := todo - {id};
      out := out[id := out[id].(saved := out[id].used)];
    }
  }

  method SaveWorkspaces(ws: map<Id, Workspace>) returns (out: map<Id, Workspace>)
    ensures out == WorkspacesSaved(ws)
  {
    out := ws;
    var todo := ws.Keys;
    ghost var saved := WorkspacesSaved(ws);
    hide WorkspacesSaved;
    while todo != {}
      invariant todo <= ws.Keys == out.Keys == saved.Keys
      invariant forall id :: id in ws ==> out[id] == if id in todo then ws[id] else saved[id]
      decreases |todo|
    {
      var id :| id in todo;
      todo := todo - {id};
      out := out[id := out[id].(saved := out[id].used)];
    }
  }

  class Store {
    const lim: Limits
    const hashKey: string -> string

    var handles: map<Id, Handle>
    var workspaces: map<Id, Workspace>
    var children: map<Id, set<Id>>
    var byHash: map<string, Id>
    var sn: nat
    var lastSweep: int

    ghost var clock: nat
    ghost var born: map<Id, Id>
    ghost var bornW: map<Id, string>

    ghost function M(): Mem
      reads this
    {
      Mem(State(sn, handles, workspaces), children, byHash, lastSweep, clock, born, bornW)
    }

    ghost function T(): Tables
      reads this
    {
      Tables(handles, workspaces, lastSweep)
    }

    // ---- opening ----

    /** The store over a recovered state: the indexes are rebuilt, and nothing has been swept yet. */
    constructor (lim: Limits, hashKey: string -> string, st: State, ghost clock: nat, ghost born: map<Id, Id>,
                 ghost bornW: map<Id, string>)
      requires WfBirths(born, bornW) && OwnValues(st, clock, born, bornW)
      ensures this.lim == lim && this.hashKey == hashKey && Sound(M())
      ensures M().st == Loaded(st) && lastSweep == ZERO_TIME && M().clock == clock && M().born == born
        && M().bornW == bornW
    {
      this.lim, this.hashKey := lim, hashKey;
      var handles := SaveHandles(st.handles);
      var workspaces := SaveWorkspaces(st.workspaces);
      this.handles, this.workspaces := handles, workspaces;
      this.children, this.byHash := map[], map[];
      this.sn, this.lastSweep := st.sn, ZERO_TIME;
      this.clock, this.born, this.bornW := clock, born, bornW;
      new;
      hide HandlesSaved, WorkspacesSaved, ChildrenIndexed, HashesIndexed, WfBirths;
      LoadedValues(st, clock, born, bornW);
      NoEmptyId(st, clock, born, bornW);
      IndexHashes();
      IndexChildren();
    }

    method IndexHashes()
      requires WfBirths(born, bornW) && OwnValues(M().st, clock, born, bornW) && byHash == map[]
      modifies this`byHash
      ensures HashesIndexed(workspaces, byHash)
    {
      DistinctHashes(M());
      var todo := workspaces.Keys;
      while todo != {}
        invariant todo <= workspaces.Keys && HashesIndexed(workspaces - todo, byHash)
      {
        var id :| id in todo;
        HashOneMore(workspaces, todo, byHash, id);
        todo := todo - {id};
        byHash := byHash[workspaces[id].keyHash := id];
      }
      assert workspaces - {} == workspaces;
    }

    method IndexChildren()
      requires children == map[] && "" !in handles
      modifies this`children
      ensures ChildrenIndexed(handles, children)
    {
      var todo := handles.Keys;
      while todo != {}
        invariant todo <= handles.Keys && ChildrenIndexed(handles - todo, children)
      {
        var id :| id in todo;
        LinkOneMore(M(), todo, id);
        todo := todo - {id};
        Link(handles[id].parent, id);
      }
      assert handles - {} == handles;
    }

    /** A Live Activity handle whose device handle is gone goes now. */
    method PruneOrphans() returns (recs: seq<Record>)
      requires Sound(M())
      modifies this`handles, this`children, this`sn
      ensures Wf(M()) && StoreStep(old(M()), M(), recs)
      ensures handles == old(handles) - Orphans(old(handles))
    {
      hide Sound, StoreStep, LiveAreBorn;
      ghost var m0, h0 := M(), handles;
      Starts(m0);
      SoundIsOneLevel(m0);
      recs := [];
      var todo := handles.Keys;
      while todo != {}
        invariant Sound(M()) && StoreStep(m0, M(), recs)
        invariant todo <= h0.Keys && handles == h0 - (Orphans(h0) - todo)
      {
        var id :| id in todo;
        todo := todo - {id};
        if id in handles && handles[id].parent != "" && handles[id].parent !in handles {
          ghost var m1 := M();
          OrphanIsAlone(m1, id);
          var more := DelTree(id);
          StepTrans(m0, m1, M(), recs, more);
          recs := recs + more;
        }
      }
      NoneOrphaned(h0);
    }

    // ---- the children index ----

    method Link(parent: Id, child: Id)
      modifies this`children
      ensures children == Linked(old(M()), parent, child)
    {
      if parent != "" {
        if parent !in children { children := children[parent := {}]; }
        children := children[parent := children[parent] + {child}];
      }
    }

    method Unlink(parent: Id, child: Id)
      modifies this`children
      ensures children ==
        if parent !in old(children) then old(children)
        else if old(children)[parent] - {child} == {} then old(children) - {parent}
        else old(children)[parent := old(children)[parent] - {child}]
    {
      if parent in children {
        children := children[parent := children[parent] - {child}];
        if children[parent] == {} { children := children - {parent}; }
      }
      assert parent in old(children) && old(children)[parent] - {child} == {} ==>
        old(children)[parent := {}] - {parent} == old(children) - {parent};
    }

    // ---- records ----

    method PutH(id: Id) returns (r: Record)
      requires id in handles
      modifies this`handles, this`sn
      ensures sn == old(sn) + 1
      ensures var h := old(handles)[id]; handles == old(handles)[id := h.(saved := h.used)]
      ensures r == HandleRec(sn, id, Some(handles[id]))
    {
      sn := sn + 1;
      handles := handles[id := handles[id].(saved := handles[id].used)];
      r := HandleRec(sn, id, Some(handles[id]));
    }

    method DelH(id: Id) returns (r: Record)
      modifies this`handles, this`sn
      ensures sn == old(sn) + 1 && handles == old(handles) - {id} && r == HandleRec(sn, id, None)
    {
      sn := sn + 1;
      handles := handles - {id};
      r := HandleRec(sn, id, None);
    }

    method PutW(id: Id) returns (r: Record)
      requires id in workspaces
      modifies this`workspaces, this`sn
      ensures sn == old(sn) + 1
      ensures var w := old(workspaces)[id]; workspaces == old(workspaces)[id := w.(saved := w.used)]
      ensures r == WorkspaceRec(sn, id, Some(workspaces[id]))
    {
      sn := sn + 1;
      workspaces := workspaces[id := workspaces[id].(saved := workspaces[id].used)];
      r := WorkspaceRec(sn, id, Some(workspaces[id]));
    }

    method DelW(id: Id) returns (r: Record)
      modifies this`workspaces, this`byHash, this`sn
      ensures sn == old(sn) + 1 && workspaces == old(workspaces) - {id} && r == WorkspaceRec(sn, id, None)
      ensures byHash == if id in old(workspaces) then old(byHash) - {old(workspaces)[id].keyHash} else old(byHash)
    {
      sn := sn + 1;
      if id in workspaces { byHash := byHash - {workspaces[id].keyHash}; }
      workspaces := workspaces - {id};
      r := WorkspaceRec(sn, id, None);
    }

    // ---- deleting ----

    method DelChildren(id: Id) returns (recs: seq<Record>)
      requires Sound(M())
      modifies this`handles, this`sn
      ensures StoreStep(old(M()), M(), recs)
      ensures handles == if id in children then old(handles) - children[id] else old(handles)
      ensures Deletions(recs) && Ids(recs) == if id in children then children[id] else {}
    {
      hide StoreStep, Sound, Born, Deletions, Ids, LiveAreBorn;
      ghost var m0 := M();
      NoDeletions();
      Starts(m0);
      recs := [];
      if id in children {
        var todo := children[id];
        while todo != {}
          invariant todo <= children[id] && handles == m0.st.handles - (children[id] - todo)
          invariant StoreStep(m0, M(), recs)
          invariant Deletions(recs) && Ids(recs) == children[id] - todo
        {
          var c :| c in todo;
          todo := todo - {c};
          IndexedChild(m0, id, c);
          if c in handles {
            ghost var m1 := M();
            var r := DelH(c);
            ThenDelH(m0, m1, M(), recs, c);
            OneMoreDeletion(recs, r);
            recs := recs + [r];
          }
        }
      }
    }

    /** The index forgets a tree. */
    method UnlinkTree(id: Id)
      requires id in handles
      modifies this`children
      ensures children == Unlinked(old(M()), id)
    {
      children := children - {id};
      if handles[id].parent != "" { Unlink(handles[id].parent, id); }
    }

    /** Deletes a handle and the Live Activity handles hanging off it; nothing when it is already gone. */
    method DelTree(id: Id) returns (recs: seq<Record>)
      requires Sound(M()) && id != ""
      modifies this`handles, this`children, this`sn
      ensures Sound(M()) && StoreStep(old(M()), M(), recs)
      ensures handles == if id in old(handles) then old(handles) - Forest(old(handles), {id}) else old(handles)
      ensures if id in old(handles) then Cascade(old(handles), id, recs) else recs == []
    {
      hide StoreStep, Sound, Cascade, Deletions, Ids, Forest, Unlinked;
      ghost var m0 := M();
      if id !in handles {
        SoundStays(m0);
        return [];
      }
      recs := DelChildren(id);
      ghost var m1 := M();
      NotItsOwnChild(m0, m1, id);
      UnlinkTree(id);
      var r := DelH(id);
      TreeGone(m0, m1, M(), recs, id);
      TreeCascade(m0, id, recs, r);
      recs := recs + [r];
    }

    /** The retention sweep. The handles and workspaces are visited in any order, and a handle is judged when it
        is reached, among whatever the sweep has left so far. */
    method Sweep(now: nat, full: bool) returns (recs: seq<Record>)
      requires Wf(M()) && clock <= now
      modifies this`handles, this`workspaces, this`children, this`byHash, this`sn, this`lastSweep
      ensures Wf(M()) && StoreStep(old(M()), M(), recs)
      ensures T() == Swept(old(T()), lim, now, full)
      ensures KeepsFamilies(old(handles), handles)
    {
      ghost var m0 := M();
      WfLiveAreBorn(m0);
      StepNone(m0);
      recs := [];
      var since := now - lastSweep;
      if since < MINUTE || (!full && since < SWEEP_EVERY) { return; }
      lastSweep := now;
      ghost var m1 := M();
      StepTouch(m0, m1);
      recs := SweepHandles(now);
      ghost var m2 := M();
      StepTrans(m0, m1, m2, [], recs);
      assert [] + recs == recs;
      var more := SweepWorkspaces(now);
      StepTrans(m0, m2, M(), recs, more);
      recs := recs + more;
      SoundIsOneLevel(m0);
      ForestGone(m0, M(), StaleHandles(m0.st.handles, lim, now));
    }

    method SweepHandles(now: nat) returns (recs: seq<Record>)
      requires Wf(M())
      modifies this`handles, this`children, this`sn
      ensures Wf(M()) && StoreStep(old(M()), M(), recs)
      ensures handles == old(handles) - Forest(old(handles), StaleHandles(old(handles), lim, now))
    {
      hide StoreStep, LiveAreBorn;
      ghost var m0 := M();
      StartsWf(m0);
      SoundIsOneLevel(m0);
      ghost var h0, stale := handles, StaleHandles(handles, lim, now);
      recs := [];
      var t := Unix(now);
      var unbound, idle := TruncDiv(lim.unboundTTL, SECOND), TruncDiv(lim.idleTTL, SECOND);
      var todo := handles.Keys;
      ghost var roots: set<Id> := {};
      while todo != {}
        invariant Wf(M()) && StoreStep(m0, M(), recs)
        invariant todo <= h0.Keys && roots <= stale && handles == h0 - Forest(h0, roots)
        invariant forall id :: id in stale && id !in todo ==>
          id in Forest(h0, roots) && (id in roots || h0[id].parent in roots)
      {
        var id :| id in todo;
        todo := todo - {id};
        if id in handles {
          // its device handle is there too, and neither has changed
          assert Stale(handles, id, t, unbound, idle) == Stale(h0, id, t, unbound, idle);
          if Stale(handles, id, t, unbound, idle) {
            ghost var m1 := M();
            var more := DelTree(id);
            ForestGrows(h0, roots, id);
            ForestGone(m0, M(), roots + {id});
            StepTrans(m0, m1, M(), recs, more);
            recs := recs + more;
            roots := roots + {id};
          }
        }
      }
      assert Forest(h0, roots) == Forest(h0, stale);
    }

    method DropWorkspace(id: Id) returns (r: Record)
      requires Wf(M()) && id in workspaces
      modifies this`workspaces, this`byHash, this`sn
      ensures Wf(M()) && StoreStep(old(M()), M(), [r]) && workspaces == old(workspaces) - {id}
    {
      ghost var m0 := M();
      WfLiveAreBorn(m0);
      StepNone(m0);
      assert Born(m0, WKey(id)) by { assert Lookup(m0.st, WKey(id)).Some?; }
      r := DelW(id);
      ThenDelW(m0, m0, M(), [], id);
      assert [] + [r] == [r];
      FewerEntries(m0, M());
      WorkspaceGone(m0, M(), id);
    }

    method SweepWorkspaces(now: nat) returns (recs: seq<Record>)
      requires Wf(M())
      modifies this`workspaces, this`byHash, this`sn
      ensures Wf(M()) && StoreStep(old(M()), M(), recs)
      ensures workspaces == old(workspaces) - StaleWorkspaces(old(workspaces), lim, now)
    {
      hide StoreStep, Wf, StaleWorkspace, LiveAreBorn;
      ghost var m0 := M();
      StartsWf(m0);
      ghost var w0, stale := workspaces, StaleWorkspaces(workspaces, lim, now);
      recs := [];
      var t := Unix(now);
      var unused, idleWS := TruncDiv(lim.unusedWorkspace, SECOND), TruncDiv(lim.idleWorkspace, SECOND);
      var todo := workspaces.Keys;
      while todo != {}
        invariant Wf(M()) && StoreStep(m0, M(), recs)
        invariant todo <= w0.Keys && workspaces == w0 - (stale - todo)
      {
        var id :| id in todo;
        todo := todo - {id};
        if StaleWorkspace(workspaces[id], t, unused, idleWS) {
          ghost var m1 := M();
          var r := DropWorkspace(id);
          StepTrans(m0, m1, M(), recs, [r]);
          recs := recs + [r];
        }
      }
    }

    // ---- eviction ----

    method InsertByRecency(order: seq<Id>, id: Id) returns (out: seq<Id>)
      requires ByRecency(handles, order) && id in handles && id !in order
      ensures ByRecency(handles, out) && IdSet(out) == IdSet(order) + {id}
    {
      var k := |order|;
      while k > 0 && Recency(handles[order[k - 1]]) > Recency(handles[id])
        invariant 0 <= k <= |order|
        invariant forall i :: k <= i < |order| ==> Recency(handles[order[i]]) > Recency(handles[id])
      {
        k := k - 1;
      }
      out := InsertAt(order, k, id);
      InsertedByRecency(handles, order, k, id);
      InsertedElements(order, k, id);
    }

    /** The pool, least recently used first. */
    method SortByRecency(pool: set<Id>) returns (order: seq<Id>)
      requires pool <= handles.Keys
      ensures ByRecency(handles, order) && pool == IdSet(order) && |order| == |pool|
    {
      order := [];
      var todo := pool;
      while todo != {}
        invariant todo <= pool && ByRecency(handles, order) && IdSet(order) == pool - todo
      {
        var id :| id in todo;
        todo := todo - {id};
        assert id !in IdSet(order);
        order := InsertByRecency(order, id);
      }
      DistinctCount(order);
    }

    /** Deletes the trees of several handles, none of which hangs off another. */
    method DelTrees(ids: seq<Id>) returns (recs: seq<Record>)
      requires Wf(M())
      requires forall x :: x in ids ==> x in handles && handles[x].parent !in ids
      requires forall i, j :: 0 <= i < j < |ids| ==> ids[i] != ids[j]
      modifies this`handles, this`children, this`sn
      ensures Wf(M()) && StoreStep(old(M()), M(), recs)
      ensures handles == old(handles) - Forest(old(handles), IdSet(ids))
      ensures KeepsFamilies(old(handles), handles)
    {
      ghost var m0, h0 := M(), handles;
      WfLiveAreBorn(m0);
      StepNone(m0);
      SoundIsOneLevel(m0);
      recs := [];
      for i := 0 to |ids|
        invariant Wf(M()) && StoreStep(m0, M(), recs)
        invariant handles == h0 - Forest(h0, IdSet(ids[..i]))
      {
        ghost var m1, roots := M(), IdSet(ids[..i]);
        var more := DelTree(ids[i]);
        ForestGrows(h0, roots, ids[i]);
        assert IdSet(ids[..i + 1]) == roots + {ids[i]};
        ForestGone(m0, M(), roots + {ids[i]});
        StepTrans(m0, m1, M(), recs, more);
        recs := recs + more;
      }
      assert ids[..|ids|] == ids;
      ForestGone(m0, M(), IdSet(ids));
    }

    /** Makes room for one more of a pool that must stay within `room`: the least recently used go. */
    method Evict(pool: set<Id>, room: nat) returns (recs: seq<Record>, ghost victims: set<Id>)
      requires Wf(M()) && room > 0 && pool <= handles.Keys
      requires forall x :: x in pool ==> handles[x].parent !in pool
      modifies this`handles, this`children, this`sn
      ensures Wf(M()) && StoreStep(old(M()), M(), recs)
      ensures LruVictims(old(handles), pool, room, victims)
      ensures handles == old(handles) - Forest(old(handles), victims)
      ensures KeepsFamilies(old(handles), handles)
    {
      WfLiveAreBorn(M());
      StepNone(M());
      SoundIsOneLevel(M());
      hide StoreStep, Together, OneStart;
      recs, victims := [], {};
      if |pool| >= room {
        var order := SortByRecency(pool);
        FirstAreVictims(handles, pool, room, order);
        victims := IdSet(order[..|order| - room + 1]);
        recs := DelTrees(order[..|order| - room + 1]);
      }
    }

    /** Deletes a device handle's push-to-start handles but `keep`. */
    method DropStarts(parent: Id, keep: Id) returns (recs: seq<Record>)
      requires Wf(M()) && parent != ""
      modifies this`handles, this`children, this`sn
      ensures Wf(M()) && StoreStep(old(M()), M(), recs)
      ensures handles == old(handles) - Forest(old(handles), StartPool(old(handles), parent) - {keep})
      ensures KeepsFamilies(old(handles), handles)
    {
      hide StoreStep, LiveAreBorn;
      ghost var m0, h0 := M(), handles;
      StartsWf(m0);
      SoundIsOneLevel(m0);
      recs := [];
      ghost var victims := {};
      var todo := if parent in children then children[parent] else {};
      while todo != {}
        invariant Wf(M()) && StoreStep(m0, M(), recs)
        invariant victims <= StartPool(h0, parent) - {keep} <= victims + todo
        invariant handles == h0 - Forest(h0, victims)
      {
        var c :| c in todo;
        todo := todo - {c};
        if c in handles && handles[c].start && c != keep {
          ghost var m1 := M();
          var more := DelTree(c);
          ForestGrows(h0, victims, c);
          ForestGone(m0, M(), victims + {c});
          StepTrans(m0, m1, M(), recs, more);
          recs := recs + more;
          victims := victims + {c};
        }
      }
      assert victims == StartPool(h0, parent) - {keep};
      ForestGone(m0, M(), victims);
    }

    // ---- device handles ----

    /** The sweep every operation that adds an entry begins with. */
    method SweepFirst(now: nat) returns (recs: seq<Record>)
      requires Wf(M()) && clock <= now
      modifies this
      ensures Wf(M()) && StoreStep(old(M()), M(), recs) && clock == now && born == old(born) && bornW == old(bornW)
      ensures T() == Swept(old(T()), lim, now, false)
      ensures KeepsFamilies(old(handles), handles)
    {
      ghost var m0 := M();
      clock := now;
      ghost var m1 := M();
      ClockMoved(m0, m1);
      recs := Sweep(now, false);
      AfterClock(m0, m1, M(), recs);
    }

    /** …and the second one, when that left it at capacity. */
    method SweepForHandle(now: nat) returns (recs: seq<Record>)
      requires Wf(M()) && clock <= now
      modifies this
      ensures Wf(M()) && StoreStep(old(M()), M(), recs) && clock == now && born == old(born) && bornW == old(bornW)
      ensures T() == AfterSweeps(old(T()), lim, now)
      ensures KeepsFamilies(old(handles), handles)
    {
      ghost var m0 := M();
      recs := SweepFirst(now);
      if |handles| >= lim.maxHandles {
        ghost var m1, sofar := M(), recs;
        var more := Sweep(now, true);
        StepTransWf(m0, m1, M(), sofar, more);
        recs := recs + more;
      }
    }

    /** A handle is born: it is entered, linked to its parent and journalled. */
    method Bear(id: Id, h: Handle) returns (r: Record)
      requires Wf(M()) && id != "" && id !in born
      requires h.used == h.saved == 0 && h.typ == (if h.parent == "" then "" else LIVE_ACTIVITY)
        && (h.start ==> h.parent != "")
      requires h.parent != "" ==>
        h.parent in handles && handles[h.parent].typ == "" && h.workspace == handles[h.parent].workspace
      requires h.start ==> StartPool(handles, h.parent) == {}
      modifies this`handles, this`children, this`sn, this`born
      ensures Wf(M()) && StoreStep(old(M()), M(), [r])
      ensures handles == old(handles)[id := h] && r == HandleRec(sn, id, Some(h))
      ensures KeepsFamilies(old(handles), handles)
    {
      hide Wf, StoreStep, KeepsFamilies;
      ghost var m0 := M();
      born := born[id := h.parent];
      handles := handles[id := h];
      Link(h.parent, id);
      r := PutH(id);
      assert handles == m0.st.handles[id := h];
      BirthStep(m0, M(), id, h);
    }

    /** Stores a fresh handle for a device token. `draw` is the random id; it has never been drawn before. */
    method NewHandle(token: string, topic: string, env: string, now: nat, draw: Id)
      returns (res: Result<Id>, recs: seq<Record>, ghost victims: set<Id>)
      requires Wf(M()) && clock <= now && draw != "" && draw !in born
      modifies this
      ensures Wf(M()) && StoreStep(old(M()), M(), recs)
      ensures KeepsFamilies(old(handles), handles)
      ensures var kept := AfterSweeps(old(T()), lim, now);
        && T().workspaces == kept.workspaces && T().lastSweep == kept.lastSweep
        && (|kept.handles| >= lim.maxHandles ==> res == Err(Full) && handles == kept.handles)
        && (|kept.handles| < lim.maxHandles ==>
              && res == Ok(draw)
              && LruVictims(kept.handles, TokenPool(kept.handles, token), MAX_HANDLES_PER_TOKEN, victims)
              && handles == (kept.handles - Forest(kept.handles, victims))[draw :=
                   DeviceHandle(token, topic, env, now)])
      ensures res.Ok? ==>
        var h := handles[res.value];
        && h.token == token && h.topic == topic && h.env == env && h.created == Unix(now)
        && h.typ == h.parent == h.workspace == "" && !h.start && h.used == h.saved == 0
    {
      ghost var m0 := M();
      victims := {};
      recs := SweepForHandle(now);
      if |handles| >= lim.maxHandles { return Err(Full), recs, victims; }
      ghost var m1, sofar := M(), recs;
      TokenPoolIsFlat(m1, token);
      var more;
      more, victims := Evict(TokenPool(handles, token), MAX_HANDLES_PER_TOKEN);
      ghost var m2 := M();
      var r := Bear(draw, DeviceHandle(token, topic, env, now));
      StepTrans3(m0, m1, m2, M(), sofar, more, [r]);
      recs := recs + more + [r];
      res := Ok(draw);
    }

    /** A live handle takes a new value of the same kind and parent, and is journalled. */
    method Change(id: Id, h: Handle) returns (r: Record)
      requires Wf(M()) && id in handles && (h.start ==> h.parent != "")
      requires Evolves(HEntry(handles[id]), HEntry(h)) && h.used <= Unix(clock)
      modifies this`handles, this`sn
      ensures Wf(M()) && StoreStep(old(M()), M(), [r])
      ensures handles == old(handles)[id := h.(saved := h.used)] && r == HandleRec(sn, id, Some(handles[id]))
    {
      ghost var m0 := M();
      WfLiveAreBorn(m0);
      StepNone(m0);
      handles := handles[id := h];
      r := PutH(id);
      HandleChanged(m0, m0, M(), [], id, handles[id]);
      assert [] + [r] == [r];
    }

    /** The app's device token behind a handle changed; the binding stays. */
    method Repoint(id: Id, typ: string, token: string, topic: string, env: string)
      returns (res: Result<()>, recs: seq<Record>)
      requires Wf(M())
      modifies this`handles, this`sn
      ensures Wf(M()) && StoreStep(old(M()), M(), recs)
      ensures KeepsFamilies(old(handles), handles)
      ensures res == Err(NoHandle) <==> id !in old(handles)
      ensures id in old(handles) ==>
        var was := old(handles);
        var h := was[id];
        if h.typ != typ || (h.parent != "" && (was[h.parent].topic != topic || was[h.parent].env != env))
        then res == Err(HandleType) && handles == was
        else res == Ok(()) && handles == was[id := h.(token := token, topic := topic, env := env, saved := h.used)]
      ensures res.Err? ==> M() == old(M()) && recs == []
    {
      WfLiveAreBorn(M());
      StepNone(M());
      recs := [];
      if id !in handles { return Err(NoHandle), recs; }
      var h := handles[id];
      if h.typ != typ { return Err(HandleType), recs; }
      if h.parent != "" && (handles[h.parent].topic != topic || handles[h.parent].env != env) {
        return Err(HandleType), recs;
      }
      OwnHandle(M(), id);
      ghost var before := handles;
      var r := Change(id, h.(token := token, topic := topic, env := env));
      SameFamilies(before, handles);
      return Ok(()), [r];
    }

    method DeleteHandle(id: Id) returns (found: bool, recs: seq<Record>)
      requires Wf(M())
      modifies this`handles, this`children, this`sn
      ensures Wf(M()) && StoreStep(old(M()), M(), recs)
      ensures KeepsFamilies(old(handles), handles)
      ensures found == (id in old(handles))
      ensures handles == if found then old(handles) - Forest(old(handles), {id}) else old(handles)
      ensures found ==> forall x :: x in handles <==> x in old(handles) && x != id && old(handles)[x].parent != id
    {
      ghost var m0 := M();
      WfLiveAreBorn(m0);
      StepNone(m0);
      SoundIsOneLevel(m0);
      if id !in handles { return false, []; }
      recs := DelTree(id);
      ForestGone(m0, M(), {id});
      found := true;
    }

    /** APNs called a device token dead: every handle of it goes, with what hangs off it. */
    method DropToken(token: string) returns (recs: seq<Record>)
      requires Wf(M())
      modifies this`handles, this`children, this`sn
      ensures Wf(M()) && StoreStep(old(M()), M(), recs)
      ensures KeepsFamilies(old(handles), handles)
      ensures handles == old(handles) - Forest(old(handles), HoldersOf(old(handles), token))
      ensures forall x :: x in handles <==>
        && x in old(handles) && old(handles)[x].token != token
        && (old(handles)[x].parent != "" ==> old(handles)[old(handles)[x].parent].token != token)
    {
      ghost var m0, h0 := M(), handles;
      WfLiveAreBorn(m0);
      StepNone(m0);
      SoundIsOneLevel(m0);
      recs := [];
      ghost var holders, roots: set<Id> := HoldersOf(handles, token), {};
      var todo := handles.Keys;
      while todo != {}
        invariant Wf(M()) && StoreStep(m0, M(), recs)
        invariant todo <= h0.Keys && roots <= holders && handles == h0 - Forest(h0, roots)
        invariant forall id :: id in holders && id !in todo ==> id in roots || h0[id].parent in roots
      {
        var id :| id in todo;
        todo := todo - {id};
        if id in handles && handles[id].token == token {
          ghost var m1 := M();
          var more := DelTree(id);
          ForestGrows(h0, roots, id);
          ForestGone(m0, M(), roots + {id});
          StepTrans(m0, m1, M(), recs, more);
          recs := recs + more;
          roots := roots + {id};
        }
      }
      assert Forest(h0, roots) == Forest(h0, holders);
      ForestGone(m0, M(), roots);
    }

    // ---- Live Activity handles ----

    method FindToken(parent: Id, token: string) returns (found: Option<Id>)
      requires Wf(M()) && parent != ""
      ensures found.Some? ==>
        found.value in handles && handles[found.value].parent == parent && handles[found.value].token == token
      ensures found.None? ==> forall c :: c in handles && handles[c].parent == parent ==> handles[c].token != token
    {
      var todo := if parent in children then children[parent] else {};
      while todo != {}
        invariant todo <= ChildrenOf(M(), parent)
        invariant forall c :: c in ChildrenOf(M(), parent) - todo ==> handles[c].token != token
      {
        var c :| c in todo;
        todo := todo - {c};
        if handles[c].token == token { return Some(c); }
      }
      return None;
    }

    /** The app registers a known token again, of the kind it says now. */
    method Reregister(parent: Id, c: Id, start: bool) returns (recs: seq<Record>)
      requires Wf(M()) && parent != "" && c in handles && handles[c].parent == parent
      modifies this`handles, this`children, this`sn
      ensures Wf(M()) && StoreStep(old(M()), M(), recs)
      ensures handles == Reregistered(old(handles), parent, c, start)
      ensures KeepsFamilies(old(handles), handles)
    {
      ghost var m0 := M();
      WfLiveAreBorn(m0);
      StepNone(m0);
      recs := [];
      if handles[c].start != start {
        OwnHandle(m0, c);
        var r := Change(c, handles[c].(start := start));
        recs := [r];
        ghost var m1 := M();
        if start {
          var more := DropStarts(parent, c);
          StepTransWf(m0, m1, M(), [r], more);
          recs := recs + more;
        }
        ReregisteredKeeps(m0, M(), parent, c, start);
      }
    }

    /** Makes room for a new handle under `parent`: a push-to-start handle replaces the old one, an activity's
        evicts the least recently used. */
    method MakeRoomUnder(parent: Id, start: bool) returns (recs: seq<Record>, ghost victims: set<Id>)
      requires Wf(M()) && parent in handles && handles[parent].typ == ""
      modifies this`handles, this`children, this`sn
      ensures Wf(M()) && StoreStep(old(M()), M(), recs)
      ensures ChildVictims(old(handles), parent, start, victims)
      ensures handles == old(handles) - Forest(old(handles), victims)
      ensures KeepsFamilies(old(handles), handles)
    {
      ghost var m0 := M();
      DepthAtMostOne(m0, parent);
      SoundIsOneLevel(m0);
      if start {
        victims := StartPool(handles, parent);
        assert "" !in victims;
        assert victims - {""} == victims;
        recs := DropStarts(parent, "");
        ForestGone(m0, M(), victims);
      } else {
        ActivityPoolIsFlat(m0, parent);
        recs, victims := Evict(ActivityPool(handles, parent), MAX_CHILDREN);
      }
    }

    method AddChild(parent: Id, token: string, topic: string, env: string, start: bool, workspace: Id, now: nat,
                    draw: Id)
      returns (recs: seq<Record>, ghost victims: set<Id>)
      requires Wf(M()) && parent in handles && handles[parent].typ == "" && handles[parent].workspace == workspace
      requires draw != "" && draw !in born
      modifies this`handles, this`children, this`sn, this`born
      ensures Wf(M()) && StoreStep(old(M()), M(), recs)
      ensures ChildVictims(old(handles), parent, start, victims)
      ensures handles == (old(handles) - Forest(old(handles), victims))
        [draw := ChildHandle(token, topic, env, parent, start, workspace, now)]
      ensures var h := handles[draw];
        && h.token == token && h.topic == topic && h.env == env && h.created == Unix(now) && h.used == h.saved == 0
        && h.typ == "liveactivity" && h.parent == parent && h.start == start && h.workspace == workspace
      ensures KeepsFamilies(old(handles), handles)
    {
      ghost var m0 := M();
      SoundIsOneLevel(m0);
      DepthAtMostOne(m0, parent);
      recs, victims := MakeRoomUnder(parent, start);
      ghost var m1 := M();
      assert parent in handles && handles[parent] == m0.st.handles[parent];
      assert start ==> StartPool(handles, parent) == {};
      var r := Bear(draw, ChildHandle(token, topic, env, parent, start, workspace, now));
      StepTransWf(m0, m1, M(), recs, [r]);
      recs := recs + [r];
    }

    method NewToken(parent: Id, token: string, topic: string, env: string, start: bool, now: nat, draw: Id)
      returns (res: Result<Id>, recs: seq<Record>, ghost victims: set<Id>)
      requires Wf(M()) && clock <= now && parent in handles && handles[parent].typ == ""
      requires draw != "" && draw !in born
      modifies this
      ensures Wf(M()) && StoreStep(old(M()), M(), recs)
      ensures KeepsFamilies(old(handles), handles)
      ensures NewTokenOutcome(SweptIfFull(old(T()), lim, now).handles, lim, parent, token, topic, env, start, now, draw,
                              res, victims, handles)
      ensures var kept := SweptIfFull(old(T()), lim, now);
        T().workspaces == kept.workspaces && T().lastSweep == kept.lastSweep
    {
      var p := handles[parent];
      ghost var m0 := M();
      WfLiveAreBorn(m0);
      StepNone(m0);
      recs, victims := [], {};
      if |handles| >= lim.maxHandles {
        recs := Sweep(now, true);
        if |handles| >= lim.maxHandles || parent !in handles { return Err(Full), recs, victims; }
      }
      var sofar := recs;
      ghost var m1 := M();
      assert handles[parent] == p;
      var more;
      more, victims := AddChild(parent, token, topic, env, start, p.workspace, now, draw);
      StepTransWf(m0, m1, M(), sofar, more);
      recs, res := sofar + more, Ok(draw);
    }

    /** Stores a Live Activity handle under a device handle: the push-to-start handle or an activity's. */
    method NewChild(parent: Id, token: string, topic: string, env: string, start: bool, now: nat, draw: Id)
      returns (res: Result<Id>, recs: seq<Record>, ghost victims: set<Id>)
      requires Wf(M()) && clock <= now && draw != "" && draw !in born
      modifies this
      ensures Wf(M()) && StoreStep(old(M()), M(), recs)
      ensures KeepsFamilies(old(handles), handles)
      ensures ChildOutcome(Swept(old(T()), lim, now, false).handles, AfterSweeps(old(T()), lim, now).handles, lim,
                           parent, token, topic, env, start, now, draw, res, victims, handles)
      ensures var once := Swept(old(T()), lim, now, false);
        var kept := if IsNewToken(once.handles, parent, token, topic, env) then SweptIfFull(once, lim, now) else once;
        T().workspaces == kept.workspaces && T().lastSweep == kept.lastSweep
    {
      ghost var m0 := M();
      victims := {};
      recs := SweepFirst(now);
      if parent !in handles { return Err(NoHandle), recs, victims; }
      var p := handles[parent];
      if p.typ != "" || p.topic != topic || p.env != env { return Err(HandleType), recs, victims; }
      SoundIsOneLevel(M());
      var found := FindToken(parent, token);
      var sofar := recs;
      ghost var m1 := M();
      if found.Some? {
        var more := Reregister(parent, found.value, start);
        StepTransWf(m0, m1, M(), sofar, more);
        return Ok(found.value), sofar + more, victims;
      }
      var more;
      res, more, victims := NewToken(parent, token, topic, env, start, now, draw);
      StepTransWf(m0, m1, M(), sofar, more);
      recs := sofar + more;
    }

    /** An activity handle whose activity got its end goes; a push-to-start handle stays. */
    method Retire(id: Id) returns (recs: seq<Record>)
      requires Wf(M())
      modifies this`handles, this`children, this`sn
      ensures Wf(M()) && StoreStep(old(M()), M(), recs)
      ensures KeepsFamilies(old(handles), handles)
      ensures handles ==
        if id in old(handles) && old(handles)[id].typ == LIVE_ACTIVITY && !old(handles)[id].start
          then old(handles) - {id}
        else old(handles)
    {
      ghost var m0 := M();
      WfLiveAreBorn(m0);
      StepNone(m0);
      recs := [];
      if id in handles && handles[id].typ == LIVE_ACTIVITY && !handles[id].start {
        SoundIsOneLevel(m0);
        DepthAtMostOne(m0, id);
        assert Forest(handles, {id}) == {id};
        recs := DelTree(id);
        ForestGone(m0, M(), {id});
      }
    }

    // ---- pushes ----

    method BindChildren(dev: Id, id: Id, ws: Id) returns (recs: seq<Record>)
      requires Wf(M()) && ws != "" && dev != ""
      modifies this`handles, this`sn
      ensures Wf(M()) && StoreStep(old(M()), M(), recs)
      ensures handles == BoundChildren(old(handles), dev, id, ws, {})
      ensures Bindings(old(handles), ws, Family(old(handles), dev) - {dev, id}, recs)
    {
      hide Wf, StoreStep, Bindings, BoundChildren;
      ghost var m0 := M();
      var todo: set<Id>;
      todo, recs := StartBinding(dev, id, ws);
      ghost var among := ChildrenOf(m0, dev);
      NoBindings(m0.st.handles, ws, among - todo - {id});
      while todo != {}
        invariant Wf(M()) && StoreStep(m0, M(), recs)
        invariant todo <= among && handles == BoundChildren(m0.st.handles, dev, id, ws, todo)
        invariant Bindings(m0.st.handles, ws, among - todo - {id}, recs)
      {
        var c :| c in todo;
        recs := BindUnbound(c, dev, id, ws, todo, m0, recs);
        todo := todo - {c};
      }
      ChildrenInFamily(m0, dev);
      BindingsAlike(m0.st.handles, m0.st.handles, ws, among - {} - {id}, Family(m0.st.handles, dev) - {dev, id}, recs);
    }

    method StartBinding(dev: Id, id: Id, ws: Id) returns (todo: set<Id>, recs: seq<Record>)
      requires Wf(M()) && dev != ""
      ensures recs == [] && StoreStep(M(), M(), recs)
      ensures todo == ChildrenOf(M(), dev) && handles == BoundChildren(handles, dev, id, ws, todo)
    {
      WfLiveAreBorn(M());
      StepNone(M());
      todo, recs := if dev in children then children[dev] else {}, [];
    }

    method BindUnbound(c: Id, dev: Id, id: Id, ws: Id, ghost todo: set<Id>, ghost m0: Mem, recs: seq<Record>)
      returns (out: seq<Record>)
      requires Wf(M()) && Wf(m0) && StoreStep(m0, M(), recs)
      requires c in todo && todo <= ChildrenOf(m0, dev) && handles == BoundChildren(m0.st.handles, dev, id, ws, todo)
      requires Bindings(m0.st.handles, ws, ChildrenOf(m0, dev) - todo - {id}, recs)
      modifies this`handles, this`sn
      ensures Wf(M()) && StoreStep(m0, M(), out)
      ensures handles == BoundChildren(m0.st.handles, dev, id, ws, todo - {c})
      ensures Bindings(m0.st.handles, ws, ChildrenOf(m0, dev) - (todo - {c}) - {id}, out)
    {
      hide Wf, StoreStep;
      ChildrenInFamily(m0, dev);
      OneMoreBound(m0.st.handles, dev, id, ws, todo, c);
      ghost var bound := ChildrenOf(m0, dev) - todo - {id};
      out := recs;
      if c != id && handles[c].workspace == "" {
        ghost var m1 := M();
        var r := BindOne(c, ws);
        StepTransWf(m0, m1, M(), recs, [r]);
        BindingsAlike(m1.st.handles, m0.st.handles, ws, {c}, {c}, [r]);
        BindingsJoin(m0.st.handles, ws, bound, {c}, recs, [r]);
        assert bound + {c} == ChildrenOf(m0, dev) - (todo - {c}) - {id};
        out := recs + [r];
      } else {
        BindingsAlike(m0.st.handles, m0.st.handles, ws, bound, ChildrenOf(m0, dev) - (todo - {c}) - {id}, recs);
      }
    }

    method BindOne(c: Id, ws: Id) returns (r: Record)
      requires Wf(M()) && c in handles && handles[c].workspace == ""
      modifies this`handles, this`sn
      ensures Wf(M()) && StoreStep(old(M()), M(), [r])
      ensures var h := old(handles)[c]; handles == old(handles)[c := h.(workspace := ws, saved := h.used)]
      ensures Bindings(old(handles), ws, {c}, [r])
    {
      OwnHandle(M(), c);
      r := Change(c, handles[c].(workspace := ws));
    }

    /** The first push to an unbound family: its device handle and every unbound handle under it but the pushed one
        are bound and journalled. */
    method BindFamily(dev: Id, id: Id, ws: Id) returns (recs: seq<Record>)
      requires Wf(M()) && dev in handles && handles[dev].workspace == "" && ws != "" && dev != ""
      modifies this`handles, this`sn
      ensures Wf(M()) && StoreStep(old(M()), M(), recs)
      ensures handles == BoundFamily(old(handles), dev, id, ws)
      ensures Bindings(old(handles), ws, Family(old(handles), dev) - {id}, recs)
    {
      hide Wf, StoreStep, Bindings, BoundChildren;
      ghost var m0 := M();
      if dev == id {
        recs := BindChildren(dev, id, ws);
        assert Family(m0.st.handles, dev) - {dev, id} == Family(m0.st.handles, dev) - {id};
      } else {
        var r := BindOne(dev, ws);
        ghost var m1 := M();
        var more := BindChildren(dev, id, ws);
        StepTransWf(m0, m1, M(), [r], more);
        recs := [r] + more;
        ghost var rest := Family(m0.st.handles, dev) - {dev, id};
        BindingsAlike(m1.st.handles, m0.st.handles, ws, Family(m1.st.handles, dev) - {dev, id}, rest, more);
        BindingsJoin(m0.st.handles, ws, {dev}, rest, [r], more);
        assert {dev} + rest == Family(m0.st.handles, dev) - {id};
      }
    }

    /** A push from workspace `ws` asks for a handle. A handle of nobody's, and its family, become the pusher's; then
        `bind` holds. (What the caller is told once the records are written: RelayPush.Target.) */
    method Target(id: Id, ws: Id, typ: string, start: bool, now: nat)
      returns (res: Result<Handle>, recs: seq<Record>, bind: bool)
      requires Wf(M()) && clock <= now && ws != ""
      modifies this`handles, this`sn, this`clock
      ensures Wf(M()) && StoreStep(old(M()), M(), recs)
      ensures KeepsFamilies(old(handles), handles)
      ensures match Refusal(old(handles), id, ws, typ, start) case Some(e) => res == Err(e) case None => res.Ok?
      ensures res.Err? ==> M() == old(M()) && recs == [] && !bind
      ensures res.Ok? ==>
        var dev := DeviceOf(old(handles), id);
        && bind == (old(handles)[dev].workspace == "" || old(handles)[id].workspace == "")
        && id in handles && res.value == handles[id] && handles == Pushed(old(handles), id, ws, Unix(now))
        && Bindings(old(handles), ws, Family(old(handles), dev), recs)
    {
      ghost var m0, h0 := M(), handles;
      WfLiveAreBorn(m0);
      StepNone(m0);
      recs, bind := [], false;
      if id !in handles { return Err(NoHandle), recs, bind; }
      var h := handles[id];
      DepthAtMostOne(m0, id);
      SoundIsOneLevel(m0);
      if (h.workspace != "" && h.workspace != ws) ||
         (h.parent != "" && handles[h.parent].workspace != "" && handles[h.parent].workspace != ws) {
        return Err(HandleBound), recs, bind;
      }
      if h.typ != typ || h.start != start { return Err(HandleType), recs, bind; }
      recs, bind := Accept(id, ws, now);
      res := Ok(handles[id]);
    }

    /** The family of a handle of nobody's is bound with it. */
    method BindFirst(dev: Id, id: Id, ws: Id) returns (recs: seq<Record>, bind: bool)
      requires Wf(M()) && dev in handles && ws != "" && dev != ""
      modifies this`handles, this`sn
      ensures Wf(M()) && StoreStep(old(M()), M(), recs)
      ensures bind == (old(handles)[dev].workspace == "")
      ensures handles == if bind then BoundFamily(old(handles), dev, id, ws) else old(handles)
      ensures Bindings(old(handles), ws, Family(old(handles), dev) - {id}, recs)
    {
      bind := handles[dev].workspace == "";
      if bind {
        recs := BindFamily(dev, id, ws);
      } else {
        recs := [];
        StartsWf(M());
      }
    }

    method Accept(id: Id, ws: Id, now: nat) returns (recs: seq<Record>, bind: bool)
      requires Wf(M()) && clock <= now && ws != "" && id in handles
      requires Refusal(handles, id, ws, handles[id].typ, handles[id].start).None?
      modifies this`handles, this`sn, this`clock
      ensures Wf(M()) && StoreStep(old(M()), M(), recs)
      ensures KeepsFamilies(old(handles), handles)
      ensures DeviceOf(old(handles), id) in old(handles)
      ensures bind == (old(handles)[DeviceOf(old(handles), id)].workspace == "" || old(handles)[id].workspace == "")
      ensures handles == Pushed(old(handles), id, ws, Unix(now))
      ensures Bindings(old(handles), ws, Family(old(handles), DeviceOf(old(handles), id)), recs)
    {
      hide Wf, StoreStep, KeepsFamilies, OneLevel, BoundFamily, Bindings;
      ghost var m0 := M();
      DeviceIsThere(m0, id);
      clock := now;
      ghost var m1 := M();
      ClockMoved(m0, m1);
      var h := handles[id];
      var dev := if h.parent != "" then h.parent else id;
      recs, bind := BindFirst(dev, id, ws);
      BoundIs(m0.st.handles, dev, id, ws);
      ghost var m2 := M();
      var more;
      more, bind := MarkPushed(id, ws, bind, now);
      StepTransWf(m1, m2, M(), recs, more);
      BindingsAlike(m2.st.handles, m0.st.handles, ws, {id}, {id}, more);
      ghost var rest := Family(m0.st.handles, dev) - {id};
      BindingsJoin(m0.st.handles, ws, rest, {id}, recs, more);
      assert rest + {id} == Family(m0.st.handles, dev);
      recs := recs + more;
      AfterClock(m0, m1, M(), recs);
      PushedKeeps(m0.st.handles, id, ws, Unix(now));
    }

    method MarkPushed(id: Id, ws: Id, binding: bool, now: nat) returns (recs: seq<Record>, bind: bool)
      requires Wf(M()) && clock == now && id in handles && ws != ""
        && (handles[id].workspace == "" || handles[id].workspace == ws)
      modifies this`handles, this`sn
      ensures Wf(M()) && StoreStep(old(M()), M(), recs)
      ensures bind == (binding || old(handles)[id].workspace == "")
      ensures var h, t := old(handles)[id], Unix(now);
        handles == old(handles)[
          id := h.(workspace := ws, used := t, saved := if bind || t - h.saved > USED_EVERY then t else h.saved)]
      ensures Bindings(old(handles), ws, {id}, recs)
    {
      var h := handles[id];
      ghost var m0 := M();
      OwnHandle(m0, id);
      bind := binding;
      if h.workspace == "" {
        h := h.(workspace := ws);
        bind := true;
      }
      h := h.(used := Unix(now));
      if bind || h.used - h.saved > USED_EVERY {
        var r := Change(id, h);
        recs := [r];
      } else {
        handles := handles[id := h];
        recs := [];
        HandleUsed(m0, M(), id, Unix(now));
      }
    }

    // ---- workspaces ----

    method SweepForWorkspace(now: nat) returns (recs: seq<Record>)
      requires Wf(M()) && clock <= now
      modifies this
      ensures Wf(M()) && StoreStep(old(M()), M(), recs) && clock == now && born == old(born) && bornW == old(bornW)
      ensures T() == AfterWorkspaceSweeps(old(T()), lim, now)
      ensures KeepsFamilies(old(handles), handles)
    {
      ghost var m0 := M();
      recs := SweepFirst(now);
      if |workspaces| >= lim.maxWorkspaces {
        ghost var m1 := M();
        var sofar := recs;
        var more := Sweep(now, true);
        StepTransWf(m0, m1, M(), sofar, more);
        recs := sofar + more;
      }
    }

    method BearWorkspace(id: Id, w: Workspace) returns (r: Record)
      requires Wf(M()) && id != "" && id !in bornW && (forall x :: x in bornW ==> bornW[x] != w.keyHash)
      requires w.used == w.saved == 0
      modifies this`workspaces, this`byHash, this`sn, this`bornW
      ensures Wf(M()) && StoreStep(old(M()), M(), [r])
      ensures workspaces == old(workspaces)[id := w] && byHash == old(byHash)[w.keyHash := id]
    {
      ghost var m0 := M();
      bornW := bornW[id := w.keyHash];
      workspaces := workspaces[id := w];
      byHash := byHash[w.keyHash := id];
      r := PutW(id);
      assert workspaces == m0.st.workspaces[id := w];
      WorkspaceBorn(m0, M(), id, w);
    }

    /** Mints a workspace; `draw` and `key` are the random id and key, never drawn before. Only the key's hash is
        kept. */
    method NewWorkspace(now: nat, draw: Id, key: string) returns (res: Result<Id>, recs: seq<Record>)
      requires Wf(M()) && clock <= now && draw != "" && draw !in bornW
        && (forall x :: x in bornW ==> bornW[x] != hashKey(key))
      modifies this
      ensures Wf(M()) && StoreStep(old(M()), M(), recs)
      ensures KeepsFamilies(old(handles), handles)
      ensures var kept := AfterWorkspaceSweeps(old(T()), lim, now);
        && handles == kept.handles && lastSweep == kept.lastSweep
        && (if |kept.workspaces| >= lim.maxWorkspaces then res == Err(Full) && workspaces == kept.workspaces
            else res == Ok(draw) && workspaces == kept.workspaces[draw := Workspace(hashKey(key), Unix(now), 0, 0)])
    {
      ghost var m0 := M();
      recs := SweepForWorkspace(now);
      if |workspaces| >= lim.maxWorkspaces { return Err(Full), recs; }
      ghost var m1 := M();
      var r := BearWorkspace(draw, Workspace(hashKey(key), Unix(now), 0, 0));
      StepTransWf(m0, m1, M(), recs, [r]);
      recs, res := recs + [r], Ok(draw);
    }

    /** Resolves a key to its workspace and marks it used; the timestamp is journalled at most once a day. */
    method WorkspaceFor(key: string, now: nat) returns (res: Result<Id>, recs: seq<Record>)
      requires Wf(M()) && clock <= now
      modifies this`workspaces, this`sn, this`clock
      ensures Wf(M()) && StoreStep(old(M()), M(), recs)
      ensures KeepsFamilies(old(handles), handles)
      ensures res.Ok? <==> key != "" && exists id ::
        id in old(workspaces) && old(workspaces)[id].keyHash == hashKey(key)
      ensures res.Err? ==> res == Err(BadWorkspace) && M() == old(M()) && recs == []
      ensures res.Ok? ==>
        && res.value in old(workspaces) && old(workspaces)[res.value].keyHash == hashKey(key)
        && var w, t := old(workspaces)[res.value], Unix(now);
           workspaces == old(workspaces)[res.value :=
             w.(used := t, saved := if t - w.saved > USED_EVERY then t else w.saved)]
    {
      ghost var m0 := M();
      WfLiveAreBorn(m0);
      StepNone(m0);
      recs := [];
      if key == "" { return Err(BadWorkspace), recs; }
      var h := hashKey(key);
      if h !in byHash || byHash[h] !in workspaces || workspaces[byHash[h]].keyHash != h {
        return Err(BadWorkspace), recs;
      }
      var id := byHash[h];
      clock := now;
      ClockMoved(m0, M());
      ghost var m1 := M();
      recs := MarkUsed(id, now);
      AfterClock(m0, m1, M(), recs);
      res := Ok(id);
    }

    method MarkUsed(id: Id, now: nat) returns (recs: seq<Record>)
      requires Wf(M()) && clock == now && id in workspaces
      modifies this`workspaces, this`sn
      ensures Wf(M()) && StoreStep(old(M()), M(), recs)
      ensures var w, t := old(workspaces)[id], Unix(now);
        workspaces == old(workspaces)[id := w.(used := t, saved := if t - w.saved > USED_EVERY then t else w.saved)]
    {
      ghost var m0 := M();
      assert OwnValue(WKey(id), Lookup(m0.st, WKey(id)).value, m0.clock, m0.born, m0.bornW);
      workspaces := workspaces[id := workspaces[id].(used := Unix(now))];
      if workspaces[id].used - workspaces[id].saved > USED_EVERY {
        var r := PutW(id);
        recs := [r];
        assert workspaces == m0.st.workspaces[id := workspaces[id]];
        WorkspaceChanged(m0, M(), id, workspaces[id]);
      } else {
        recs := [];
        WorkspaceUsed(m0, M(), id, Unix(now));
      }
    }

    // ---- snapshots ----

    /** A copy of the live entries, as of the last record handed out. */
    method Snapshot() returns (c: State)
      ensures c == M().st
    {
      c := State(sn, handles, workspaces);
    }

    /** Called with a snapshot that is on disk: from now on an entry's saved timestamp is at least the one it has
        there. */
    method Written(c: State)
      requires forall k :: Lookup(c, k).Some? && Lookup(M().st, k).Some? ==>
        Lookup(c, k).value.Used() <= Lookup(M().st, k).value.Used()
      requires Wf(M())
      modifies this`handles, this`workspaces
      ensures Wf(M()) && M() == old(M()).(st := NotedSaved(old(M()).st, c))
    {
      ghost var m0 := M();
      NoteHandles(c.handles);
      NoteWorkspaces(c.workspaces);
      hide Wf;
      NotedKeeps(m0, M(), c);
    }

    method NoteHandles(c: map<Id, Handle>)
      modifies this`handles
      ensures handles == NotedHandles(old(handles), c, {})
    {
      var todo := c.Keys;
      while todo != {}
        invariant todo <= c.Keys && handles == NotedHandles(old(handles), c, todo)
      {
        var id :| id in todo;
        todo := todo - {id};
        if id in handles && handles[id].saved < c[id].used {
          handles := handles[id := handles[id].(saved := c[id].used)];
        }
      }
    }

    method NoteWorkspaces(c: map<Id, Workspace>)
      modifies this`workspaces
      ensures workspaces == NotedWorkspaces(old(workspaces), c, {})
    {
      var todo := c.Keys;
      while todo != {}
        invariant todo <= c.Keys && workspaces == NotedWorkspaces(old(workspaces), c, todo)
      {
        var id :| id in todo;
        todo := todo - {id};
        if id in workspaces && workspaces[id].saved < c[id].used {
          workspaces := workspaces[id := workspaces[id].(saved := c[id].used)];
        }
      }
    }
  }
}
