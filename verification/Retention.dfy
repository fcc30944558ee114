/** What the relay's eviction and retention rules amount to. */
module Retention {
  import opened Options
  import opened RelayTypes
  import opened StoreSpec
  import opened Store

  lemma RoomLeft(handles: map<Id, Handle>, pool: set<Id>, room: nat, victims: set<Id>)
    requires room > 0 && LruVictims(handles, pool, room, victims)
    ensures |pool - victims| == if |pool| >= room then room - 1 else |pool|
  {
    assert pool == (pool - victims) + victims;
  }

  /** A device token's handles after one more was created: at most 64, exactly 64 once it was full, and every one
      that went was used no later than every one that stayed. */
  lemma TokenStaysWithinCap(m: Mem, token: string, victims: set<Id>, draw: Id, h: Handle)
    requires Wf(m) && draw !in m.st.handles && h.token == token && h.typ == ""
    requires LruVictims(m.st.handles, TokenPool(m.st.handles, token), MAX_HANDLES_PER_TOKEN, victims)
    ensures var a, after := m.st.handles, (m.st.handles - Forest(m.st.handles, victims))[draw := h];
      var before := set x | x in a && a[x].token == token && a[x].typ == "";
      && |set x | x in after && after[x].token == token && after[x].typ == ""| ==
           (if |before| >= 64 then 64 else |before| + 1)
      && (forall v, x :: v in before && v !in after && x in before && x in after ==>
           Recency(m.st.handles[v]) <= Recency(after[x]))
  {
    hide Wf, Forest, Recency, LruVictims;
    var a := m.st.handles;
    TokenPoolIsFlat(m, token);
    VictimsInPool(a, TokenPool(a, token), MAX_HANDLES_PER_TOKEN, victims);
    RoomLeft(a, TokenPool(a, token), MAX_HANDLES_PER_TOKEN, victims);
    TokenPoolAfter(a, token, victims, draw, h);
    NotInPool(a, token, draw);
    TokenVictimsAreOldest(a, token, victims, draw, h);
  }

  lemma VictimsInPool(handles: map<Id, Handle>, pool: set<Id>, room: nat, victims: set<Id>)
    requires LruVictims(handles, pool, room, victims)
    ensures victims <= pool
  {
  }

  lemma TokenVictimsAreOldest(a: map<Id, Handle>, token: string, victims: set<Id>, draw: Id, h: Handle)
    requires draw !in a && LruVictims(a, TokenPool(a, token), MAX_HANDLES_PER_TOKEN, victims)
    requires forall x :: x in TokenPool(a, token) ==> a[x].parent !in TokenPool(a, token)
    ensures var before, after := TokenPool(a, token), (a - Forest(a, victims))[draw := h];
      forall v, x :: v in before && v !in after && x in before && x in after ==> Recency(a[v]) <= Recency(after[x])
  {
    NotInPool(a, token, draw);
    ForestGoes(a, victims, draw, h);
    PoolKept(a, token, victims, draw, h);
    hide TokenPool, Forest, Recency;
    var before := TokenPool(a, token);
    assert forall v, x :: v in victims && x in before - victims ==> Recency(a[v]) <= Recency(a[x]);
  }

  lemma ForestGoes(handles: map<Id, Handle>, victims: set<Id>, draw: Id, h: Handle)
    requires draw !in handles
    ensures var after := (handles - Forest(handles, victims))[draw := h];
      forall x :: x in handles && x in after ==> x !in victims && after[x] == handles[x]
  {
  }

  lemma NotInPool(handles: map<Id, Handle>, token: string, draw: Id)
    requires draw !in handles
    ensures draw !in TokenPool(handles, token) && forall x :: x in TokenPool(handles, token) ==> x in handles
  {
  }

  lemma PoolKept(handles: map<Id, Handle>, token: string, victims: set<Id>, draw: Id, h: Handle)
    requires draw !in handles && victims <= TokenPool(handles, token)
    requires forall x :: x in TokenPool(handles, token) ==> handles[x].parent !in TokenPool(handles, token)
    ensures forall v :: v in TokenPool(handles, token) && v !in (handles - Forest(handles, victims))[draw := h] ==>
      v in victims
  {
  }

  lemma TokenPoolAfter(handles: map<Id, Handle>, token: string, victims: set<Id>, draw: Id, h: Handle)
    requires draw !in handles && h.token == token && h.typ == "" && victims <= TokenPool(handles, token)
    requires forall x :: x in TokenPool(handles, token) ==> handles[x].parent !in TokenPool(handles, token)
    ensures TokenPool((handles - Forest(handles, victims))[draw := h], token) ==
      (TokenPool(handles, token) - victims) + {draw}
  {
  }

  /** An activity handle created under a device handle: at most 16 afterwards when it was within the cap or over it,
      the oldest went, and no push-to-start handle did. */
  lemma ActivitiesStayWithinCap(m: Mem, parent: Id, victims: set<Id>, draw: Id, h: Handle)
    requires Wf(m) && parent in m.st.handles && m.st.handles[parent].typ == ""
    requires draw !in m.st.handles && h.parent == parent && !h.start
    requires ChildVictims(m.st.handles, parent, false, victims)
    ensures var a, after := m.st.handles, (m.st.handles - Forest(m.st.handles, victims))[draw := h];
      var before := set x | x in a && a[x].parent == parent && !a[x].start;
      && |set x | x in after && after[x].parent == parent && !after[x].start|
           == (if |before| >= 16 then 16 else |before| + 1)
      && (forall v, x :: v in before && v !in after && x in before && x in after ==> Recency(a[v]) <= Recency(after[x]))
      && (forall x :: x in a && a[x].parent == parent && a[x].start ==> x in after)
      && parent in after
  {
    hide Wf, StartPool, Forest, Recency, LruVictims;
    RoomLeft(m.st.handles, ActivityPool(m.st.handles, parent), MAX_CHILDREN, victims);
    VictimsInPool(m.st.handles, ActivityPool(m.st.handles, parent), MAX_CHILDREN, victims);
    ActivitiesAfter(m, parent, victims, draw, h);
    ActivityVictimsAreOldest(m.st.handles, parent, victims, draw, h);
  }

  lemma ActivityVictimsAreOldest(a: map<Id, Handle>, parent: Id, victims: set<Id>, draw: Id, h: Handle)
    requires draw !in a && LruVictims(a, ActivityPool(a, parent), MAX_CHILDREN, victims)
    requires ActivityPool((a - Forest(a, victims))[draw := h], parent) == ActivityPool(a, parent) - victims + {draw}
    ensures var before, after := ActivityPool(a, parent), (a - Forest(a, victims))[draw := h];
      && draw !in before
      && forall v, x :: v in before && v !in after && x in before && x in after ==> Recency(a[v]) <= Recency(after[x])
  {
    var before, after := ActivityPool(a, parent), (a - Forest(a, victims))[draw := h];
    ForestGoes(a, victims, draw, h);
    hide Forest, Recency;
    assert forall v :: v in before - victims ==> v in ActivityPool(after, parent);
  }

  lemma ActivitiesAfter(m: Mem, parent: Id, victims: set<Id>, draw: Id, h: Handle)
    requires Wf(m) && parent in m.st.handles && m.st.handles[parent].typ == ""
    requires draw !in m.st.handles && h.parent == parent && !h.start && victims <= ActivityPool(m.st.handles, parent)
    ensures var before, after := ActivityPool(m.st.handles, parent),
      (m.st.handles - Forest(m.st.handles, victims))[draw := h];
      && ActivityPool(after, parent) == (before - victims) + {draw}
      && (forall x :: x in m.st.handles && m.st.handles[x].parent == parent && m.st.handles[x].start ==> x in after)
      && parent in after
  {
    DepthAtMostOne(m, parent);
    SoundIsOneLevel(m);
  }

  /** Registering a push-to-start token leaves the device handle with exactly one, the new one. */
  lemma OneStartAfterNewStart(m: Mem, parent: Id, victims: set<Id>, draw: Id, h: Handle)
    requires Wf(m) && parent in m.st.handles && draw !in m.st.handles && h.parent == parent && h.start
    requires ChildVictims(m.st.handles, parent, true, victims)
    ensures var after := (m.st.handles - Forest(m.st.handles, victims))[draw := h];
      forall x :: x in after && after[x].parent == parent && after[x].start <==> x == draw
  {
  }

  /** …and so does registering a known token as push-to-start, whatever a crash left there. */
  lemma OneStartAfterReregister(m: Mem, parent: Id, c: Id)
    requires Wf(m) && c in m.st.handles && m.st.handles[c].parent == parent && !m.st.handles[c].start
    ensures var after := Reregistered(m.st.handles, parent, c, true);
      forall x :: x in after && after[x].parent == parent && after[x].start <==> x == c
  {
    SoundIsOneLevel(m);
    if parent == "" { KindsAgree(m); }
  }

  /** A sweep removes exactly the handles stale by the rules and those whose device handle is: nothing hangs in the
      air, and nothing that neither rule names goes. */
  lemma SweepRemovesExactlyTheStale(m: Mem, lim: Limits, now: nat, id: Id)
    requires Wf(m) && id in m.st.handles
    ensures var stale := StaleHandles(m.st.handles, lim, now);
      var left := m.st.handles - Forest(m.st.handles, stale);
      id !in left <==> id in stale || (m.st.handles[id].parent != "" && m.st.handles[id].parent in stale)
    ensures NoOrphan(m.st.handles - Forest(m.st.handles, StaleHandles(m.st.handles, lim, now)))
  {
    SoundIsOneLevel(m);
  }

  /** A length of time, in whole seconds, is over a limit in nanoseconds, which counts in whole seconds rounded toward
      zero. */
  predicate Over(seconds: int, limit: int) {
    if limit >= 0 then seconds * 1_000_000_000 > limit else (seconds - 1) * 1_000_000_000 >= limit
  }

  lemma OverIs(seconds: int, limit: int)
    ensures Over(seconds, limit) <==> seconds > TruncDiv(limit, SECOND)
  {
  }

  /** A sweep does something if the last one was a minute ago, and ten minutes unless the store is full. */
  predicate Due(lastSweep: int, now: nat, full: bool) {
    now - lastSweep >= 60_000_000_000 && (full || now - lastSweep >= 600_000_000_000)
  }

  /** Neither created nor pushed to for as long as that. */
  predicate Unused(h: Handle, idle: int, t: int) { Over(t - h.used, idle) && Over(t - h.created, idle) }

  /** Nobody's, as is its device handle, and older than unboundTTL; or not used for idleTTL, nor, when it is a
      push-to-start handle, its device handle. */
  predicate Abandoned(a: map<Id, Handle>, h: Handle, lim: Limits, t: int)
    requires (h.start ==> h.parent in a) && (h.parent != "" ==> h.parent in a)
  {
    var unowned := h.workspace == "" && (h.parent != "" ==> a[h.parent].workspace == "");
    || (unowned && Over(t - h.created, lim.unboundTTL))
    || (Unused(h, lim.idleTTL, t) && (h.start ==> Unused(a[h.parent], lim.idleTTL, t)))
  }

  lemma FamilyThere(m: Mem, id: Id)
    requires Wf(m) && id in m.st.handles
    ensures var h := m.st.handles[id];
      && (h.parent != "" ==>
           && h.parent in m.st.handles && m.st.handles[h.parent].parent == "" && !m.st.handles[h.parent].start)
      && (h.start ==> h.parent != "")
  {
    SoundIsOneLevel(m);
    OwnHandle(m, id);
    if m.st.handles[id].parent != "" { OwnHandle(m, m.st.handles[id].parent); }
  }

  lemma StaleIs(m: Mem, lim: Limits, now: nat, id: Id, t: int)
    requires Wf(m) && id in m.st.handles && t * 1_000_000_000 <= now < (t + 1) * 1_000_000_000
    ensures var a, h := m.st.handles, m.st.handles[id];
      && (h.start ==> h.parent in a) && (h.parent != "" ==> h.parent in a)
      && (id in StaleHandles(a, lim, now) <==> Abandoned(a, h, lim, t))
  {
    FamilyThere(m, id);
    hide Wf, Over, TruncDiv;
    assert t == Unix(now);
    var a, h := m.st.handles, m.st.handles[id];
    OverIs(t - h.created, lim.unboundTTL);
    OverIs(t - h.created, lim.idleTTL);
    OverIs(t - h.used, lim.idleTTL);
    if h.start {
      OverIs(t - a[h.parent].created, lim.idleTTL);
      OverIs(t - a[h.parent].used, lim.idleTTL);
    }
  }

  /** A registration that finds no room came when a sweep was less than a minute ago, and was that sweep itself if the
      one before was not: so at capacity nothing abandoned is kept for longer. */
  lemma FullIsSwept(tables: Tables, lim: Limits, now: nat)
    ensures var kept := AfterSweeps(tables, lim, now);
      |kept.handles| >= lim.maxHandles ==>
        && now - kept.lastSweep < 60_000_000_000
        && (now - tables.lastSweep >= 60_000_000_000 ==> kept.lastSweep == now)
    ensures var kept := AfterWorkspaceSweeps(tables, lim, now);
      |kept.workspaces| >= lim.maxWorkspaces ==>
        && now - kept.lastSweep < 60_000_000_000
        && (now - tables.lastSweep >= 60_000_000_000 ==> kept.lastSweep == now)
    ensures now - tables.lastSweep >= 600_000_000_000 ==>
      AfterSweeps(tables, lim, now).lastSweep == AfterWorkspaceSweeps(tables, lim, now).lastSweep == now
  {
    hide Forest, StaleHandles, StaleWorkspaces;
  }

  /** What a sweep takes: the abandoned handles, and the Live Activity handles whose device handle is. What stays is as
      it was. */
  lemma SweptHandle(m: Mem, lim: Limits, last: int, now: nat, full: bool, id: Id, t: int)
    requires Wf(m) && id in m.st.handles && t * 1_000_000_000 <= now < (t + 1) * 1_000_000_000
    ensures var a, h := m.st.handles, m.st.handles[id];
      var after := Swept(Tables(a, m.st.workspaces, last), lim, now, full);
      && (h.start ==> h.parent in a)
      && (h.parent != "" ==> h.parent in a && a[h.parent].parent == "" && !a[h.parent].start)
      && (id !in after.handles <==>
           && Due(last, now, full)
           && (Abandoned(a, h, lim, t) || (h.parent != "" && Abandoned(a, a[h.parent], lim, t))))
      && (id in after.handles ==> after.handles[id] == h)
      && after.lastSweep == (if Due(last, now, full) then now else last)
  {
    FamilyThere(m, id);
    StaleIs(m, lim, now, id, t);
    var h := m.st.handles[id];
    if h.parent != "" {
      FamilyThere(m, h.parent);
      StaleIs(m, lim, now, h.parent, t);
    }
    SweepRemovesExactlyTheStale(m, lim, now, id);
    hide StaleHandles, Over, Wf, Forest, Abandoned;
  }

  /** So a handle of an owned family in use stays: created or pushed to within idleTTL, as its device handle was; and a
      push-to-start handle with its device handle, however long ago it was pushed to itself. */
  lemma OwnedAndUsedStays(m: Mem, lim: Limits, last: int, now: nat, full: bool, id: Id, t: int)
    requires Wf(m) && id in m.st.handles && t * 1_000_000_000 <= now < (t + 1) * 1_000_000_000
    requires var a, h := m.st.handles, m.st.handles[id];
      if h.parent == "" then h.workspace != "" && !Unused(h, lim.idleTTL, t)
      else
        && h.parent in a && a[h.parent].workspace != "" && !Unused(a[h.parent], lim.idleTTL, t)
        && (h.start || !Unused(h, lim.idleTTL, t))
    ensures var after := Swept(Tables(m.st.handles, m.st.workspaces, last), lim, now, full).handles;
      id in after && after[id] == m.st.handles[id]
  {
    FamilyThere(m, id);
    if m.st.handles[id].parent != "" { FamilyThere(m, m.st.handles[id].parent); }
    SweptHandle(m, lim, last, now, full, id, t);
    hide Over, Wf, Swept;
  }

  /** And of the workspaces: one never used goes when it is older than unusedWorkspace, one that was used when the last
      time is longer ago than idleWorkspace. */
  lemma SweptWorkspace(m: Mem, lim: Limits, last: int, now: nat, full: bool, id: Id, t: int)
    requires id in m.st.workspaces && t * 1_000_000_000 <= now < (t + 1) * 1_000_000_000
    ensures var w := m.st.workspaces[id];
      var after := Swept(Tables(m.st.handles, m.st.workspaces, last), lim, now, full).workspaces;
      && (id in after ==> after[id] == w)
      && (id !in after <==>
           && Due(last, now, full)
           && (if w.used == 0 then Over(t - w.created, lim.unusedWorkspace) else Over(t - w.used, lim.idleWorkspace)))
  {
    var w := m.st.workspaces[id];
    assert t == Unix(now);
    OverIs(t - w.created, lim.unusedWorkspace);
    OverIs(t - w.used, lim.idleWorkspace);
    hide Over, TruncDiv;
  }

  // ---- the total ----

  lemma FewerHandles(a: map<Id, Handle>, b: map<Id, Handle>)
    requires a.Keys <= b.Keys
    ensures |a| <= |b|
  {
    assert |a| == |a.Keys| && |b| == |b.Keys| && b.Keys == a.Keys + (b.Keys - a.Keys);
  }

  lemma OneMoreHandle(kept: map<Id, Handle>, victims: set<Id>, draw: Id, h: Handle)
    ensures |(kept - Forest(kept, victims))[draw := h]| <= |kept| + 1
  {
    hide Forest;
    var rest := kept - Forest(kept, victims);
    FewerHandles(rest, kept);
    OneMoreKey(rest, draw, h);
  }

  lemma OneMoreKey(handles: map<Id, Handle>, id: Id, h: Handle)
    ensures |handles[id := h]| <= |handles| + 1
  {
    assert handles[id := h].Keys == handles.Keys + {id};
    assert |handles[id := h]| == |handles[id := h].Keys| && |handles| == |handles.Keys|;
  }

  lemma SweptIsFewer(t: Tables, lim: Limits, now: nat)
    ensures |AfterSweeps(t, lim, now).handles| <= |Swept(t, lim, now, false).handles| <= |t.handles|
  {
    var once := Swept(t, lim, now, false);
    FewerHandles(once.handles, t.handles);
    FewerHandles(AfterSweeps(t, lim, now).handles, once.handles);
  }

  /** Neither way of creating a handle takes a store within its limit over it: not for a device token… */
  lemma NewHandleWithinLimit(t: Tables, lim: Limits, now: nat, victims: set<Id>, draw: Id, h: Handle)
    requires |t.handles| <= lim.maxHandles
    ensures var kept := AfterSweeps(t, lim, now).handles;
      && |kept| <= lim.maxHandles
      && (|kept| < lim.maxHandles ==> |(kept - Forest(kept, victims))[draw := h]| <= lim.maxHandles)
  {
    SweptIsFewer(t, lim, now);
    OneMoreHandle(AfterSweeps(t, lim, now).handles, victims, draw, h);
  }

  /** …and not for a Live Activity. */
  lemma NewChildWithinLimit(t: Tables, lim: Limits, parent: Id, token: string, topic: string, env: string, start: bool,
                            now: nat, draw: Id, res: Result<Id>, victims: set<Id>, after: map<Id, Handle>)
    requires |t.handles| <= lim.maxHandles
    requires ChildOutcome(Swept(t, lim, now, false).handles, AfterSweeps(t, lim, now).handles, lim, parent, token,
      topic, env,
                          start, now, draw, res, victims, after)
    ensures |after| <= lim.maxHandles
  {
    var once, kept := Swept(t, lim, now, false).handles, AfterSweeps(t, lim, now).handles;
    SweptIsFewer(t, lim, now);
    if res == Ok(draw) && |kept| < lim.maxHandles && parent in kept {
      OneMoreHandle(kept, victims, draw, ChildHandle(token, topic, env, parent, start, kept[parent].workspace, now));
    }
    if res.Ok? && res.value in once { FewerHandles(Reregistered(once, parent, res.value, start), once); }
  }

  /** A Live Activity token is refused exactly when its device handle is unknown or no device handle of its topic and
      environment; accepted, its handle hangs off that one and has the token and the kind it was registered with, and the
      device handle stays. */
  lemma ChildHangsOffItsParent(m: Mem, last: int, lim: Limits, parent: Id, token: string, topic: string, env: string,
                               start: bool, now: nat, draw: Id, res: Result<Id>, victims: set<Id>,
                               after: map<Id, Handle>)
    requires Wf(m) && draw !in m.st.handles
    requires var t := Tables(m.st.handles, m.st.workspaces, last);
      ChildOutcome(Swept(t, lim, now, false).handles, AfterSweeps(t, lim, now).handles, lim, parent, token, topic, env,
                   start, now, draw, res, victims, after)
    ensures var once := Swept(Tables(m.st.handles, m.st.workspaces, last), lim, now, false).handles;
      var fits := parent in once && once[parent].typ == "" && once[parent].topic == topic && once[parent].env == env;
      && (res == Err(NoHandle) <==> parent !in once)
      && (res == Err(HandleType) <==> parent in once && !fits)
      && (res.Ok? ==>
           && fits && parent in after && after[parent] == once[parent]
           && res.value in after && after[res.value].parent == parent && after[res.value].token == token
           && after[res.value].start == start)
  {
    hide Swept, AfterSweeps, Wf, Reregistered, ChildVictims, Forest, NewTokenOutcome;
    var t := Tables(m.st.handles, m.st.workspaces, last);
    var once, kept := Swept(t, lim, now, false).handles, AfterSweeps(t, lim, now).handles;
    FamilyRoots(m);
    SweptAreSame(t, lim, now);
    if exists c :: c in once && once[c].parent == parent && once[c].token == token {
      if res.Ok? && parent in once && once[parent].typ == "" { ReregisteredHas(once, parent, res.value, start); }
    } else if IsNewToken(once, parent, token, topic, env) {
      NewTokenHas(kept, lim, parent, token, topic, env, start, now, draw, res, victims, after);
    }
  }

  lemma FamilyRoots(m: Mem)
    requires Wf(m)
    ensures "" !in m.st.handles
    ensures forall id :: id in m.st.handles && m.st.handles[id].typ == "" ==> m.st.handles[id].parent == ""
  {
    SoundIsOneLevel(m);
    KindsAgree(m);
  }

  lemma NewTokenHas(kept: map<Id, Handle>, lim: Limits, parent: Id, token: string, topic: string, env: string,
                    start: bool, now: nat, draw: Id, res: Result<Id>, victims: set<Id>, after: map<Id, Handle>)
    requires NewTokenOutcome(kept, lim, parent, token, topic, env, start, now, draw, res, victims, after)
    requires draw !in kept && "" !in kept && (parent in kept ==> kept[parent].parent == "")
    ensures res.Err? ==> res == Err(Full)
    ensures res.Ok? ==>
      && parent in after && parent in kept && after[parent] == kept[parent]
      && res.value in after && after[res.value].parent == parent && after[res.value].token == token
      && after[res.value].start == start
  {
    hide Recency;
  }

  lemma SweptAreSame(t: Tables, lim: Limits, now: nat)
    ensures var once, kept := Swept(t, lim, now, false).handles, AfterSweeps(t, lim, now).handles;
      && (forall id :: id in once ==> id in t.handles && once[id] == t.handles[id])
      && forall id :: id in kept ==> id in once && kept[id] == once[id]
  {
    hide Forest, StaleHandles, StaleWorkspaces;
  }

  lemma ReregisteredHas(a: map<Id, Handle>, parent: Id, c: Id, start: bool)
    requires c in a && parent in a && "" !in a && a[c].parent == parent && a[parent].parent == ""
    ensures var b := Reregistered(a, parent, c, start);
      && c in b && b[c].parent == parent && b[c].token == a[c].token && b[c].start == start
      && parent in b && b[parent] == a[parent]
  {
  }

  // ---- where the caps do not hold ----

  /** Registering a known push-to-start token as an activity's evicts nobody: the device handle then holds one activity
      handle more, so it stays within its cap exactly when it was below it. */
  lemma FlipAddsAnActivity(m: Mem, parent: Id, c: Id)
    requires Wf(m) && c in m.st.handles && m.st.handles[c].parent == parent && m.st.handles[c].start
    ensures var before, after := ActivityPool(m.st.handles, parent),
      ActivityPool(Reregistered(m.st.handles, parent, c, false), parent);
      |after| == |before| + 1 && (|after| <= 16 <==> |before| < 16)
  {
    var h := m.st.handles[c];
    var flipped := m.st.handles[c := h.(start := false, saved := h.used)];
    assert ActivityPool(flipped, parent) == ActivityPool(m.st.handles, parent) + {c};
  }

  /** Repointing a device handle to another token evicts nobody either. */
  lemma RepointAddsToToken(handles: map<Id, Handle>, id: Id, token: string, topic: string, env: string)
    requires id in handles && handles[id].typ == "" && handles[id].token != token
    ensures var h := handles[id];
      var before, after := TokenPool(handles, token),
        TokenPool(handles[id := h.(token := token, topic := topic, env := env, saved := h.used)], token);
      |after| == |before| + 1 && (|after| <= 64 <==> |before| < 64)
  {
    var h := handles[id];
    var moved := handles[id := h.(token := token, topic := topic, env := env, saved := h.used)];
    assert TokenPool(moved, token) == TokenPool(handles, token) + {id};
  }
}
