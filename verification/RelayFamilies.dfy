/** A device handle and its Live Activity handles across a restart: what keeps a family together, and what splits it. */
module RelayFamilies {
  import opened Options
  import opened RelayTypes
  import opened Replay
  import opened StoreSpec
  import opened Journal
  import opened RelaySystem
  import opened RelayTheorems
  import opened RelaySurvival
  import opened RelayPush
  import Store

  // ---- a first start ----

  ghost predicate NothingStored(d: Disk) { Records(d.log) == [] && Snapshot(d).handles.Keys == {} }

  lemma NothingRecovered(d: Disk)
    requires NothingStored(d)
    ensures Recover(d) == Snapshot(d)
  {
    assert Sorted([]) == [];
  }

  lemma StillNothing(s: Sys, s': Sys)
    requires !Up(s) && !Up(s') && Next(s, s') && NothingStored(s.j.disk)
    ensures NothingStored(s'.j.disk)
  {
    hide StoreStep, Wf, Recover;
    if b, k, torn :| Crash(s, s', b, k, torn) {
      var t := if torn then [Torn] else [];
      assert s'.j.disk.log == s.j.disk.log + t;
      RecordsConcat(s.j.disk.log, t);
      NoRecordsTorn(t);
    } else {
      assert FoldLog(s, s');
      NothingRecovered(s.j.disk);
    }
  }

  lemma {:induction false} NothingBeforeFirst(b: seq<Sys>, n: nat)
    requires Run(b) && n < |b| && forall i :: 0 <= i <= n ==> !Up(b[i])
    ensures NothingStored(b[n].j.disk)
  {
    if n > 0 {
      NothingBeforeFirst(b, n - 1);
      RunStep(b, n - 1);
      StillNothing(b[n - 1], b[n]);
    }
  }

  lemma NothingServed(s: Sys, s': Sys)
    requires Inv(s) && !Up(s) && Up(s') && Next(s, s') && NothingStored(s.j.disk)
    ensures s'.m.st.handles.Keys == {}
  {
    FoldedRecovers(s);
    hide Recover, InvDown, Inv;
    var loaded, orphans :| Serve(s, s', loaded, orphans);
    hide Wf, StoreStep, Sound;
    NothingRecovered(s.j.disk);
    assert s'.m.st.handles.Keys <= loaded.st.handles.Keys;
    LoadedAlike(s.phase.st);
  }

  /** The first time the relay serves there is no family, so all are together. */
  lemma FirstStartHasNoFamilies(b: seq<Sys>, j: nat)
    requires Run(b) && j < |b| && Up(b[j]) && forall i :: 0 <= i < j ==> !Up(b[i])
    ensures b[j].m.st.handles.Keys == {}
    ensures forall dev :: Together(b[j].m.st.handles, dev) && OneStart(b[j].m.st.handles, dev)
  {
    hide Inv, Next, Run, Together, OneStart;
    NothingAtFirst(b);
    NothingBeforeFirst(b, j - 1);
    RunStep(b, j - 1);
    RunInvariant(b, j - 1);
    NothingServed(b[j - 1], b[j]);
    NoFamilies(b[j].m.st.handles);
  }

  lemma NoFamilies(handles: map<Id, Handle>)
    requires handles.Keys == {}
    ensures forall dev :: Together(handles, dev) && OneStart(handles, dev)
  {
  }

  lemma NothingAtFirst(b: seq<Sys>)
    requires Run(b)
    ensures !Up(b[0])
  {
    hide Next;
  }

  // ---- a family across a crash ----

  /** The same handles in the same families, with the same owners. */
  predicate Alike(a: map<Id, Handle>, b: map<Id, Handle>) {
    && a.Keys == b.Keys
    && forall x :: x in a ==>
         b[x].parent == a[x].parent && b[x].start == a[x].start && b[x].workspace == a[x].workspace
  }

  lemma LoadedAlike(st: State)
    ensures Alike(st.handles, Store.Loaded(st).handles)
  {
  }

  /** The key of the device handle or of one born under it. */
  predicate OfFamily(m: Mem, dev: Id, k: Key) {
    k.HKey? && (k.id == dev || (k.id in m.born && m.born[k.id] == dev))
  }

  /** No record of the family is in flight, and none failed to be written; of others there may be any. */
  ghost predicate Settled(s: Sys, dev: Id) { forall r :: r in Flying(s) ==> !OfFamily(s.m, dev, r.Key()) }

  /** The same handles in the family, with the same owners. */
  predicate FamilyAlike(a: map<Id, Handle>, b: map<Id, Handle>, dev: Id) {
    forall x :: x in Store.Family(a, dev) + Store.Family(b, dev) ==>
      && x in a && x in b
      && b[x].parent == a[x].parent && b[x].start == a[x].start && b[x].workspace == a[x].workspace
  }

  lemma AlikeTogether(a: map<Id, Handle>, b: map<Id, Handle>, dev: Id)
    requires FamilyAlike(a, b, dev)
    ensures Together(a, dev) <==> Together(b, dev)
    ensures OneStart(a, dev) <==> OneStart(b, dev)
  {
    assert forall x :: x in Store.Family(a, dev) <==> x in Store.Family(b, dev);
    assert StartPool(a, dev) == StartPool(b, dev);
  }

  /** A key none of whose records is on its way: whatever else reached the log, an open recovers memory's value for
      it. */
  lemma QuietKey(s: Sys, d: Disk, k: Key)
    requires InvUp(s) && d.snap == s.j.disk.snap && OnLog(s.j.disk) <= OnLog(d) && UniqueSeqs(OnLog(d))
    requires forall r :: r in OnLog(d) && r.Key() == k ==> r in OnLog(s.j.disk)
    requires forall r :: r in Flying(s) ==> r.Key() != k
    ensures Reflects(Lookup(Recover(d), k), Lookup(s.m.st, k))
  {
    RecoverIsLastWriterWins(d, k);
    hide Recover, Flying, OnLog, Denote, Wf;
    DenoteSame(d.snap.value, OnLog(d), s.issued, k);
    assert CoversKey(d.snap.value, s.issued, s.m, k);
  }

  lemma CrashLog(s: Sys, s': Sys, b: seq<Record>, k: nat, torn: bool)
    requires InvUp(s) && Up(s) && Crash(s, s', b, k, torn)
    ensures OnLog(s'.j.disk) == OnLog(s.j.disk) + Elems(Written(b, k)) && Elems(Written(b, k)) <= Flying(s)
    ensures UniqueSeqs(OnLog(s'.j.disk))
  {
    if b != [] { BatchRecords(s, b); }
    LogGrows(s.j.disk, Written(b, k), if torn then [Torn] else []);
    assert forall r :: r in Elems(Written(b, k)) ==> r in b && b in s.flying;
  }

  /** Any crash, at any point of any append: a family of which nothing is on its way is recovered as memory had it. */
  lemma CrashKeepsFamily(s: Sys, s': Sys, b: seq<Record>, k: nat, torn: bool, dev: Id)
    requires InvUp(s) && Up(s) && Crash(s, s', b, k, torn) && Settled(s, dev)
    ensures FamilyAlike(s.m.st.handles, Recover(s'.j.disk).handles, dev)
  {
    CrashLog(s, s', b, k, torn);
    CrashKeeps(s, s', b, k, torn);
    RecoveredValues(s');
    UpValues(s);
    hide InvUp, Recover, OnLog, Flying, Reflects, OwnValue, Store.Family;
    var a, c := s.m.st.handles, Recover(s'.j.disk).handles;
    forall x | x in Store.Family(a, dev) + Store.Family(c, dev)
      ensures x in a && x in c && c[x].parent == a[x].parent && c[x].start == a[x].start
        && c[x].workspace == a[x].workspace
    {
      OwnParent(s.m, if x in Store.Family(a, dev) then s.m.st else Recover(s'.j.disk), x, dev);
      QuietKey(s, s'.j.disk, HKey(x));
      KeyAlike(Recover(s'.j.disk), s.m.st, x);
    }
  }

  lemma UpValues(s: Sys)
    requires InvUp(s)
    ensures OwnValues(s.m.st, s.m.clock, s.m.born, s.m.bornW) && NoOrphan(s.m.st.handles) && OneLevel(s.m.st.handles)
    ensures "" !in s.m.st.handles
  {
    SoundIsOneLevel(s.m);
  }

  lemma OwnParent(m: Mem, st: State, x: Id, dev: Id)
    requires OwnValues(st, m.clock, m.born, m.bornW) && x in Store.Family(st.handles, dev)
    ensures OfFamily(m, dev, HKey(x))
  {
    assert OwnValue(HKey(x), Lookup(st, HKey(x)).value, m.clock, m.born, m.bornW);
  }

  lemma KeyAlike(a: State, b: State, x: Id)
    requires Reflects(Lookup(a, HKey(x)), Lookup(b, HKey(x))) && (x in a.handles || x in b.handles)
    ensures x in a.handles && x in b.handles
    ensures a.handles[x].parent == b.handles[x].parent && a.handles[x].start == b.handles[x].start
      && a.handles[x].workspace == b.handles[x].workspace
  {
    var v, w := HEntry(a.handles[x]).Core().h, HEntry(b.handles[x]).Core().h;
    assert v == w && v.parent == a.handles[x].parent && w.parent == b.handles[x].parent;
    assert v.start == a.handles[x].start && w.start == b.handles[x].start;
    assert v.workspace == a.handles[x].workspace && w.workspace == b.handles[x].workspace;
  }

  // ---- and the following starts ----

  lemma CrashRecovers(s: Sys, s': Sys, b: seq<Record>, k: nat, torn: bool)
    requires Crash(s, s', b, k, torn) && b == []
    ensures Recover(s'.j.disk) == Recover(s.j.disk)
  {
    assert Written(b, k) == [];
    TornTail(s.j.disk, if torn then [Torn] else []);
  }

  lemma DownStep(s: Sys, s': Sys)
    requires Inv(s) && !Up(s) && !Up(s') && Next(s, s')
    ensures Recover(s'.j.disk) == Recover(s.j.disk)
  {
    if b, k, torn :| Crash(s, s', b, k, torn) {
      CrashRecovers(s, s', b, k, torn);
    } else {
      assert FoldLog(s, s');
      OpenIsIdempotent(s.j.disk);
    }
  }

  lemma {:induction false} DownKeeps(b: seq<Sys>, i: nat, n: nat)
    requires Run(b) && i <= n < |b| && forall x :: i <= x <= n ==> !Up(b[x])
    ensures Recover(b[n].j.disk) == Recover(b[i].j.disk)
  {
    hide Recover, Inv, Run, Next;
    if i < n {
      DownKeeps(b, i, n - 1);
      RunStep(b, n - 1);
      RunInvariant(b, n - 1);
      DownStep(b[n - 1], b[n]);
    }
  }

  lemma OnlyServing(s: Sys, s': Sys)
    requires !Up(s) && Up(s') && Next(s, s')
    ensures exists loaded, orphans :: Serve(s, s', loaded, orphans)
  {
    hide Serve, Wf, StoreStep, Sound;
  }

  /** What becomes of a family when the relay starts: it is served as recovered, unless its device handle is itself the
      orphan of another one's; then it had nothing under it, and is gone. */
  lemma ServesFamily(s: Sys, s': Sys, a: map<Id, Handle>, dev: Id)
    requires Inv(s) && !Up(s) && Up(s') && Next(s, s') && FamilyAlike(a, Recover(s.j.disk).handles, dev)
    requires NoOrphan(a) && OneLevel(a) && "" !in a
    ensures (dev in a ==> a[dev].parent == "") ==> FamilyAlike(a, s'.m.st.handles, dev)
    ensures Together(a, dev) ==> Together(s'.m.st.handles, dev)
    ensures OneStart(a, dev) ==> OneStart(s'.m.st.handles, dev)
  {
    FoldedRecovers(s);
    hide Recover, InvDown, Inv, FamilyAlike, Wf, StoreStep, Sound, Next, Together, OneStart;
    OnlyServing(s, s');
    var loaded, orphans :| Serve(s, s', loaded, orphans);
    LoadedAlike(s.phase.st);
    WithoutOrphans(a, s.phase.st.handles, loaded.st.handles, dev);
  }

  lemma WithoutOrphans(a: map<Id, Handle>, c: map<Id, Handle>, d: map<Id, Handle>, dev: Id)
    requires FamilyAlike(a, c, dev) && Alike(c, d) && NoOrphan(a) && OneLevel(a) && "" !in a
    ensures var e := d - Store.Orphans(d);
      && ((dev in a ==> a[dev].parent == "") ==> FamilyAlike(a, e, dev))
      && (Together(a, dev) ==> Together(e, dev)) && (OneStart(a, dev) ==> OneStart(e, dev))
  {
    var e := d - Store.Orphans(d);
    if dev in a ==> a[dev].parent == "" {
      assert FamilyAlike(a, e, dev);
      AlikeTogether(a, e, dev);
    } else {
      assert forall x :: x in e ==> e[x].parent != dev;
      assert StartPool(e, dev) == {};
    }
  }

  /** Whatever else is in flight, whatever crash comes, and however often the start after it is interrupted: a family of
      which nothing was on its way is served as it was. If it was together it still is; so is a device handle with one
      push-to-start handle. */
  lemma RestartKeepsFamily(b: seq<Sys>, i: nat, j: nat, dev: Id)
    requires Run(b) && i + 1 < j < |b| && Up(b[i]) && Up(b[j]) && forall x :: i < x < j ==> !Up(b[x])
    requires Settled(b[i], dev)
    ensures var a, c := b[i].m.st.handles, b[j].m.st.handles;
      && ((dev in a ==> a[dev].parent == "") ==> FamilyAlike(a, c, dev))
      && (Together(a, dev) ==> Together(c, dev)) && (OneStart(a, dev) ==> OneStart(c, dev))
  {
    hide Recover, Run, Next, Inv, InvUp, FamilyAlike, Together, OneStart, Settled;
    RunInvariant(b, i);
    UpHolds(b[i]);
    UpValues(b[i]);
    RunStep(b, i);
    StopKeepsFamily(b[i], b[i + 1], dev);
    DownKeeps(b, i + 1, j - 1);
    RunStep(b, j - 1);
    RunInvariant(b, j - 1);
    ServesFamily(b[j - 1], b[j], b[i].m.st.handles, dev);
  }

  lemma UpHolds(s: Sys)
    requires Inv(s) && Up(s)
    ensures InvUp(s)
  {
  }

  lemma StopKeepsFamily(s: Sys, s': Sys, dev: Id)
    requires InvUp(s) && Up(s) && !Up(s') && Next(s, s') && Settled(s, dev)
    ensures FamilyAlike(s.m.st.handles, Recover(s'.j.disk).handles, dev)
  {
    hide InvUp, Recover, FamilyAlike, Settled, Wf, StoreStep;
    var b, k, torn :| Crash(s, s', b, k, torn);
    CrashKeepsFamily(s, s', b, k, torn, dev);
  }

  /** Nothing is in flight and nothing failed. */
  predicate AtRest(s: Sys) { Up(s) && s.flying == s.failed == {} }

  lemma RestIsSettled(s: Sys, dev: Id)
    requires AtRest(s)
    ensures Settled(s, dev)
  {
  }

  /** So after a close, or a crash with nothing on its way at all, every handle comes back in its family with its
      owner. */
  lemma RestartKeepsFamilies(b: seq<Sys>, i: nat, j: nat)
    requires Run(b) && i + 1 < j < |b| && AtRest(b[i]) && Up(b[j]) && forall x :: i < x < j ==> !Up(b[x])
    ensures Alike(b[i].m.st.handles, b[j].m.st.handles)
    ensures KeepsFamilies(b[i].m.st.handles, b[j].m.st.handles)
  {
    hide Run, FamilyAlike, Together, OneStart, Settled, Wf, Alike;
    var a, c := b[i].m.st.handles, b[j].m.st.handles;
    forall dev
      ensures (dev in a ==> a[dev].parent == "") ==> FamilyAlike(a, c, dev)
      ensures (Together(a, dev) ==> Together(c, dev)) && (OneStart(a, dev) ==> OneStart(c, dev))
    {
      RestIsSettled(b[i], dev);
      RestartKeepsFamily(b, i, j, dev);
    }
    AlwaysWellFormed(b, i);
    AlwaysWellFormed(b, j);
    EachFamilyAlike(b[i].m, b[j].m);
  }

  lemma EachFamilyAlike(m: Mem, m': Mem)
    requires Wf(m) && Wf(m')
    requires var a, c := m.st.handles, m'.st.handles;
      forall dev :: (dev in a ==> a[dev].parent == "") ==> FamilyAlike(a, c, dev)
    ensures Alike(m.st.handles, m'.st.handles)
  {
    SoundIsOneLevel(m);
    SoundIsOneLevel(m');
    NoOrphans(m);
    NoOrphans(m');
    hide Wf, Sound, NoOrphan, OneLevel, Store.Family, Store.DeviceOf, FamilyAlike;
    var a, c := m.st.handles, m'.st.handles;
    forall x | x in a
      ensures x in c && c[x].parent == a[x].parent && c[x].start == a[x].start && c[x].workspace == a[x].workspace
    {
      InOwnFamily(a, x);
      assert FamilyAlike(a, c, Store.DeviceOf(a, x));
    }
    forall x | x in c ensures x in a {
      InOwnFamily(c, x);
      var dev := Store.DeviceOf(c, x);
      assert dev in a ==> a[dev].parent == c[dev].parent;
      assert FamilyAlike(a, c, dev);
    }
  }

  lemma InOwnFamily(a: map<Id, Handle>, x: Id)
    requires x in a && NoOrphan(a) && OneLevel(a) && "" !in a
    ensures var dev := Store.DeviceOf(a, x); dev in a && a[dev].parent == "" && x in Store.Family(a, dev)
  {
  }

  lemma NoOrphans(m: Mem)
    requires Wf(m)
    ensures NoOrphan(m.st.handles)
  {
  }

  // ---- the first push to a family, and a crash in its append ----

  /** A device handle that nobody owns, and nobody owns anything under it. */
  predicate Unowned(handles: map<Id, Handle>, dev: Id) {
    && dev != "" && dev in handles && handles[dev].parent == ""
    && forall x :: x in Store.Family(handles, dev) ==> handles[x].workspace == ""
  }

  /** The handles among these records. */
  function Bound(recs: seq<Record>): set<Id> { set r | r in recs :: r.id }

  /** A push to one of the family's handles is accepted, and the relay dies while its batch is written. */
  ghost predicate PushDies(s: Sys, s1: Sys, s2: Sys, dev: Id, ws: Id) {
    exists id, t, recs, bind, k, torn ::
      && id in Store.Family(s.m.st.handles, dev) && Accepted(s, s1, id, ws, t, recs, bind)
      && Crash(s1, s2, recs, k, torn)
  }

  /** What the push's batch is about: the family's handles, each of them once. */
  lemma PushBindsAll(s: Sys, s1: Sys, dev: Id, id: Id, ws: Id, t: int, recs: seq<Record>, bind: bool)
    requires InvUp(s) && Unowned(s.m.st.handles, dev) && id in Store.Family(s.m.st.handles, dev)
    requires Accepted(s, s1, id, ws, t, recs, bind)
    ensures Store.Bindings(s.m.st.handles, ws, Store.Family(s.m.st.handles, dev), recs)
    ensures Bound(recs) == Store.Family(s.m.st.handles, dev)
  {
    UpValues(s);
    var a := s.m.st.handles;
    assert Store.DeviceOf(a, id) == dev;
    Store.PushedOwners(a, id, ws, t);
    hide Wf, StoreStep, KeepsFamilies, Store.Pushed, InvUp;
    forall x | x in Store.Family(a, dev) ensures x in Bound(recs) {
      RestFacts(s);
      var r := NewOwnerJournalled(s, s1, id, ws, t, recs, bind, x);
    }
  }

  lemma RestFacts(s: Sys)
    requires InvUp(s) && Up(s)
    ensures Inv(s) && Wf(s.m)
  {
  }

  lemma {:induction false} OneRecordEach(handles: map<Id, Handle>, ws: Id, among: set<Id>, recs: seq<Record>)
    requires Store.Bindings(handles, ws, among, recs)
    ensures |Bound(recs)| == |recs|
  {
    if recs != [] {
      var n := |recs| - 1;
      OneRecordEach(handles, ws, among, recs[..n]);
      BoundFront(recs);
      assert recs[n].id !in Bound(recs[..n]);
    }
  }

  lemma BoundFront(recs: seq<Record>)
    requires recs != []
    ensures Bound(recs) == Bound(recs[..|recs| - 1]) + {recs[|recs| - 1].id}
  {
    var n := |recs| - 1;
    assert recs == recs[..n] + [recs[n]];
    forall x | x in Bound(recs[..n]) ensures x in Bound(recs) {
      var r :| r in recs[..n] && r.id == x;
      assert r in recs;
    }
  }

  /** The log after such a crash: the batch's written part comes after all that was there. */
  lemma PushLog(s: Sys, s1: Sys, s2: Sys, recs: seq<Record>, k: nat, torn: bool)
    requires InvUp(s) && Operate(s, s1, recs) && Crash(s1, s2, recs, k, torn)
    ensures s2.j.disk.snap == s.j.disk.snap && OnLog(s2.j.disk) == OnLog(s.j.disk) + Elems(Written(recs, k))
    ensures UniqueSeqs(OnLog(s2.j.disk)) && Elems(Written(recs, k)) <= Elems(recs)
    ensures forall r :: r in recs ==> r.sn > s.j.disk.snap.value.sn
    ensures forall r, x :: r in recs && x in OnLog(s.j.disk) ==> x.sn < r.sn
  {
    OperateKeeps(s, s1, recs);
    CrashLog(s1, s2, recs, k, torn);
    NewNumbers(s.m, s1.m, recs);
    hide Wf, Covers, Includes, StoreStep, Recover, Operation;
    forall r | r in recs
      ensures r.sn > s.j.disk.snap.value.sn && forall x :: x in OnLog(s.j.disk) ==> x.sn < r.sn
    {
      assert r in Elems(recs);
      OldRecords(s, r);
    }
  }

  lemma OldRecords(s: Sys, r: Record)
    requires InvUp(s) && r.sn > s.m.st.sn
    ensures r.sn > s.j.disk.snap.value.sn && forall x :: x in OnLog(s.j.disk) ==> x.sn < r.sn
  {
    forall x | x in OnLog(s.j.disk) ensures x.sn < r.sn { HistoryKeeps(s.m, s.issued, x); }
  }

  /** A handle whose new owner reached the log is recovered with it. */
  lemma WrittenOwner(s: Sys, s1: Sys, s2: Sys, ws: Id, among: set<Id>, recs: seq<Record>, k: nat, torn: bool, x: Id)
    requires InvUp(s) && Operate(s, s1, recs) && Crash(s1, s2, recs, k, torn)
    requires Store.Bindings(s.m.st.handles, ws, among, recs) && x in Bound(Written(recs, k))
    ensures var c := Recover(s2.j.disk).handles;
      x in s.m.st.handles && x in c && c[x].workspace == ws && c[x].parent == s.m.st.handles[x].parent
  {
    PushLog(s, s1, s2, recs, k, torn);
    hide InvUp, Operate, Crash, Recover, OnLog, Denote, Latest;
    var r :| r in Written(recs, k) && r.id == x;
    assert r in Elems(Written(recs, k)) && r in Elems(recs);
    OnlyOne(s.m.st.handles, ws, among, recs, r);
    hide Store.Bindings, Bound, Written;
    var d := s2.j.disk;
    NewestOnLog(OnLog(s.j.disk), Elems(Written(recs, k)), Snapshot(d).sn, r);
    RecoverIsLastWriterWins(d, HKey(x));
    DenoteIs(Snapshot(d), OnLog(d), HKey(x), r);
  }

  lemma OnlyOne(handles: map<Id, Handle>, ws: Id, among: set<Id>, recs: seq<Record>, r: Record)
    requires Store.Bindings(handles, ws, among, recs) && r in recs
    ensures Store.Binding(handles, ws, r) && r.Key() == HKey(r.id) && r.Value() == Some(HEntry(r.hv.value))
    ensures forall x :: x in recs && x.Key() == r.Key() ==> x == r
  {
    var i :| 0 <= i < |recs| && recs[i] == r;
    forall x | x in recs && x.Key() == r.Key() ensures x == r {
      var j :| 0 <= j < |recs| && recs[j] == x;
      assert Store.Binding(handles, ws, recs[j]);
    }
  }

  lemma NewestOnLog(before: set<Record>, more: set<Record>, from: nat, r: Record)
    requires r in more && r.sn > from && (forall x :: x in before ==> x.sn < r.sn)
    requires forall x :: x in more && x.Key() == r.Key() ==> x == r
    ensures Latest(before + more, from, r.Key(), r)
  {
  }

  /** A handle of the family whose new owner did not is recovered as it was before the push. */
  lemma UnwrittenOwner(s: Sys, s1: Sys, s2: Sys, dev: Id, ws: Id, recs: seq<Record>, k: nat, torn: bool, x: Id)
    requires InvUp(s) && Settled(s, dev) && Operate(s, s1, recs) && Crash(s1, s2, recs, k, torn)
    requires Store.Bindings(s.m.st.handles, ws, Store.Family(s.m.st.handles, dev), recs)
    requires x !in Bound(Written(recs, k)) && (x in s.m.born ==> OfFamily(s.m, dev, HKey(x)))
    ensures Reflects(Lookup(Recover(s2.j.disk), HKey(x)), Lookup(s.m.st, HKey(x)))
  {
    PushLog(s, s1, s2, recs, k, torn);
    NotOnItsWay(s, dev, x);
    hide InvUp, Operate, Crash, Recover, OnLog, Settled, Reflects;
    NotAmong(Written(recs, k), x);
    QuietKey(s, s2.j.disk, HKey(x));
  }

  lemma NotAmong(recs: seq<Record>, x: Id)
    requires x !in Bound(recs)
    ensures forall r :: r in Elems(recs) ==> r.Key() != HKey(x)
  {
    assert forall r :: r in recs ==> r.id in Bound(recs);
  }

  lemma NotOnItsWay(s: Sys, dev: Id, x: Id)
    requires InvUp(s) && Settled(s, dev) && (x in s.m.born ==> OfFamily(s.m, dev, HKey(x)))
    ensures forall r :: r in Flying(s) ==> r.Key() != HKey(x)
  {
    forall r | r in Flying(s) ensures r.Key() != HKey(x) { HistoryKeeps(s.m, s.issued, r); }
  }

  /** The recovered family: those whose record was written are the pusher's, the others nobody's. */
  lemma FamilyAfterPush(s: Sys, s1: Sys, s2: Sys, dev: Id, ws: Id, recs: seq<Record>, k: nat, torn: bool)
    requires InvUp(s) && Settled(s, dev) && Unowned(s.m.st.handles, dev)
    requires Operate(s, s1, recs) && Crash(s1, s2, recs, k, torn)
    requires Store.Bindings(s.m.st.handles, ws, Store.Family(s.m.st.handles, dev), recs)
    ensures var a, c := s.m.st.handles, Recover(s2.j.disk).handles;
      && Store.Family(c, dev) == Store.Family(a, dev)
      && forall x :: x in Store.Family(a, dev) ==>
           c[x].parent == a[x].parent && c[x].workspace == if x in Bound(Written(recs, k)) then ws else ""
  {
    UpValues(s);
    RecoveredParents(s, s1, s2, recs, k, torn);
    hide InvUp, Operate, Crash, Recover, Settled, Reflects, Store.Bindings, Bound, Written;
    var a, c := s.m.st.handles, Recover(s2.j.disk).handles;
    var among := Store.Family(a, dev);
    forall x | x in among
      ensures x in c && c[x].parent == a[x].parent
      ensures c[x].workspace == if x in Bound(Written(recs, k)) then ws else ""
    {
      OwnParent(s.m, s.m.st, x, dev);
      if x in Bound(Written(recs, k)) {
        WrittenOwner(s, s1, s2, ws, among, recs, k, torn, x);
      } else {
        UnwrittenOwner(s, s1, s2, dev, ws, recs, k, torn, x);
        KeyAlike(Recover(s2.j.disk), s.m.st, x);
      }
    }
    forall x | x in c && c[x].parent == dev ensures x in among {
      if x in Bound(Written(recs, k)) {
        WrittenOwner(s, s1, s2, ws, among, recs, k, torn, x);
      } else {
        UnwrittenOwner(s, s1, s2, dev, ws, recs, k, torn, x);
        KeyAlike(Recover(s2.j.disk), s.m.st, x);
      }
    }
  }

  lemma RecoveredParents(s: Sys, s1: Sys, s2: Sys, recs: seq<Record>, k: nat, torn: bool)
    requires InvUp(s) && Operate(s, s1, recs) && Crash(s1, s2, recs, k, torn)
    ensures var c := Recover(s2.j.disk).handles;
      forall x :: x in c && x in s.m.born ==> c[x].parent == s.m.born[x]
  {
    OperateKeeps(s, s1, recs);
    CrashKeeps(s1, s2, recs, k, torn);
    RecoveredValues(s2);
    hide InvUp, InvDown, Recover;
    var st := Recover(s2.j.disk);
    forall x | x in st.handles && x in s.m.born ensures st.handles[x].parent == s.m.born[x] {
      assert OwnValue(HKey(x), Lookup(st, HKey(x)).value, s2.m.clock, s2.m.born, s2.m.bornW);
    }
  }

  /** A push to a family nobody owns, of which nothing was on its way, and a crash in its append: the family is
      recovered together exactly when none or all of the batch was written; and the batch has one record for each
      handle. */
  lemma TornPushSplits(s: Sys, s1: Sys, s2: Sys, dev: Id, id: Id, ws: Id, t: int, recs: seq<Record>, bind: bool,
                       k: nat, torn: bool)
    requires InvUp(s) && Settled(s, dev) && Unowned(s.m.st.handles, dev) && id in Store.Family(s.m.st.handles, dev)
    requires Accepted(s, s1, id, ws, t, recs, bind) && Crash(s1, s2, recs, k, torn)
    ensures |recs| == |Store.Family(s.m.st.handles, dev)|
    ensures Together(Recover(s2.j.disk).handles, dev) <==> k == 0 || k >= |recs|
  {
    PushBindsAll(s, s1, dev, id, ws, t, recs, bind);
    OneRecordEach(s.m.st.handles, ws, Store.Family(s.m.st.handles, dev), recs);
    AcceptedOperates(s, s1, id, ws, t, recs, bind);
    hide InvUp, Recover, Settled, Crash, Operate, Accepted, Store.Bindings, Bound, Written, Together;
    FamilyAfterPush(s, s1, s2, dev, ws, recs, k, torn);
    PartOfBatch(s.m.st.handles, ws, Store.Family(s.m.st.handles, dev), recs, k);
    Divided(Recover(s2.j.disk).handles, dev, ws, Bound(Written(recs, k)));
  }

  lemma AcceptedOperates(s: Sys, s1: Sys, id: Id, ws: Id, t: int, recs: seq<Record>, bind: bool)
    requires Accepted(s, s1, id, ws, t, recs, bind)
    ensures Operate(s, s1, recs) && ws != ""
  {
  }

  /** A family part of which is one owner's and the rest nobody's is together when one part is empty. */
  lemma Divided(c: map<Id, Handle>, dev: Id, ws: Id, bound: set<Id>)
    requires ws != "" && dev in c && c[dev].parent == "" != dev
    requires forall x :: x in Store.Family(c, dev) ==> c[x].workspace == if x in bound then ws else ""
    ensures Together(c, dev) <==> bound !! Store.Family(c, dev) || Store.Family(c, dev) <= bound
  {
    assert dev in Store.Family(c, dev);
    assert forall x :: x in c && c[x].parent == dev ==> x in Store.Family(c, dev);
    if !(bound !! Store.Family(c, dev) || Store.Family(c, dev) <= bound) {
      var x :| x in bound && x in Store.Family(c, dev);
      var y :| y in Store.Family(c, dev) && y !in bound;
      assert c[x].workspace != c[y].workspace;
    }
  }

  lemma PartOfBatch(handles: map<Id, Handle>, ws: Id, among: set<Id>, recs: seq<Record>, k: nat)
    requires Store.Bindings(handles, ws, among, recs) && Bound(recs) == among && recs != []
    ensures k == 0 <==> Bound(Written(recs, k)) !! among
    ensures k >= |recs| <==> among <= Bound(Written(recs, k))
  {
    var w := Written(recs, k);
    if k > 0 { assert recs[0] in w && recs[0].id in Bound(w); }
    assert recs[0] in recs && recs[0].id in Bound(recs);
    if k < |recs| {
      assert recs[k] in recs && recs[k].id in Bound(recs);
      forall r | r in w ensures r.id != recs[k].id {
        var i :| 0 <= i < k && recs[i] == r;
      }
    }
  }

  // ---- it can happen ----

  /** Handles of a set bound one after another. */
  lemma BindAll(m: Mem, ws: Id, todo: set<Id>) returns (m': Mem, recs: seq<Record>)
    requires Wf(m) && todo <= m.st.handles.Keys && forall x :: x in todo ==> m.st.handles[x].workspace == ""
    ensures Wf(m') && StoreStep(m, m', recs) && Store.Bindings(m.st.handles, ws, todo, recs)
    ensures m'.st.handles == BoundTo(m.st.handles, ws, todo) && m'.clock == m.clock
  {
    WellFormedStays(m);
    if todo == {} {
      m', recs := m, [];
    } else {
      hide Wf, StoreStep, Evolves, Store.Bindings, BoundTo, LiveAreBorn;
      var c :| c in todo;
      BoundMore(m.st.handles, ws, todo, c);
      var m1, before := BindAll(m, ws, todo - {c});
      WellFormedIsSound(m);
      Store.OwnHandle(m, c);
      var h := m.st.handles[c].(workspace := ws, saved := m.st.handles[c].used);
      m' := m1.(st := State(m1.st.sn + 1, m1.st.handles[c := h], m1.st.workspaces));
      NewOwnerEvolves(m.st.handles[c], ws);
      HandleChanged(m, m1, m', before, c, h);
      var r := HandleRec(m'.st.sn, c, Some(h));
      recs := before + [r];
      OneBinding(m.st.handles, ws, c, r);
      Store.BindingsJoin(m.st.handles, ws, todo - {c}, {c}, before, [r]);
      assert todo - {c} + {c} == todo;
    }
  }

  function BoundTo(handles: map<Id, Handle>, ws: Id, among: set<Id>): map<Id, Handle> {
    map x | x in handles ::
      if x in among then handles[x].(workspace := ws, saved := handles[x].used) else handles[x]
  }

  lemma BoundMore(handles: map<Id, Handle>, ws: Id, todo: set<Id>, c: Id)
    requires c in todo && c in handles
    ensures var before := BoundTo(handles, ws, todo - {c});
      && c in before && before[c] == handles[c]
      && BoundTo(handles, ws, todo) == before[c := handles[c].(workspace := ws, saved := handles[c].used)]
  {
  }

  lemma NewOwnerEvolves(h: Handle, ws: Id)
    requires h.workspace == ""
    ensures forall s, u :: u >= h.used ==> Evolves(HEntry(h), HEntry(h.(workspace := ws, used := u, saved := s)))
  {
  }

  lemma OneBinding(handles: map<Id, Handle>, ws: Id, x: Id, r: Record)
    requires x in handles && r.HandleRec? && r.id == x && r.hv.Some?
    requires r.hv.value.workspace == ws && r.hv.value.parent == handles[x].parent
    ensures Store.Bindings(handles, ws, {x}, [r])
  {
  }

  lemma WellFormedStays(m: Mem)
    requires Wf(m)
    ensures LiveAreBorn(m) && StoreStep(m, m, [])
  {
    WfLiveAreBorn(m);
    StepNone(m);
  }

  lemma WellFormedIsSound(m: Mem)
    requires Wf(m)
    ensures Sound(m)
  {
  }

  /** The first push to a device handle: what is under it is bound, and then itself. */
  lemma FirstPush(m: Mem, dev: Id, ws: Id) returns (m': Mem, recs: seq<Record>)
    requires Wf(m) && Unowned(m.st.handles, dev) && ws != ""
    ensures Wf(m') && StoreStep(m, m', recs) && KeepsFamilies(m.st.handles, m'.st.handles) && m'.clock == m.clock
    ensures m'.st.handles == Store.Pushed(m.st.handles, dev, ws, Unix(m.clock))
    ensures Store.Bindings(m.st.handles, ws, Store.Family(m.st.handles, dev), recs)
    ensures recs != [] && recs[|recs| - 1].id == dev
  {
    var a := m.st.handles;
    var kids := Store.Family(a, dev) - {dev};
    WellFormedStays(m);
    WellFormedIsSound(m);
    SoundIsOneLevel(m);
    Store.OwnHandle(m, dev);
    hide Wf, StoreStep, Evolves, Store.Binding, KeepsFamilies, OneLevel;
    var m1, before := BindAll(m, ws, kids);
    var h := a[dev].(workspace := ws, used := Unix(m.clock), saved := Unix(m.clock));
    m' := m1.(st := State(m1.st.sn + 1, m1.st.handles[dev := h], m1.st.workspaces));
    NewOwnerEvolves(a[dev], ws);
    HandleChanged(m, m1, m', before, dev, h);
    var r := HandleRec(m'.st.sn, dev, Some(h));
    recs := before + [r];
    OneBinding(a, ws, dev, r);
    Store.BindingsJoin(a, ws, kids, {dev}, before, [r]);
    assert kids + {dev} == Store.Family(a, dev);
    FirstPushIs(a, dev, ws, Unix(m.clock));
    Store.PushedKeeps(a, dev, ws, Unix(m.clock));
  }

  lemma FirstPushIs(a: map<Id, Handle>, dev: Id, ws: Id, t: int)
    requires Unowned(a, dev) && "" !in a
    ensures Store.DeviceOf(a, dev) == dev && Store.Refusal(a, dev, ws, a[dev].typ, a[dev].start).None?
    ensures Store.Pushed(a, dev, ws, t) ==
      BoundTo(a, ws, Store.Family(a, dev) - {dev})[dev := a[dev].(workspace := ws, used := t, saved := t)]
  {
    assert dev in Store.Family(a, dev);
    assert Store.BoundFamily(a, dev, dev, ws) == BoundTo(a, ws, Store.Family(a, dev) - {dev});
  }

  lemma PushHappens(s: Sys, dev: Id, ws: Id) returns (s1: Sys, recs: seq<Record>)
    requires InvUp(s) && Up(s) && Unowned(s.m.st.handles, dev) && ws != ""
    ensures Accepted(s, s1, dev, ws, Unix(s.m.clock), recs, true) && s1.m.clock == s.m.clock && s1.j == s.j
    ensures recs != [] && recs[|recs| - 1].id == dev
  {
    UpValues(s);
    FirstPushIs(s.m.st.handles, dev, ws, Unix(s.m.clock));
    RestFacts(s);
    assert dev in Store.Family(s.m.st.handles, dev);
    hide InvUp, Wf, StoreStep, KeepsFamilies, Store.Pushed, Store.Bindings, OneLevel;
    var m;
    m, recs := FirstPush(s.m, dev, ws);
    s1 := s.(m := m, flying := if recs == [] then s.flying else s.flying + {recs}, issued := s.issued + Elems(recs));
  }

  /** Whatever else is in flight: the first push to a family nobody owns, of which nothing is on its way, and a crash in
      its append can split it if and only if a Live Activity handle hangs off the device handle. */
  lemma CrashMaySplitAFamily(b: seq<Sys>, dev: Id, ws: Id)
    requires Run(b) && Up(b[|b| - 1]) && Settled(b[|b| - 1], dev) && ws != ""
    requires Unowned(b[|b| - 1].m.st.handles, dev)
    ensures var a := b[|b| - 1].m.st.handles;
      (exists s1, s2 ::
        && Run(b + [s1, s2]) && PushDies(b[|b| - 1], s1, s2, dev, ws)
        && !Together(Recover(s2.j.disk).handles, dev)) <==>
      exists c :: c in a && a[c].parent == dev
  {
    RunsAreLong(b);
    RunInvariant(b, |b| - 1);
    var s := b[|b| - 1];
    UpHolds(s);
    UpValues(s);
    hide Run, Recover, Settled, Together, InvUp, Inv, PushDies, OneLevel;
    MoreThanOne(s.m.st.handles, dev);
    if |Store.Family(s.m.st.handles, dev)| > 1 {
      var s1, s2, recs := SplitOnce(s, dev, ws);
      TwoMore(b, s1, s2);
    }
    if s1, s2 :| Run(b + [s1, s2]) && PushDies(s, s1, s2, dev, ws) && !Together(Recover(s2.j.disk).handles, dev) {
      OnlySplitsMany(s, s1, s2, dev, ws);
    }
  }

  lemma MoreThanOne(handles: map<Id, Handle>, dev: Id)
    requires dev in handles && handles[dev].parent != dev
    ensures |Store.Family(handles, dev)| > 1 <==> exists c :: c in handles && handles[c].parent == dev
  {
    var all := Store.Family(handles, dev);
    assert dev in all;
    if c :| c in handles && handles[c].parent == dev {
      assert c in all - {dev};
      assert |all| == |all - {dev}| + 1;
    } else {
      assert all == {dev};
    }
  }

  lemma OnlySplitsMany(s: Sys, s1: Sys, s2: Sys, dev: Id, ws: Id)
    requires InvUp(s) && Settled(s, dev) && Unowned(s.m.st.handles, dev) && PushDies(s, s1, s2, dev, ws)
    requires !Together(Recover(s2.j.disk).handles, dev)
    ensures |Store.Family(s.m.st.handles, dev)| > 1
  {
    hide InvUp, Recover, Settled, Together, Accepted, Crash, Unowned;
    var id, t, recs, bind, k, torn :| id in Store.Family(s.m.st.handles, dev)
      && Accepted(s, s1, id, ws, t, recs, bind) && Crash(s1, s2, recs, k, torn);
    TornPushSplits(s, s1, s2, dev, id, ws, t, recs, bind, k, torn);
  }

  /** With one line of the batch written. */
  lemma SplitOnce(s: Sys, dev: Id, ws: Id) returns (s1: Sys, s2: Sys, recs: seq<Record>)
    requires InvUp(s) && Up(s) && Settled(s, dev) && Unowned(s.m.st.handles, dev) && ws != ""
    requires |Store.Family(s.m.st.handles, dev)| > 1
    ensures Accepted(s, s1, dev, ws, Unix(s.m.clock), recs, true) && Crash(s1, s2, recs, 1, false)
    ensures Next(s, s1) && Next(s1, s2) && PushDies(s, s1, s2, dev, ws) && s2.phase == Down
    ensures var a, c := s.m.st.handles, Recover(s2.j.disk).handles;
      && !Together(c, dev) && Store.Family(c, dev) == Store.Family(a, dev) && c[dev].workspace == ""
      && forall x :: x in Store.Family(a, dev) ==> c[x].workspace == ws || c[x].workspace == ""
  {
    hide InvUp, Recover, Settled, Together, Store.Pushed, Store.Bindings, Wf, StoreStep, KeepsFamilies;
    s1, recs := PushHappens(s, dev, ws);
    assert dev in Store.Family(s.m.st.handles, dev);
    PushBindsAll(s, s1, dev, dev, ws, Unix(s.m.clock), recs, true);
    assert recs != [];
    hide Unowned;
    var d := s1.j.disk.(log := s1.j.disk.log + Lines(Written(recs, 1)) + []);
    s2 := s1.(phase := Down, flying := {}, failed := {}, issued := {}, acked := {}, j := s1.j.(disk := d));
    assert Crash(s1, s2, recs, 1, false) && Operate(s, s1, recs);
    hide Accepted, Crash, Operate;
    TornPushSplits(s, s1, s2, dev, dev, ws, Unix(s.m.clock), recs, true, 1, false);
    FamilyAfterPush(s, s1, s2, dev, ws, recs, 1, false);
    LastIsNotWritten(s.m.st.handles, ws, Store.Family(s.m.st.handles, dev), recs);
    assert dev in Store.Family(s.m.st.handles, dev);
  }

  lemma LastIsNotWritten(handles: map<Id, Handle>, ws: Id, among: set<Id>, recs: seq<Record>)
    requires Store.Bindings(handles, ws, among, recs) && |recs| > 1
    ensures recs[|recs| - 1].id !in Bound(Written(recs, 1))
  {
    assert forall r :: r in recs[..1] ==> r == recs[0];
  }

  // ---- an owner's next push ----

  /** Only the push that binds is held back. Another one of the same workspace, while the first one's batch is still in
      flight, binds nothing and is answered at once; and if the relay dies then, the handle is recovered as nobody's. So
      it takes the binding push's own answer to know that a binding lasts. */
  lemma NextPushIsNotHeldBack(b: seq<Sys>, dev: Id, ws: Id) returns (s1: Sys, s2: Sys, recs: seq<Record>)
    requires Run(b) && Up(b[|b| - 1]) && Settled(b[|b| - 1], dev) && ws != ""
    requires Unowned(b[|b| - 1].m.st.handles, dev)
    ensures Run(b + [s1, s1] + [s2])
    ensures var s := b[|b| - 1];
      && Accepted(s, s1, dev, ws, Unix(s.m.clock), recs, true) && recs in s1.flying
      && Accepted(s1, s1, dev, ws, Unix(s.m.clock), [], false) && WriteEnds(s1, s1, [], true)
      && Crash(s1, s2, recs, 0, false)
    ensures var c := Recover(s2.j.disk).handles; dev in c && c[dev].workspace == ""
  {
    RunsAreLong(b);
    var s := b[|b| - 1];
    RunInvariant(b, |b| - 1);
    UpHolds(s);
    UpValues(s);
    assert dev in Store.Family(s.m.st.handles, dev);
    hide Run, Recover, Settled, InvUp, Inv;
    s1, recs := PushHappens(s, dev, ws);
    PushedAgain(s, s1, dev, ws, recs);
    hide Store.Pushed, Store.Bindings, Wf, StoreStep, KeepsFamilies, Unowned;
    s2 := s1.(phase := Down, flying := {}, failed := {}, issued := {}, acked := {},
              j := s1.j.(disk := s1.j.disk.(log := s1.j.disk.log + Lines(Written(recs, 0)) + [])));
    assert Crash(s1, s2, recs, 0, false) && Operate(s, s1, recs) && Operate(s1, s1, []);
    FamilyAfterPush(s, s1, s2, dev, ws, recs, 0, false);
    assert dev in Store.Family(Recover(s2.j.disk).handles, dev);
    hide Operate, Crash, Accepted;
    TwoMore(b, s1, s1);
    OneMore(b + [s1, s1], s2);
  }

  lemma PushedAgain(s: Sys, s1: Sys, dev: Id, ws: Id, recs: seq<Record>)
    requires InvUp(s) && Unowned(s.m.st.handles, dev)
    requires Accepted(s, s1, dev, ws, Unix(s.m.clock), recs, true)
    ensures Accepted(s1, s1, dev, ws, Unix(s.m.clock), [], false)
  {
    UpValues(s);
    assert dev in Store.Family(s.m.st.handles, dev);
    var a, c, t := s.m.st.handles, s1.m.st.handles, Unix(s.m.clock);
    FirstPushIs(a, dev, ws, t);
    WellFormedStays(s1.m);
    SameFamilies(c, c);
    hide Wf, StoreStep, InvUp, KeepsFamilies, Store.Pushed;
    assert c[dev] == a[dev].(workspace := ws, used := t, saved := t) && c[dev].parent == "" && "" !in c;
    NothingToPush(c, dev, ws, t);
    assert Elems([]) == {} && s1.issued + {} == s1.issued;
  }

  /** A push that repeats the one before at the same moment changes nothing. */
  lemma NothingToPush(c: map<Id, Handle>, dev: Id, ws: Id, t: int)
    requires dev in c && "" !in c && ws != ""
    requires var h := c[dev]; h.parent == "" && h.workspace == ws && h.used == h.saved == t
    ensures Store.DeviceOf(c, dev) == dev && Store.Pushed(c, dev, ws, t) == c
  {
  }

  lemma OneMore(b: seq<Sys>, s: Sys)
    requires Run(b) && Next(b[|b| - 1], s)
    ensures Run(b + [s])
  {
    var b' := b + [s];
    hide Next;
    forall i | 0 <= i < |b'| - 1 ensures Next(b'[i], b'[i + 1]) {
      if i < |b| - 1 { assert b'[i] == b[i] && b'[i + 1] == b[i + 1]; }
    }
  }

  lemma TwoMore(b: seq<Sys>, s1: Sys, s2: Sys)
    requires Run(b) && Next(b[|b| - 1], s1) && Next(s1, s2)
    ensures Run(b + [s1, s2])
  {
    var b' := b + [s1, s2];
    hide Next;
    forall i | 0 <= i < |b'| - 1 ensures Next(b'[i], b'[i + 1]) {
      if i < |b| - 1 { assert b'[i] == b[i] && b'[i + 1] == b[i + 1]; }
    }
  }

  // ---- a run ----

  lemma Started(loaded: Mem)
    requires loaded.born == map[] && loaded.bornW == map[] && loaded.children == map[] && loaded.byHash == map[]
    requires forall k :: Lookup(loaded.st, k).None?
    ensures Wf(loaded) && Store.Orphans(loaded.st.handles) == {} && StoreStep(loaded, loaded, [])
  {
    assert forall id :: id in loaded.st.handles ==> Lookup(loaded.st, HKey(id)).Some?;
    assert forall id :: id in loaded.st.workspaces ==> Lookup(loaded.st, WKey(id)).Some?;
    StepNone(loaded);
  }

  /** An empty disk is folded, and the relay serves an empty store. */
  lemma FirstStart() returns (b: seq<Sys>)
    ensures Run(b) && |b| == 3 && AtRest(b[2]) && b[2].j.isOpen && b[2].m.born == map[] && b[2].m.clock == 0
    ensures forall k :: Lookup(b[2].m.st, k).None?
  {
    var d := Disk(None, []);
    var st := Recover(d);
    var m0 := Mem(st, map[], map[], 0, 0, map[], map[]);
    var s0 := Sys(m0, JState(d, false, false, [], false, false), Down, {}, {}, {}, {});
    var s1 := s0.(phase := Folded(st), j := SnapshotWritten(s0.j, st));
    NoEntries(d);
    hide Recover;
    assert FoldLog(s0, s1);
    var m := m0.(st := Store.Loaded(st));
    forall k ensures Lookup(m.st, k).None? { LoadedValue(st, k); }
    hide Store.Loaded;
    Started(m);
    var s2 := Sys(m, JState(Disk(Some(st), []), true, false, [], false, false), Idle, {}, {}, {}, {});
    hide Wf, StoreStep;
    assert m.st.handles - {} == m.st.handles && Elems([]) == {};
    WellFormedIsSound(m);
    assert Serve(s1, s2, m, []);
    b := [s0, s1, s2];
  }

  lemma NoEntries(d: Disk)
    requires d == Disk(None, [])
    ensures forall k :: Lookup(Recover(d), k).None?
  {
    assert Records(d.log) == [] && Sorted([]) == [];
  }

  /** A handle is registered, and its record appended. */
  lemma Registered(b: seq<Sys>, id: Id, h: Handle) returns (b': seq<Sys>)
    requires Run(b) && AtRest(b[|b| - 1]) && b[|b| - 1].j.isOpen && id != "" && id !in b[|b| - 1].m.born
    requires h.used == h.saved == 0 && h.typ == (if h.parent == "" then "" else LIVE_ACTIVITY) && !h.start
    requires var hs := b[|b| - 1].m.st.handles;
      h.parent != "" ==> h.parent in hs && hs[h.parent].typ == "" && hs[h.parent].workspace == h.workspace
    ensures Run(b') && AtRest(b'[|b'| - 1]) && b'[|b'| - 1].j.isOpen
    ensures var m, m' := b[|b| - 1].m, b'[|b'| - 1].m;
      m'.st.handles == m.st.handles[id := h] && m'.born == m.born[id := h.parent]
  {
    var s := b[|b| - 1];
    AlwaysWellFormed(b, |b| - 1);
    hide Wf, StoreStep;
    var m, r := Born1(s.m, id, h);
    var s1 := s.(m := m, flying := s.flying + {[r]}, issued := s.issued + Elems([r]));
    assert Operate(s, s1, [r]);
    var s2 := s1.(j := Appended(s1.j, [r], Synced(false)), flying := s1.flying - {[r]}, acked := s1.acked + Elems([r]));
    assert AppendSynced(s1, s2, [r], false);
    TwoMore(b, s1, s2);
    b' := b + [s1, s2];
  }

  lemma Born1(m1: Mem, id: Id, h: Handle) returns (m2: Mem, r: Record)
    requires Wf(m1) && id != "" && id !in m1.born && h.used == h.saved == 0 && !h.start
    requires h.typ == (if h.parent == "" then "" else LIVE_ACTIVITY)
    requires h.parent != "" ==>
      h.parent in m1.st.handles && m1.st.handles[h.parent].typ == "" && m1.st.handles[h.parent].workspace == h.workspace
    ensures Wf(m2) && StoreStep(m1, m2, [r]) && KeepsFamilies(m1.st.handles, m2.st.handles)
    ensures m2.st.handles == m1.st.handles[id := h] && m2.born == m1.born[id := h.parent]
  {
    m2 := m1.(st := State(m1.st.sn + 1, m1.st.handles[id := h], m1.st.workspaces),
              children := Linked(m1, h.parent, id), born := m1.born[id := h.parent]);
    r := HandleRec(m2.st.sn, id, Some(h));
    BirthStep(m1, m2, id, h);
  }

  /** A run that ends with a split family: an app registers its device token and a Live Activity, and the relay dies
      while the first push is being journalled. The Live Activity handle is recovered as the pusher's, the device handle
      as nobody's. */
  lemma AFamilyIsSplit(ws: Id)
    requires ws != ""
    ensures exists b: seq<Sys> ::
      && Run(b) && b[|b| - 1].phase == Down
      && var c := Recover(b[|b| - 1].j.disk).handles;
         "d" in c && "c" in c && c["c"].parent == "d" && c["c"].workspace == ws && c["d"].workspace == ""
  {
    hide Run, Recover, Next;
    var b0 := FirstStart();
    NothingLive(b0[2].m.st);
    var dev := Handle("token", "topic", "env", "", "", false, "", 0, 0, 0);
    var child := Handle("push", "topic", "env", LIVE_ACTIVITY, "d", false, "", 0, 0, 0);
    RunsAreLong(b0);
    var b1 := Registered(b0, "d", dev);
    RunsAreLong(b1);
    var b2 := Registered(b1, "c", child);
    RunsAreLong(b2);
    assert Store.Family(b2[|b2| - 1].m.st.handles, "d") == {"d", "c"};
    var b3 := PairIsSplit(b2, "d", "c", ws);
  }

  lemma PairIsSplit(b: seq<Sys>, dev: Id, kid: Id, ws: Id) returns (b': seq<Sys>)
    requires Run(b) && AtRest(b[|b| - 1]) && ws != ""
    requires var a := b[|b| - 1].m.st.handles; Unowned(a, dev) && Store.Family(a, dev) == {dev, kid} && kid != dev
    ensures Run(b') && b'[|b'| - 1].phase == Down
    ensures var c := Recover(b'[|b'| - 1].j.disk).handles;
      dev in c && kid in c && c[kid].parent == dev && c[kid].workspace == ws && c[dev].workspace == ""
  {
    RunsAreLong(b);
    var s := b[|b| - 1];
    RunInvariant(b, |b| - 1);
    UpHolds(s);
    RestIsSettled(s, dev);
    hide Run, Recover, Settled, InvUp, Inv, Next, Unowned, PushDies, Accepted, Crash;
    var s1, s2, recs := SplitOnce(s, dev, ws);
    TwoMore(b, s1, s2);
    b' := b + [s1, s2];
    OneIsOwned(Recover(s2.j.disk).handles, dev, kid, ws);
  }

  lemma OneIsOwned(c: map<Id, Handle>, dev: Id, kid: Id, ws: Id)
    requires Store.Family(c, dev) == {dev, kid} && kid != dev && c[dev].workspace == "" && !Together(c, dev)
    requires forall x :: x in Store.Family(c, dev) ==> c[x].workspace == ws || c[x].workspace == ""
    ensures dev in c && kid in c && c[kid].parent == dev && c[kid].workspace == ws
  {
    assert dev in Store.Family(c, dev) && kid in Store.Family(c, dev);
    var x :| x in c && c[x].parent == dev && c[x].workspace != c[dev].workspace;
    assert x in Store.Family(c, dev);
  }

  lemma RunsAreLong(b: seq<Sys>)
    requires Run(b)
    ensures |b| > 0
  {
  }

  lemma NothingLive(st: State)
    requires forall k :: Lookup(st, k).None?
    ensures st.handles.Keys == {}
  {
    assert forall id :: id in st.handles ==> Lookup(st, HKey(id)).Some?;
  }
}
