/** What holds of every run of the relay: any interleaving of operations, appends and compactions, with crashes and
    reopenings anywhere. */
module RelayTheorems {
  import opened Options
  import opened RelayTypes
  import opened Replay
  import opened StoreSpec
  import opened Journal
  import opened RelaySystem
  import Store

  // ---- the disk and the batches in flight stand for memory ----

  /** Replaying the snapshot, the log and whatever is still (or failed to be) on its way gives exactly the live
      entries, with usage timestamps at most a day behind the live ones. */
  lemma DiskAndFlightDenoteMemory(b: seq<Sys>, i: nat, rest: seq<Record>)
    requires Run(b) && i < |b| && Up(b[i]) && Elems(rest) == Flying(b[i])
    ensures var d := b[i].j.disk;
      var st := Recover(d.(log := d.log + Lines(rest)));
      forall k ::
        && Reflects(Lookup(st, k), Lookup(b[i].m.st, k))
        && (Lookup(st, k).Some? ==> Lookup(b[i].m.st, k).value.Used() - Lookup(st, k).value.Used() <= 86_400)
  {
    RunInvariant(b, i);
    var s := b[i];
    var d := s.j.disk;
    var d' := d.(log := d.log + Lines(rest));
    forall r | r in rest ensures r.sn > 0 && r in s.issued {
      assert r in Elems(rest) && RecordKept(s.m, r);
    }
    LogGrows(d, rest, []);
    assert d.log + Lines(rest) + [] == d'.log;
    forall k
      ensures Reflects(Lookup(Recover(d'), k), Lookup(s.m.st, k))
      ensures Lookup(Recover(d'), k).Some? ==>
        Lookup(s.m.st, k).value.Used() - Lookup(Recover(d'), k).value.Used() <= 86_400
    {
      RecoverIsLastWriterWins(d', k);
      DenoteSame(d.snap.value, OnLog(d'), s.issued, k);
      assert CoversKey(d.snap.value, s.issued, s.m, k);
      if Lookup(s.m.st, k).Some? {
        assert Lookup(s.m.st, k).value.Used() <= Lookup(s.m.st, k).value.Saved() + USED_EVERY;
      }
    }
  }

  /** With nothing in flight and nothing failed, the disk alone does. */
  lemma DiskDenotesMemoryAtRest(b: seq<Sys>, i: nat)
    requires Run(b) && i < |b| && Up(b[i]) && b[i].flying == b[i].failed == {}
    ensures forall k :: Reflects(Lookup(Recover(b[i].j.disk), k), Lookup(b[i].m.st, k))
  {
    assert Flying(b[i]) == {};
    DiskAndFlightDenoteMemory(b, i, []);
    assert b[i].j.disk.log + Lines([]) == b[i].j.disk.log;
  }

  // ---- crashes ----

  lemma NewestExists(issued: set<Record>, upTo: nat, a: Record)
    requires a in issued && 0 < a.sn <= upTo
    ensures exists r :: Newest(issued, upTo, r) && r.Key() == a.Key() && r.sn >= a.sn
  {
    var older := set x | x in issued && x.sn <= upTo;
    LatestExists(older, 0, a.Key(), a);
    var r :| Latest(older, 0, a.Key(), r);
    forall x | x in issued && x.Key() == r.Key() && x.sn <= upTo ensures x.sn <= r.sn {
      if x.sn > 0 { assert x in older; }
    }
    assert Newest(issued, upTo, r);
  }

  /** A log that lost no acknowledged record recovers, for its key, that record's value or a newer one. */
  lemma RecoveredIsAsNew(s: Sys, d: Disk, a: Record)
    requires InvUp(s) && d.snap == s.j.disk.snap && OnLog(d) <= s.issued && a in s.issued
    requires a in OnLog(d) || a.sn <= d.snap.value.sn
    ensures exists r ::
      r in s.issued && r.Key() == a.Key() && r.sn >= a.sn && Reflects(r.Value(), Lookup(Recover(d), a.Key()))
  {
    var c, k := d.snap.value, a.Key();
    RecoverIsLastWriterWins(d, k);
    assert RecordKept(s.m, a);
    if r :| Latest(OnLog(d), c.sn, k, r) {
      DenoteIs(c, OnLog(d), k, r);
      assert r in s.issued && r.sn >= a.sn && Reflects(r.Value(), Lookup(Recover(d), k));
    } else {
      if a.sn > c.sn { LatestExists(OnLog(d), c.sn, k, a); }
      NewestExists(s.issued, c.sn, a);
    }
  }

  /** The crash that ends a process, at any point — in the middle of an append, between the steps of a compaction —
      loses no change acknowledged in it: the recovered value of its key comes from a record at least as new. (For
      later crashes, see RelaySurvival.) */
  lemma NoAcknowledgedChangeIsLost(b: seq<Sys>, i: nat, s': Sys, batch: seq<Record>, n: nat, torn: bool, a: Record)
    requires Run(b) && i < |b| && Up(b[i]) && Crash(b[i], s', batch, n, torn) && a in b[i].acked
    ensures exists r ::
      r in b[i].issued && r.Key() == a.Key() && r.sn >= a.sn && Reflects(r.Value(), Lookup(Recover(s'.j.disk), a.Key()))
  {
    RunInvariant(b, i);
    if batch != [] { BatchRecords(b[i], batch); }
    LogGrows(b[i].j.disk, Written(batch, n), if torn then [Torn] else []);
    RecoveredIsAsNew(b[i], s'.j.disk, a);
  }

  /** A compaction never drops a record its snapshot does not include. */
  lemma CompactionDropsOnlyIncluded(b: seq<Sys>, i: nat, logOk: bool, r: Record)
    requires Run(b) && i + 1 < |b| && FinishCompaction(b[i], b[i + 1], logOk)
    requires r in OnLog(b[i].j.disk) && r !in OnLog(b[i + 1].j.disk)
    ensures r.sn <= Snapshot(b[i + 1].j.disk).sn || r in Flying(b[i + 1])
  {
    RunInvariant(b, i);
    RunInvariant(b, i + 1);
  }

  lemma LoadedKey(c: State, k: Key)
    requires SavedRecently(c)
    ensures Lookup(Store.Loaded(c), k) == Lookup(Store.NotedSaved(c, c), k)
  {
    if Lookup(c, k).Some? { assert Lookup(c, k).value.Saved() <= Lookup(c, k).value.Used(); }
  }

  lemma LoadedIsNoted(m: Mem)
    requires Wf(m)
    ensures Store.Loaded(m.st) == Store.NotedSaved(m.st, m.st)
  {
    hide NoOrphan, ChildrenIndexed, HashesIndexed, OwnValues, WfBirths;
    var c := m.st;
    assert SavedRecently(c);
    hide Sound, Wf, Store.Loaded, Store.NotedSaved;
    forall k ensures Lookup(Store.Loaded(c), k) == Lookup(Store.NotedSaved(c, c), k) {
      LoadedKey(c, k);
    }
    SameLookups(Store.Loaded(c), Store.NotedSaved(c, c));
  }

  /** Once a snapshot includes every record handed out, it alone is what an open recovers. */
  lemma SnapshotAloneRecovers(s: Sys)
    requires InvUp(s) && s.j.disk.snap.value.sn == s.m.st.sn
    ensures Recover(s.j.disk) == s.j.disk.snap.value
  {
    var sorted := Sorted(Records(s.j.disk.log));
    SortedSorts(Records(s.j.disk.log));
    forall r | r in sorted ensures r.sn <= s.m.st.sn {
      assert r in Elems(sorted) && r in s.issued;
      assert RecordKept(s.m, r);
    }
    ReplayStale(s.j.disk.snap.value, sorted);
  }

  /** Closing with a last compaction and opening again gives back the whole memory, usage timestamps included. */
  lemma CloseThenOpenIsIdentity(s0: Sys, s1: Sys, s2: Sys, s3: Sys, s4: Sys, logOk: bool)
    requires InvUp(s0)
    requires TakeSnapshot(s0, s1) && PutSnapshot(s1, s2) && s2.phase.OnDisk? && NoteWritten(s2, s3)
      && FinishCompaction(s3, s4, logOk)
    ensures Recover(s4.j.disk) == s0.m.st
    ensures Store.Loaded(Recover(s4.j.disk)) == s4.m.st
  {
    LoadedIsNoted(s0.m);
    QuietCompactionKeeps(s0, s1, s2, s3, s4, logOk);
    SnapshotAloneRecovers(s4);
  }

  lemma QuietCompactionKeeps(s0: Sys, s1: Sys, s2: Sys, s3: Sys, s4: Sys, logOk: bool)
    requires InvUp(s0)
    requires TakeSnapshot(s0, s1) && PutSnapshot(s1, s2) && s2.phase.OnDisk? && NoteWritten(s2, s3)
      && FinishCompaction(s3, s4, logOk)
    ensures InvUp(s4)
  {
    TakeSnapshotKeeps(s0, s1);
    PutSnapshotKeeps(s1, s2);
    NoteWrittenKeeps(s2, s3);
    FinishCompactionKeeps(s3, s4, logOk);
  }

  // ---- while the process lives ----

  ghost predicate Alive(b: seq<Sys>, i: nat, j: nat) {
    Run(b) && i <= j < |b| && forall n :: i <= n <= j ==> Up(b[n])
  }

  lemma NotedKeepsFamilies(s: Sys, s': Sys)
    requires NoteWritten(s, s')
    ensures KeepsFamilies(s.m.st.handles, s'.m.st.handles)
  {
    var a, b := s.m.st.handles, s'.m.st.handles;
    assert b.Keys == a.Keys && forall id :: id in a ==> b[id] == a[id].(saved := b[id].saved);
    SameFamilies(a, b);
  }

  lemma MemoryStep(s: Sys, s': Sys)
    requires Up(s) && Up(s') && Next(s, s')
    ensures s'.m == s.m || NoteWritten(s, s') || exists recs :: Operate(s, s', recs)
  {
  }

  /** What becomes of a key once minted: its entry evolves, and a deleted one never comes back. */
  ghost predicate KeyEvolves(m: Mem, m': Mem, k: Key) {
    Born(m, k) ==>
      && Born(m', k)
      && (Lookup(m'.st, k).Some? ==> Lookup(m.st, k).Some? && Evolves(Lookup(m.st, k).value, Lookup(m'.st, k).value))
  }

  lemma KeyEvolvesTransitive(m0: Mem, m1: Mem, m2: Mem, k: Key)
    requires KeyEvolves(m0, m1, k) && KeyEvolves(m1, m2, k)
    ensures KeyEvolves(m0, m2, k)
  {
  }

  lemma KeyStepEvolves(s: Sys, s': Sys, k: Key)
    requires Up(s) && Up(s') && Next(s, s')
    ensures KeyEvolves(s.m, s'.m, k)
  {
    MemoryStep(s, s');
    if NoteWritten(s, s') { Store.NotedLookup(s.m.st, s.phase.c, k); }
    else if recs :| Operate(s, s', recs) { assert KeyStep(s.m, s'.m, recs, k); }
  }

  ghost predicate Steps(b: seq<Sys>) { forall n :: 0 <= n < |b| - 1 ==> Next(b[n], b[n + 1]) }

  lemma {:induction false} KeyEvolvesInRun(b: seq<Sys>, i: nat, j: nat, k: Key)
    requires i <= j < |b| && Steps(b) && forall n :: i <= n <= j ==> Up(b[n])
    ensures KeyEvolves(b[i].m, b[j].m, k)
  {
    hide Next, KeyEvolves, Up;
    if i == j {
      KeyEvolvesSelf(b[i].m, k);
    } else {
      KeyEvolvesInRun(b, i, j - 1, k);
      assert Next(b[j - 1], b[j - 1 + 1]);
      KeyStepEvolves(b[j - 1], b[j], k);
      KeyEvolvesTransitive(b[i].m, b[j - 1].m, b[j].m, k);
    }
  }

  lemma KeyEvolvesSelf(m: Mem, k: Key)
    ensures KeyEvolves(m, m, k)
  {
  }

  /** An entry changes hands at no time while the process lives, and once deleted it stays so. */
  lemma EntryEvolves(b: seq<Sys>, i: nat, j: nat, k: Key)
    requires Alive(b, i, j) && Lookup(b[i].m.st, k).Some?
    ensures KeyEvolves(b[i].m, b[j].m, k) && Born(b[i].m, k)
  {
    RunInvariant(b, i);
    WfLiveAreBorn(b[i].m);
    KeyEvolvesInRun(b, i, j, k);
  }

  /** From any moment on, until the process ends: each family whose handles all belong to one workspace stays so,
      whatever the state of the others, and a device handle with at most one push-to-start handle never gets a
      second. */
  lemma {:induction false} FamilyStaysTogether(b: seq<Sys>, i: nat, j: nat)
    requires Alive(b, i, j)
    ensures KeepsFamilies(b[i].m.st.handles, b[j].m.st.handles)
  {
    hide Run, Next, KeepsFamilies;
    if i < j {
      FamilyStaysTogether(b, i, j - 1);
      RunStep(b, j - 1);
      FamilyStep(b[j - 1], b[j]);
      FamiliesTrans(b[i].m.st.handles, b[j - 1].m.st.handles, b[j].m.st.handles);
    } else {
      SameFamilies(b[i].m.st.handles, b[i].m.st.handles);
    }
  }

  lemma RunStep(b: seq<Sys>, n: nat)
    requires Run(b) && n + 1 < |b|
    ensures Next(b[n], b[n + 1])
  {
    hide Next;
  }

  lemma FamilyStep(s: Sys, s': Sys)
    requires Up(s) && Up(s') && Next(s, s')
    ensures KeepsFamilies(s.m.st.handles, s'.m.st.handles)
  {
    MemoryStep(s, s');
    SameFamilies(s.m.st.handles, s.m.st.handles);
    hide Together, OneStart, Next;
    if NoteWritten(s, s') { NotedKeepsFamilies(s, s'); }
  }

  /** No two workspaces are ever both accepted on one family: once a device handle belongs to a workspace, a push from
      another to it or anything under it is refused for as long as it lives — whatever a crash left of the family. */
  lemma OneWorkspacePerFamily(b: seq<Sys>, i: nat, j: nat, dev: Id, x: Id, ws: Id, other: Id, typ: string, start: bool)
    requires Alive(b, i, j) && dev in b[i].m.st.handles && dev in b[j].m.st.handles
    requires b[i].m.st.handles[dev].workspace == ws != "" && other != ws
    requires x in b[j].m.st.handles && Store.DeviceOf(b[j].m.st.handles, x) == dev
    ensures Store.Refusal(b[j].m.st.handles, x, other, typ, start) == Some(Store.HandleBound)
  {
    EntryEvolves(b, i, j, HKey(dev));
  }

  /** …which an accepted push is the start of: it leaves the device handle and the pushed handle with the pusher, and,
      when the device handle had no owner, every other handle under it that had none too; no other handle changes
      hands. */
  lemma AcceptedPushOwnsTheFamily(m: Mem, id: Id, ws: Id, t: int)
    requires Wf(m) && id in m.st.handles && ws != ""
    requires Store.Refusal(m.st.handles, id, ws, m.st.handles[id].typ, m.st.handles[id].start).None?
    ensures var a, dev := m.st.handles, Store.DeviceOf(m.st.handles, id);
      && dev in a
      && var b := Store.Pushed(a, id, ws, t);
         && b.Keys == a.Keys && b[dev].workspace == ws && b[id].workspace == ws
         && (forall x :: x in a && a[x].parent == dev && a[dev].workspace == "" && a[x].workspace == "" ==>
              b[x].workspace == ws)
         && (forall x :: x in a && a[x].workspace != "" ==> b[x].workspace == a[x].workspace)
         && (forall x :: x in a && x != dev && a[x].parent != dev ==> b[x].workspace == a[x].workspace)
  {
    hide Store.Pushed, Store.BoundFamily, OwnValues, ChildrenIndexed, HashesIndexed, SavedRecently;
    Store.DeviceIsThere(m, id);
    Store.PushedOwners(m.st.handles, id, ws, t);
  }

  // ---- a binding survives ----

  /** The push that binds a family journals the new owner of every handle it binds. */
  lemma BindIsJournalled(m: Mem, m': Mem, recs: seq<Record>, id: Id, ws: Id, t: int, x: Id)
    requires Wf(m) && StoreStep(m, m', recs) && id in m.st.handles && ws != ""
    requires Store.Refusal(m.st.handles, id, ws, m.st.handles[id].typ, m.st.handles[id].start).None?
    requires Store.DeviceOf(m.st.handles, id) in m.st.handles && m'.st.handles == Store.Pushed(m.st.handles, id, ws, t)
    requires x in m.st.handles && m.st.handles[x].workspace != m'.st.handles[x].workspace
    ensures exists r :: r in recs && r.HandleRec? && r.id == x && r.hv.Some? && r.hv.value.workspace == ws
  {
    Store.PushedOwners(m.st.handles, id, ws, t);
    hide Store.Pushed;
    assert m'.st.handles[x].workspace == ws;
    assert KeyStep(m, m', recs, HKey(x));
    LastOnIsIn(recs, HKey(x));
    assert Lookup(m'.st, HKey(x)).value.Core().h.workspace == ws;
    assert Lookup(m.st, HKey(x)).value.Core().h.workspace == m.st.handles[x].workspace;
    var r := LastOn(recs, HKey(x)).value;
    assert r.Value().value.Core().h.workspace == ws;
  }

  /** Whenever the relay serves, its tree and its indexes are well formed — after any crash too. */
  lemma AlwaysWellFormed(b: seq<Sys>, i: nat)
    requires Run(b) && i < |b| && Up(b[i])
    ensures Wf(b[i].m)
  {
    RunInvariant(b, i);
  }
}
