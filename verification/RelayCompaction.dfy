/** What a compaction leaves on the log: the batches appended since it began, in order, and nothing else. */
module RelayCompaction {
  import opened Options
  import opened RelayTypes
  import opened Replay
  import opened StoreSpec
  import opened Journal
  import opened RelaySystem
  import opened RelayTheorems

  /** What is in flight is on its way to the log once, and not on it yet. */
  ghost predicate FlyingApart(s: Sys) {
    && (forall b, r :: b in s.flying && r in b ==> r !in OnLog(s.j.disk))
    && (forall b, c, r :: b in s.flying && c in s.flying && r in b && r in c ==> b == c)
  }

  lemma OperateApart(s: Sys, s': Sys, recs: seq<Record>)
    requires Up(s) && InvUp(s) && FlyingApart(s) && Operate(s, s', recs)
    ensures FlyingApart(s')
  {
    hide Wf, Sound, Covers, Includes, StoreStep, KeepsFamilies, Kept;
    NewNumbers(s.m, s'.m, recs);
    forall r | r in s.issued ensures r.sn <= s.m.st.sn { assert RecordKept(s.m, r); }
    assert forall r :: r in recs ==> r in Elems(recs) && r !in s.issued;
    forall b, c, r | b in s'.flying && c in s'.flying && r in b && r in c ensures b == c {
      if b in s.flying { assert r in Union(s.flying); }
      if c in s.flying { assert r in Union(s.flying); }
    }
  }

  lemma SyncedApart(s: Sys, s': Sys, b: seq<Record>, big: bool)
    requires Up(s) && InvUp(s) && FlyingApart(s) && AppendSynced(s, s', b, big)
    ensures FlyingApart(s') && OnLog(s'.j.disk) == OnLog(s.j.disk) + Elems(b)
  {
    hide Wf, History, Covers, Includes, Kept;
    BatchRecords(s, b);
    LogGrows(s.j.disk, b, []);
    assert s.j.disk.log + Lines(b) + [] == s.j.disk.log + Lines(b);
  }

  lemma BrokenApart(s: Sys, s': Sys, b: seq<Record>, k: nat)
    requires Up(s) && InvUp(s) && FlyingApart(s) && AppendBroken(s, s', b, k)
    ensures FlyingApart(s') && OnLog(s.j.disk) <= OnLog(s'.j.disk)
  {
    hide Wf, History, Covers, Includes, Kept;
    BatchRecords(s, b);
    var w := Written(b, k);
    LogGrows(s.j.disk, w, []);
    assert s.j.disk.log + Lines(w) + [] == s.j.disk.log + Lines(w);
    assert forall r :: r in w ==> r in b;
  }

  lemma FinishApart(s: Sys, s': Sys, logOk: bool)
    requires Up(s) && InvUp(s) && FlyingApart(s) && FinishCompaction(s, s', logOk)
    ensures FlyingApart(s')
  {
    if s.phase.Noted? && s.j.isOpen && logOk {
      TailOnLog(s);
      RecordsOfLines(Concat(s.j.tail));
    }
  }

  lemma TailOnLog(s: Sys)
    requires InvUp(s)
    ensures forall r :: r in Concat(s.j.tail) ==> r in OnLog(s.j.disk) && r.sn > 0
  {
    forall r | r in Concat(s.j.tail) ensures r in OnLog(s.j.disk) && r.sn > 0 {
      ConcatHas(s.j.tail, r);
      var b :| b in s.j.tail && r in b;
      assert r in Elems(b) && Elems(b) <= OnLog(s.j.disk);
      assert RecordKept(s.m, r);
    }
  }

  lemma NextApart(s: Sys, s': Sys)
    requires Inv(s) && Next(s, s') && Up(s') && (Up(s) ==> FlyingApart(s))
    ensures FlyingApart(s')
  {
    hide InvUp, InvDown, StoreStep, Wf;
    if recs :| Operate(s, s', recs) { OperateApart(s, s', recs); }
    else if b, big :| AppendSynced(s, s', b, big) { SyncedApart(s, s', b, big); }
    else if b, k :| AppendBroken(s, s', b, k) { BrokenApart(s, s', b, k); }
    else if logOk :| FinishCompaction(s, s', logOk) { FinishApart(s, s', logOk); }
    else if loaded, orphans :| Serve(s, s', loaded, orphans) { ServeApart(s, s', loaded, orphans); }
  }

  lemma ServeApart(s: Sys, s': Sys, loaded: Mem, orphans: seq<Record>)
    requires Serve(s, s', loaded, orphans)
    ensures FlyingApart(s')
  {
    assert OnLog(s'.j.disk) == {};
  }

  lemma {:induction false} RunApart(b: seq<Sys>, n: nat)
    requires Run(b) && n < |b| && Up(b[n])
    ensures FlyingApart(b[n])
  {
    hide Next, Inv, FlyingApart, Up;
    FirstIsDown(b);
    if n > 0 {
      RunStep(b, n - 1);
      RunInvariant(b, n - 1);
      if Up(b[n - 1]) { RunApart(b, n - 1); }
      NextApart(b[n - 1], b[n]);
    }
  }

  lemma FirstIsDown(b: seq<Sys>)
    requires Run(b)
    ensures !Up(b[0])
  {
  }

  // ---- one compaction ----

  ghost predicate Synced(s: Sys, s': Sys, batch: seq<Record>) { exists big :: AppendSynced(s, s', batch, big) }

  /** The batch a step appended; it is the only one. */
  ghost function SyncedBatch(s: Sys, s': Sys): (batch: Option<seq<Record>>)
    ensures batch.Some? ==> Synced(s, s', batch.value) && forall x :: Synced(s, s', x) ==> x == batch.value
    ensures batch.None? ==> forall x :: !Synced(s, s', x)
  {
    if x :| Synced(s, s', x) then Some(x) else None
  }

  /** The batches appended between two moments of a run, in order. */
  ghost function AppendedIn(b: seq<Sys>, i: nat, n: nat): seq<seq<Record>>
    requires i <= n < |b|
  {
    if n == i then []
    else
      var batch := SyncedBatch(b[n - 1], b[n]);
      AppendedIn(b, i, n - 1) + if batch.Some? then [batch.value] else []
  }

  /** A compaction from its start, at i, to the moment before its end. */
  ghost predicate Captures(b: seq<Sys>, i: nat, j: nat) {
    && Run(b) && i < j < |b| && BeginCapture(b[i], b[i + 1])
    && forall n :: i < n <= j ==> Up(b[n]) && b[n].phase != Idle
  }

  /** Until then the journal collects exactly the batches appended. */
  lemma {:induction false} TailIsAppended(b: seq<Sys>, i: nat, j: nat)
    requires Captures(b, i, j)
    ensures b[j].j.capture && b[j].j.tail == AppendedIn(b, i + 1, j)
  {
    hide Run, BeginCapture;
    if j == i + 1 {
      CaptureStarts(b[i], b[i + 1]);
    } else {
      TailIsAppended(b, i, j - 1);
      RunStep(b, j - 1);
      TailStep(b[j - 1], b[j]);
    }
  }

  lemma CaptureStarts(s: Sys, s': Sys)
    requires BeginCapture(s, s')
    ensures s'.j.capture && s'.j.tail == []
  {
  }

  lemma TailStep(s: Sys, s': Sys)
    requires Up(s) && Up(s') && s.phase != Idle && s'.phase != Idle && Next(s, s') && s.j.capture
    ensures s'.j.capture
    ensures s'.j.tail == s.j.tail + if SyncedBatch(s, s').Some? then [SyncedBatch(s, s').value] else []
  {
    var batch := SyncedBatch(s, s');
    if batch.Some? {
      var big :| AppendSynced(s, s', batch.value, big);
    } else {
      NoneSynced(s, s');
    }
  }

  lemma NoneSynced(s: Sys, s': Sys)
    requires SyncedBatch(s, s').None?
    ensures forall x, big :: !AppendSynced(s, s', x, big)
  {
    forall x, big ensures !AppendSynced(s, s', x, big) { assert !Synced(s, s', x); }
  }

  /** While it runs, the log only grows. */
  lemma {:induction false} LogGrowsIn(b: seq<Sys>, i: nat, j: nat)
    requires Captures(b, i, j)
    ensures OnLog(b[i].j.disk) <= OnLog(b[j].j.disk)
    ensures forall batch, r :: batch in AppendedIn(b, i + 1, j) && r in batch ==> r !in OnLog(b[i].j.disk)
  {
    hide Run, BeginCapture, InvUp, Next;
    if j == i + 1 {
      SameDisk(b[i], b[i + 1]);
    } else {
      LogGrowsIn(b, i, j - 1);
      RunStep(b, j - 1);
      RunInvariant(b, j - 1);
      RunApart(b, j - 1);
      GrowsStep(b[j - 1], b[j]);
    }
  }

  lemma SameDisk(s: Sys, s': Sys)
    requires BeginCapture(s, s')
    ensures s'.j.disk == s.j.disk
  {
  }

  lemma GrowsStep(s: Sys, s': Sys)
    requires Up(s) && Up(s') && InvUp(s) && FlyingApart(s) && s.phase != Idle && s'.phase != Idle && Next(s, s')
    ensures OnLog(s.j.disk) <= OnLog(s'.j.disk)
    ensures SyncedBatch(s, s').Some? ==> forall r :: r in SyncedBatch(s, s').value ==> r !in OnLog(s.j.disk)
  {
    hide InvUp, FlyingApart;
    var batch := SyncedBatch(s, s');
    if batch.Some? {
      var big :| AppendSynced(s, s', batch.value, big);
      SyncedApart(s, s', batch.value, big);
      NotYet(s, batch.value);
    } else {
      NoneSynced(s, s');
      if x, k :| AppendBroken(s, s', x, k) { BrokenApart(s, s', x, k); }
    }
  }

  lemma NotYet(s: Sys, batch: seq<Record>)
    requires FlyingApart(s) && batch in s.flying
    ensures forall r :: r in batch ==> r !in OnLog(s.j.disk)
  {
  }

  /** A compaction whose snapshot and log could be written leaves on the log the batches appended since it began, in
      order, and nothing that was there when it did: nothing at all when nothing was appended. */
  lemma CompactionKeepsTheAppended(b: seq<Sys>, i: nat, j: nat)
    requires Captures(b, i, j) && j + 1 < |b| && FinishCompaction(b[j], b[j + 1], true)
    requires b[j].phase.Noted? && b[j].j.isOpen
    ensures var log, batches := b[j + 1].j.disk.log, AppendedIn(b, i + 1, j);
      && |log| == |Concat(batches)| && (forall k :: 0 <= k < |log| ==> log[k] == Whole(Concat(batches)[k]))
      && Records(log) == Concat(batches)
      && (forall r :: r in OnLog(b[i].j.disk) ==> r !in OnLog(b[j + 1].j.disk))
      && (batches == [] ==> log == [])
  {
    var batches := AppendedIn(b, i + 1, j);
    TailIsAppended(b, i, j);
    RunInvariant(b, j);
    TailOnLog(b[j]);
    RecordsOfLines(Concat(batches));
    LogGrowsIn(b, i, j);
    forall r | r in OnLog(b[j + 1].j.disk) ensures r !in OnLog(b[i].j.disk) { ConcatHas(batches, r); }
  }

  /** One whose snapshot or log could not be written, or that finds the journal closed, leaves the disk as it was. */
  lemma FailedCompactionKeepsAll(s: Sys, s': Sys, logOk: bool)
    requires FinishCompaction(s, s', logOk) && (!s.phase.Noted? || !s.j.isOpen || !logOk)
    ensures s'.j.disk == s.j.disk && !s'.j.capture && !s'.j.compacting
  {
  }
}
