/** The relay as a step system: operations under the store's lock, appends under the journal's, a background
    compaction in five parts, and a crash between any two of them. */
module RelaySystem {
  import opened Options
  import opened RelayTypes
  import opened Replay
  import opened StoreSpec
  import opened Journal
  import Store

  datatype Phase =
    | Idle
    | Capturing            // compact: capture is on, the copy not taken yet
    | Taken(c: State)      // the copy is taken
    | OnDisk(c: State)     // …and is the snapshot on disk
    | Noted(c: State)      // …and the store knows
    | Abandoned            // the snapshot could not be written
    | Down                 // no process
    | Folded(st: State)    // opening: the recovered state is the snapshot on disk

  /** `flying` are the batches handed out but not appended, `failed` those whose append ended with an error.
      `issued` and `acked` are history since the last open: every record handed out, and those whose append returned. */
  datatype Sys = Sys(
    m: Mem, j: JState, phase: Phase, flying: set<seq<Record>>, failed: set<seq<Record>>,
    issued: set<Record>, acked: set<Record>)

  predicate Up(s: Sys) { !s.phase.Down? && !s.phase.Folded? }

  predicate Compacting(s: Sys) { s.phase.Taken? || s.phase.OnDisk? || s.phase.Noted? }

  /** What every store operation promises (the methods of Store.Store). */
  ghost predicate Operation(m: Mem, m': Mem, recs: seq<Record>) {
    && Wf(m') && StoreStep(m, m', recs)
    && KeepsFamilies(m.st.handles, m'.st.handles)
  }

  ghost predicate Operate(s: Sys, s': Sys, recs: seq<Record>) {
    && Up(s) && Operation(s.m, s'.m, recs)
    && s' == s.(m := s'.m,
               flying := if recs == [] then s.flying else s.flying + {recs},
               issued := s.issued + Elems(recs))
  }

  ghost predicate AppendSynced(s: Sys, s': Sys, b: seq<Record>, big: bool) {
    && Up(s) && b in s.flying && s.j.isOpen
    && s' == s.(j := Appended(s.j, b, Synced(big)), flying := s.flying - {b}, acked := s.acked + Elems(b))
  }

  ghost predicate AppendBroken(s: Sys, s': Sys, b: seq<Record>, k: nat) {
    && Up(s) && b in s.flying
    && s' == s.(j := Appended(s.j, b, Broken(k)), flying := s.flying - {b}, failed := s.failed + {b})
  }

  ghost predicate BeginCapture(s: Sys, s': Sys) {
    && s.phase == Idle && s.j.compacting
    && s' == s.(j := CaptureBegun(s.j), phase := Capturing)
  }

  ghost predicate TakeSnapshot(s: Sys, s': Sys) {
    s.phase == Capturing && s' == s.(phase := Taken(s.m.st))
  }

  ghost predicate PutSnapshot(s: Sys, s': Sys) {
    && s.phase.Taken?
    && (s' == s.(j := SnapshotWritten(s.j, s.phase.c), phase := OnDisk(s.phase.c)) || s' == s.(phase := Abandoned))
  }

  ghost predicate NoteWritten(s: Sys, s': Sys) {
    && s.phase.OnDisk?
    && s' == s.(m := s.m.(st := Store.NotedSaved(s.m.st, s.phase.c)), phase := Noted(s.phase.c))
  }

  ghost predicate FinishCompaction(s: Sys, s': Sys, logOk: bool) {
    && (s.phase.Noted? || s.phase.Abandoned?)
    && s' == s.(j := Finished(s.j, s.phase.Noted?, logOk), phase := Idle)
  }

  /** Closing: one last compaction, then the file is closed and every later append fails. */
  ghost predicate BeginClose(s: Sys, s': Sys) {
    s.phase == Idle && s' == s.(j := s.j.(closed := true, compacting := true))
  }

  ghost predicate CloseFile(s: Sys, s': Sys) {
    s.phase == Idle && s.j.closed && s' == s.(j := s.j.(isOpen := false))
  }

  /** The process dies, perhaps in the middle of an append: whole lines of a batch reach the log, and part of one. */
  ghost predicate Crash(s: Sys, s': Sys, b: seq<Record>, k: nat, torn: bool) {
    && (b == [] || (Up(s) && b in s.flying))
    && s' == s.(phase := Down, flying := {}, failed := {}, issued := {}, acked := {},
                j := s.j.(disk := s.j.disk.(
                  log := s.j.disk.log + Lines(Written(b, k)) + (if torn then [Torn] else []))))
  }

  ghost predicate FoldLog(s: Sys, s': Sys) {
    && s.phase == Down
    && s' == s.(phase := Folded(Recover(s.j.disk)), j := SnapshotWritten(s.j, Recover(s.j.disk)))
  }

  /** The log is truncated, the store is loaded, and the removal of orphans is on its way to the journal. */
  ghost predicate Serve(s: Sys, s': Sys, loaded: Mem, orphans: seq<Record>) {
    && s.phase.Folded?
    && Sound(loaded) && loaded.st == Store.Loaded(s.phase.st)
    && loaded.clock == s.m.clock && loaded.born == s.m.born && loaded.bornW == s.m.bornW
    && Wf(s'.m) && StoreStep(loaded, s'.m, orphans)
    && s'.m.st.handles == loaded.st.handles - Store.Orphans(loaded.st.handles)
    && s'.m.st.workspaces == loaded.st.workspaces
    && s' == Sys(s'.m, JState(Disk(Some(s.phase.st), []), true, false, [], false, false), Idle,
                 if orphans == [] then {} else {orphans}, {}, Elems(orphans), {})
  }

  ghost predicate Next(s: Sys, s': Sys) {
    || (exists recs :: Operate(s, s', recs))
    || (exists b, big :: AppendSynced(s, s', b, big))
    || (exists b, k :: AppendBroken(s, s', b, k))
    || BeginCapture(s, s') || TakeSnapshot(s, s') || PutSnapshot(s, s') || NoteWritten(s, s')
    || (exists logOk :: FinishCompaction(s, s', logOk))
    || BeginClose(s, s') || CloseFile(s, s')
    || (exists b, k, torn :: Crash(s, s', b, k, torn))
    || FoldLog(s, s')
    || (exists loaded, orphans :: Serve(s, s', loaded, orphans))
  }

  /** Nothing on disk, no process, nothing ever minted. */
  ghost predicate Init(s: Sys) {
    && s.phase == Down && s.j.disk == Disk(None, []) && s.flying == s.failed == {} && s.issued == s.acked == {}
    && s.m.born == map[] && s.m.bornW == map[]
  }

  // ---- the invariant ----

  function Union(batches: set<seq<Record>>): set<Record> { set b, r | b in batches && r in b :: r }

  function Flying(s: Sys): set<Record> { Union(s.flying) + Union(s.failed) }

  function OnLog(d: Disk): set<Record> { Elems(Records(d.log)) }

  /** v is what memory holds, save for a usage timestamp that may have moved on since. */
  predicate Reflects(v: Option<Entry>, live: Option<Entry>) {
    (v.None? && live.None?)
      || (v.Some? && live.Some? && v.value.Core() == live.value.Core() && v.value.Used() <= live.value.Used())
  }

  /** Replaying the records after snapshot c gives the live entry, with a timestamp at least as new as `saved` says. */
  ghost predicate CoversKey(c: State, issued: set<Record>, m: Mem, k: Key) {
    var v, live := Denote(c, issued, k), Lookup(m.st, k);
    && Reflects(v, live)
    && (live.Some? ==> live.value.Saved() <= v.value.Used())
    && (live.Some? && Lookup(c, k).Some? ==> Lookup(c, k).value.Used() <= v.value.Used())
  }

  ghost predicate Covers(c: State, issued: set<Record>, m: Mem) {
    && c.sn <= m.st.sn && OwnValues(c, m.clock, m.born, m.bornW)
    && forall k :: CoversKey(c, issued, m, k)
  }

  /** r is the newest record on its key up to `upTo`. */
  ghost predicate Newest(issued: set<Record>, upTo: nat, r: Record) {
    && r in issued && r.sn <= upTo
    && forall x :: x in issued && x.Key() == r.Key() && x.sn <= upTo ==> x.sn <= r.sn
  }

  /** c holds what the newest records up to its sequence number say. */
  ghost predicate Includes(c: State, issued: set<Record>) {
    forall r :: Newest(issued, c.sn, r) ==> Reflects(r.Value(), Lookup(c, r.Key()))
  }

  ghost predicate RecordKept(m: Mem, r: Record) {
    && 0 < r.sn <= m.st.sn && Born(m, r.Key())
    && (r.Value().None? ==> Lookup(m.st, r.Key()).None?)
    && (r.Value().Some? ==>
          && OwnValue(r.Key(), r.Value().value, m.clock, m.born, m.bornW)
          && (Lookup(m.st, r.Key()).Some? ==> Evolves(r.Value().value, Lookup(m.st, r.Key()).value)))
  }

  ghost predicate History(m: Mem, issued: set<Record>) {
    && UniqueSeqs(issued) && InOrder(issued)
    && (forall r :: r in issued ==> RecordKept(m, r))
    && Includes(m.st, issued)
  }

  ghost predicate InvUp(s: Sys) {
    && Wf(s.m) && History(s.m, s.issued)
    && s.j.disk.snap.Some?
    && OnLog(s.j.disk) + Flying(s) <= s.issued
    && (forall b :: b in s.j.tail ==> Elems(b) <= OnLog(s.j.disk))
    && Kept(s, s.j.disk.snap.value, OnLog(s.j.disk))
    && (s.phase != Idle ==> s.phase == Abandoned || s.j.capture)
    && (Compacting(s) ==> s.j.disk.snap.value.sn <= s.phase.c.sn && Kept(s, s.phase.c, Elems(Concat(s.j.tail))))
    && (s.phase.OnDisk? || s.phase.Noted? ==> s.j.disk.snap.value == s.phase.c)
  }

  /** Snapshot c together with the records in `log` stands for memory: nothing above its sequence number is missing,
      and no acknowledged change is left to the batches in flight. */
  ghost predicate Kept(s: Sys, c: State, log: set<Record>) {
    && Covers(c, s.issued, s.m) && Includes(c, s.issued)
    && (forall r :: r in s.issued && r.sn > c.sn ==> r in log || r in Flying(s))
    && (forall r :: r in s.acked ==> r in s.issued && (r.sn <= c.sn || r in log))
  }

  ghost predicate InvDown(s: Sys) {
    && WfBirths(s.m.born, s.m.bornW)
    && OwnValues(Snapshot(s.j.disk), s.m.clock, s.m.born, s.m.bornW)
    && UniqueSeqs(OnLog(s.j.disk))
    && (forall r :: r in OnLog(s.j.disk) && r.Value().Some? ==>
          OwnValue(r.Key(), r.Value().value, s.m.clock, s.m.born, s.m.bornW))
    && (s.phase.Folded? ==> s.j.disk.snap == Some(s.phase.st) && Recover(s.j.disk) == s.phase.st)
  }

  ghost predicate Inv(s: Sys) { if Up(s) then InvUp(s) else InvDown(s) }

  // ---- an operation ----

  lemma {:induction false} LastOnIsLatest(recs: seq<Record>, from: nat, k: Key)
    requires Numbered(recs, from)
    ensures LastOn(recs, k).Some? ==> Latest(Elems(recs), from, k, LastOn(recs, k).value)
    ensures LastOn(recs, k).None? ==> forall r :: r in recs ==> r.Key() != k
  {
    if recs != [] {
      var front := recs[..|recs| - 1];
      LastOnIsLatest(front, from, k);
      assert recs == front + [recs[|recs| - 1]];
    }
  }

  /** What a snapshot and the records since then say, one batch later. */
  lemma DenoteStep(c: State, issued: set<Record>, recs: seq<Record>, from: nat, k: Key)
    requires UniqueSeqs(issued) && Numbered(recs, from) && c.sn <= from && (forall r :: r in issued ==> r.sn <= from)
    ensures UniqueSeqs(issued + Elems(recs))
    ensures Denote(c, issued + Elems(recs), k) ==
      if LastOn(recs, k).Some? then LastOn(recs, k).value.Value() else Denote(c, issued, k)
  {
    LastOnIsLatest(recs, from, k);
    var all := issued + Elems(recs);
    if LastOn(recs, k).Some? {
      assert Latest(all, c.sn, k, LastOn(recs, k).value);
      DenoteIs(c, all, k, LastOn(recs, k).value);
    } else {
      forall r ensures Latest(all, c.sn, k, r) == Latest(issued, c.sn, k, r) {}
      if r :| Latest(issued, c.sn, k, r) {
        DenoteIs(c, issued, k, r);
        DenoteIs(c, all, k, r);
      }
    }
  }

  lemma CoversStep(c: State, issued: set<Record>, m: Mem, m': Mem, recs: seq<Record>)
    requires Sound(m) && Sound(m') && StoreStep(m, m', recs) && History(m, issued) && Covers(c, issued, m)
    ensures Covers(c, issued + Elems(recs), m')
  {
    forall k ensures CoversKey(c, issued + Elems(recs), m', k) {
      DenoteStep(c, issued, recs, m.st.sn, k);
      assert CoversKey(c, issued, m, k) && KeyStep(m, m', recs, k);
      LastOnIsIn(recs, k);
      if LastOn(recs, k).Some? {
        assert RecordStep(m, m', LastOn(recs, k).value);
        if Lookup(c, k).Some? { assert OwnValue(k, Lookup(c, k).value, m.clock, m.born, m.bornW); }
      }
    }
    forall k | Lookup(c, k).Some? ensures OwnValue(k, Lookup(c, k).value, m'.clock, m'.born, m'.bornW) {
      OwnValueLater(k, Lookup(c, k).value, m, m');
    }
  }

  /** Records issued after a snapshot do not change what it includes. */
  lemma IncludesStep(c: State, issued: set<Record>, more: set<Record>)
    requires Includes(c, issued) && forall r :: r in more ==> r.sn > c.sn
    ensures Includes(c, issued + more)
  {
    forall r | Newest(issued + more, c.sn, r) ensures Reflects(r.Value(), Lookup(c, r.Key())) {
      assert Newest(issued, c.sn, r);
    }
  }

  lemma HistoryStep(m: Mem, m': Mem, issued: set<Record>, recs: seq<Record>)
    requires Sound(m) && Sound(m') && StoreStep(m, m', recs) && History(m, issued)
    ensures History(m', issued + Elems(recs))
  {
    forall r | r in issued + Elems(recs) ensures RecordKept(m', r) {
      assert KeyStep(m, m', recs, r.Key());
      if r in issued {
        assert RecordKept(m, r);
        if r.Value().Some? { OwnValueLater(r.Key(), r.Value().value, m, m'); }
      } else {
        assert RecordStep(m, m', r);
      }
    }
    InOrderStep(m, m', issued, recs);
    LiveIsNewest(m, m', issued, recs);
  }

  lemma InOrderStep(m: Mem, m': Mem, issued: set<Record>, recs: seq<Record>)
    requires Sound(m) && StoreStep(m, m', recs) && History(m, issued)
    ensures InOrder(issued + Elems(recs)) && UniqueSeqs(issued + Elems(recs))
  {
    forall a, b | a in issued + Elems(recs) && b in issued + Elems(recs) && a.Key() == b.Key() && a.sn < b.sn
      ensures Follows(a, b)
    {
      if a in issued && b !in issued {
        assert RecordKept(m, a) && RecordStep(m, m', b);
      } else if b in issued {
        assert RecordKept(m, b);
      }
    }
  }

  lemma LiveIsNewest(m: Mem, m': Mem, issued: set<Record>, recs: seq<Record>)
    requires Sound(m) && StoreStep(m, m', recs) && History(m, issued)
    ensures Includes(m'.st, issued + Elems(recs))
  {
    forall r | Newest(issued + Elems(recs), m'.st.sn, r) ensures Reflects(r.Value(), Lookup(m'.st, r.Key())) {
      var k := r.Key();
      assert KeyStep(m, m', recs, k);
      LastOnIsLatest(recs, m.st.sn, k);
      if LastOn(recs, k).Some? {
        var l := LastOn(recs, k).value;
        assert l in issued + Elems(recs);
        InOrderStep(m, m', issued, recs);
        assert l == r;
      } else {
        assert RecordKept(m, r) && Newest(issued, m.st.sn, r);
      }
    }
  }

  lemma UnionAdd(batches: set<seq<Record>>, b: seq<Record>)
    ensures Union(batches + {b}) == Union(batches) + Elems(b)
  {
    forall r | r in Elems(b) ensures r in Union(batches + {b}) { assert b in batches + {b}; }
    forall r | r in Union(batches) ensures r in Union(batches + {b}) {
      var x :| x in batches && r in x;
      assert x in batches + {b};
    }
  }

  lemma NewNumbers(m: Mem, m': Mem, recs: seq<Record>)
    requires StoreStep(m, m', recs)
    ensures forall r :: r in Elems(recs) ==> r.sn > m.st.sn
  {
  }

  lemma CoversUpTo(c: State, issued: set<Record>, m: Mem)
    requires Covers(c, issued, m)
    ensures c.sn <= m.st.sn
  {
  }

  lemma OperateKeeps(s: Sys, s': Sys, recs: seq<Record>)
    requires InvUp(s) && Up(s) && Operate(s, s', recs)
    ensures InvUp(s')
  {
    hide Sound, History, Covers, Includes, StoreStep, KeepsFamilies;
    HistoryStep(s.m, s'.m, s.issued, recs);
    NewNumbers(s.m, s'.m, recs);
    UnionAdd(s.flying, recs);
    assert Flying(s') == Flying(s) + Elems(recs);
    var d := s.j.disk.snap.value;
    CoversUpTo(d, s.issued, s.m);
    CoversStep(d, s.issued, s.m, s'.m, recs);
    IncludesStep(d, s.issued, Elems(recs));
    if Compacting(s) {
      CoversUpTo(s.phase.c, s.issued, s.m);
      CoversStep(s.phase.c, s.issued, s.m, s'.m, recs);
      IncludesStep(s.phase.c, s.issued, Elems(recs));
    }
  }

  // ---- appends ----

  lemma LogGrows(d: Disk, recs: seq<Record>, torn: seq<Line>)
    requires (forall r :: r in recs ==> r.sn > 0) && (forall i :: 0 <= i < |torn| ==> torn[i] == Torn)
    ensures OnLog(d.(log := d.log + Lines(recs) + torn)) == OnLog(d) + Elems(recs)
  {
    RecordsConcat(d.log + Lines(recs), torn);
    RecordsConcat(d.log, Lines(recs));
    RecordsOfLines(recs);
    NoRecordsTorn(torn);
  }

  lemma {:induction false} NoRecordsTorn(torn: seq<Line>)
    requires forall i :: 0 <= i < |torn| ==> torn[i] == Torn
    ensures Records(torn) == []
  {
    if torn != [] { NoRecordsTorn(torn[..|torn| - 1]); }
  }

  /** Moving a batch from the ones in flight to the log, or to the failed ones, loses nothing. */
  lemma UnionRemove(batches: set<seq<Record>>, b: seq<Record>)
    requires b in batches
    ensures Union(batches) == Union(batches - {b}) + Elems(b)
  {
    UnionAdd(batches - {b}, b);
    assert batches - {b} + {b} == batches;
  }

  lemma BatchRecords(s: Sys, b: seq<Record>)
    requires InvUp(s) && b in s.flying
    ensures Elems(b) <= s.issued && forall r :: r in b ==> r.sn > 0
  {
    UnionRemove(s.flying, b);
    forall r | r in b ensures r in s.issued && r.sn > 0 {
      assert r in Elems(b);
      assert RecordKept(s.m, r);
    }
  }

  lemma AppendSyncedKeeps(s: Sys, s': Sys, b: seq<Record>, big: bool)
    requires Up(s) && InvUp(s) && AppendSynced(s, s', b, big)
    ensures InvUp(s')
  {
    hide Wf, History, Covers, Includes;
    BatchRecords(s, b);
    LogGrows(s.j.disk, b, []);
    assert s.j.disk.log + Lines(b) + [] == s.j.disk.log + Lines(b);
    UnionRemove(s.flying, b);
    assert Flying(s) == Flying(s') + Elems(b);
    if s.j.capture {
      assert s'.j.tail[..|s'.j.tail| - 1] == s.j.tail;
      assert Elems(Concat(s'.j.tail)) == Elems(Concat(s.j.tail)) + Elems(b);
    }
    hide Kept;
    KeptMoves(s, s', s.j.disk.snap.value, OnLog(s.j.disk), OnLog(s'.j.disk));
    if Compacting(s) { KeptMoves(s, s', s.phase.c, Elems(Concat(s.j.tail)), Elems(Concat(s'.j.tail))); }
  }

  /** Records that leave the batches in flight for a log, or stay in them, are still kept. */
  lemma KeptMoves(s: Sys, s': Sys, c: State, log: set<Record>, log': set<Record>)
    requires Kept(s, c, log) && s'.m == s.m && s'.issued == s.issued && log <= log'
    requires forall r :: r in Flying(s) ==> r in Flying(s') || r in log'
    requires forall r :: r in s'.acked ==> r in s.acked || (r in s.issued && r in log')
    ensures Kept(s', c, log')
  {
    hide Covers, Includes, Flying;
  }

  lemma AppendBrokenKeeps(s: Sys, s': Sys, b: seq<Record>, k: nat)
    requires Up(s) && InvUp(s) && AppendBroken(s, s', b, k)
    ensures InvUp(s')
  {
    hide Wf, History, Covers, Includes;
    BatchRecords(s, b);
    var w := Written(b, k);
    LogGrows(s.j.disk, w, []);
    assert s.j.disk.log + Lines(w) + [] == s.j.disk.log + Lines(w);
    UnionRemove(s.flying, b);
    UnionAdd(s.failed, b);
    assert Flying(s) == Flying(s');
    assert OnLog(s.j.disk) <= OnLog(s'.j.disk) <= OnLog(s.j.disk) + Elems(b);
    hide Kept;
    KeptMoves(s, s', s.j.disk.snap.value, OnLog(s.j.disk), OnLog(s'.j.disk));
    if Compacting(s) { KeptMoves(s, s', s.phase.c, Elems(Concat(s.j.tail)), Elems(Concat(s'.j.tail))); }
  }

  // ---- compaction ----

  /** The copy a compaction takes is memory itself. */
  lemma TakeSnapshotKeeps(s: Sys, s': Sys)
    requires InvUp(s) && TakeSnapshot(s, s')
    ensures InvUp(s')
  {
    var c := s.m.st;
    forall r | r in s.issued ensures r.sn <= c.sn { assert RecordKept(s.m, r); }
    forall k ensures CoversKey(c, s.issued, s.m, k) {
      assert forall r :: !Latest(s.issued, c.sn, k, r);
    }
  }

  lemma NoteWrittenKeeps(s: Sys, s': Sys)
    requires InvUp(s) && NoteWritten(s, s')
    ensures InvUp(s')
  {
    var c := s.phase.c;
    forall k ensures CoversKey(c, s.issued, s'.m, k) {
      assert CoversKey(c, s.issued, s.m, k);
      Store.NotedLookup(s.m.st, c, k);
    }
    forall k | Lookup(c, k).Some? && Lookup(s.m.st, k).Some?
      ensures Lookup(c, k).value.Used() <= Lookup(s.m.st, k).value.Used()
    {
      assert CoversKey(c, s.issued, s.m, k);
    }
    Store.NotedKeeps(s.m, s'.m, c);
    forall r | r in s.issued ensures RecordKept(s'.m, r) {
      assert RecordKept(s.m, r);
      Store.NotedLookup(s.m.st, c, r.Key());
    }
    forall r | Newest(s.issued, s'.m.st.sn, r) ensures Reflects(r.Value(), Lookup(s'.m.st, r.Key())) {
      assert Newest(s.issued, s.m.st.sn, r);
      Store.NotedLookup(s.m.st, c, r.Key());
    }
  }

  lemma FinishCompactionKeeps(s: Sys, s': Sys, logOk: bool)
    requires InvUp(s) && FinishCompaction(s, s', logOk)
    ensures InvUp(s')
  {
    if s.phase.Noted? && s.j.isOpen && logOk {
      var tail := Concat(s.j.tail);
      forall r | r in tail ensures r in s.issued && r.sn > 0 {
        ConcatHas(s.j.tail, r);
        var b :| b in s.j.tail && r in b;
        assert r in Elems(b) && Elems(b) <= OnLog(s.j.disk);
        assert RecordKept(s.m, r);
      }
      RecordsOfLines(tail);
    }
  }

  lemma BeginCaptureKeeps(s: Sys, s': Sys)
    requires InvUp(s) && BeginCapture(s, s')
    ensures InvUp(s')
  {
    hide Wf, History, Covers, Includes;
  }

  lemma PutSnapshotKeeps(s: Sys, s': Sys)
    requires InvUp(s) && PutSnapshot(s, s')
    ensures InvUp(s')
  {
    hide Wf, History, Covers, Includes;
  }

  lemma BeginCloseKeeps(s: Sys, s': Sys)
    requires InvUp(s) && BeginClose(s, s')
    ensures InvUp(s')
  {
    hide Wf, History, Covers, Includes;
  }

  lemma CloseFileKeeps(s: Sys, s': Sys)
    requires InvUp(s) && CloseFile(s, s')
    ensures InvUp(s')
  {
    hide Wf, History, Covers, Includes;
  }

  // ---- crashes and opens ----

  lemma CrashKeeps(s: Sys, s': Sys, b: seq<Record>, k: nat, torn: bool)
    requires Inv(s) && Crash(s, s', b, k, torn)
    ensures InvDown(s')
  {
    if b != [] { BatchRecords(s, b); }
    LogGrows(s.j.disk, Written(b, k), if torn then [Torn] else []);
    assert OnLog(s'.j.disk) <= OnLog(s.j.disk) + Elems(b);
    if Up(s) {
      forall r | r in s.issued ensures RecordKept(s.m, r) {}
    }
  }

  /** Every entry an open recovers is one the store could have held. */
  lemma RecoveredValues(s: Sys)
    requires InvDown(s)
    ensures OwnValues(Recover(s.j.disk), s.m.clock, s.m.born, s.m.bornW)
  {
    var st := Recover(s.j.disk);
    forall k | Lookup(st, k).Some? ensures OwnValue(k, Lookup(st, k).value, s.m.clock, s.m.born, s.m.bornW) {
      RecoverIsLastWriterWins(s.j.disk, k);
      if r :| Latest(OnLog(s.j.disk), Snapshot(s.j.disk).sn, k, r) {
        DenoteIs(Snapshot(s.j.disk), OnLog(s.j.disk), k, r);
      }
    }
  }

  lemma {:induction false} ReplayStale(st: State, recs: seq<Record>)
    requires forall r :: r in recs ==> r.sn <= st.sn
    ensures ReplayAll(st, recs) == st
  {
    if recs != [] { ReplayStale(st, recs[..|recs| - 1]); }
  }

  /** Opening is idempotent: stopped before the snapshot, between it and the truncation, or after both, opening
      again recovers the same state. */
  lemma OpenIsIdempotent(d: Disk)
    ensures Recover(Disk(Some(Recover(d)), d.log)) == Recover(d)
    ensures Recover(Disk(Some(Recover(d)), [])) == Recover(d)
  {
    var recs := Sorted(Records(d.log));
    ReplaySeq(Snapshot(d), recs);
    ReplayStale(Recover(d), recs);
  }

  lemma FoldLogKeeps(s: Sys, s': Sys)
    requires InvDown(s) && FoldLog(s, s')
    ensures InvDown(s')
  {
    RecoveredValues(s);
    OpenIsIdempotent(s.j.disk);
  }

  /** A store just loaded is covered by the snapshot it was loaded from. */
  lemma LoadedIsCovered(st: State, loaded: Mem)
    requires Sound(loaded) && loaded.st == Store.Loaded(st) && OwnValues(st, loaded.clock, loaded.born, loaded.bornW)
    ensures Covers(st, {}, loaded) && Includes(st, {}) && History(loaded, {})
  {
    NothingToInclude(st);
    NothingToInclude(loaded.st);
    hide Sound, OwnValues, Includes, CoversKey, Store.HandlesSaved, Store.WorkspacesSaved;
    forall k ensures CoversKey(st, {}, loaded, k) { LoadedKeyIsCovered(st, loaded, k); }
  }

  lemma NothingToInclude(c: State)
    ensures Includes(c, {})
  {
  }

  lemma LoadedKeyIsCovered(st: State, loaded: Mem, k: Key)
    requires loaded.st == Store.Loaded(st)
    ensures CoversKey(st, {}, loaded, k)
  {
    assert forall r :: !Latest({}, st.sn, k, r);
  }

  lemma StepNumbers(m: Mem, m': Mem, recs: seq<Record>)
    requires StoreStep(m, m', recs)
    ensures forall r :: r in Elems(recs) ==> r.sn > m.st.sn
  {
  }

  lemma ServeKeeps(s: Sys, s': Sys, loaded: Mem, orphans: seq<Record>)
    requires InvDown(s) && Serve(s, s', loaded, orphans)
    ensures InvUp(s')
  {
    hide Covers, Includes, History, OwnValues, Sound, StoreStep;
    LoadedIsCovered(s.phase.st, loaded);
    HistoryStep(loaded, s'.m, {}, orphans);
    CoversStep(s.phase.st, {}, loaded, s'.m, orphans);
    StepNumbers(loaded, s'.m, orphans);
    IncludesStep(s.phase.st, {}, Elems(orphans));
    assert {} + Elems(orphans) == Elems(orphans);
    UnionAdd({}, orphans);
    assert Flying(s') == Elems(orphans);
  }

  // ---- runs ----

  ghost predicate Run(b: seq<Sys>) {
    |b| > 0 && Init(b[0]) && forall i :: 0 <= i < |b| - 1 ==> Next(b[i], b[i + 1])
  }

  lemma InitHolds(s: Sys)
    requires Init(s)
    ensures Inv(s)
  {
  }

  lemma NextKeeps(s: Sys, s': Sys)
    requires Inv(s) && Next(s, s')
    ensures Inv(s')
  {
    hide InvUp, InvDown, StoreStep, Covers, Includes, History, Wf, OwnValues;
    if recs :| Operate(s, s', recs) { OperateKeeps(s, s', recs); }
    else if b, big :| AppendSynced(s, s', b, big) { AppendSyncedKeeps(s, s', b, big); }
    else if b, k :| AppendBroken(s, s', b, k) { AppendBrokenKeeps(s, s', b, k); }
    else if BeginCapture(s, s') { BeginCaptureKeeps(s, s'); }
    else if PutSnapshot(s, s') { PutSnapshotKeeps(s, s'); }
    else if BeginClose(s, s') { BeginCloseKeeps(s, s'); }
    else if CloseFile(s, s') { CloseFileKeeps(s, s'); }
    else if TakeSnapshot(s, s') { TakeSnapshotKeeps(s, s'); }
    else if NoteWritten(s, s') { NoteWrittenKeeps(s, s'); }
    else if logOk :| FinishCompaction(s, s', logOk) { FinishCompactionKeeps(s, s', logOk); }
    else if b, k, torn :| Crash(s, s', b, k, torn) { CrashKeeps(s, s', b, k, torn); }
    else if FoldLog(s, s') { FoldLogKeeps(s, s'); }
    else { var loaded, orphans :| Serve(s, s', loaded, orphans); ServeKeeps(s, s', loaded, orphans); }
  }

  lemma {:induction false} RunInvariant(b: seq<Sys>, i: nat)
    requires Run(b) && i < |b|
    ensures Inv(b[i])
  {
    if i == 0 {
      InitHolds(b[0]);
    } else {
      RunInvariant(b, i - 1);
      assert Next(b[i - 1], b[i - 1 + 1]);
      NextKeeps(b[i - 1], b[i]);
    }
  }
}
