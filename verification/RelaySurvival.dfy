/** An acknowledged change outlives every later crash, reopening and compaction, not only the crash that ends the
    process it was made in. */
module RelaySurvival {
  import opened Options
  import opened RelayTypes
  import opened Replay
  import opened StoreSpec
  import opened Journal
  import opened RelaySystem
  import opened RelayTheorems
  import Store

  // ---- what is carried on ----

  /** A key's value goes on from a record's; `live`: and is there. */
  predicate From(a: Record, live: bool, v: Option<Entry>) {
    (v.Some? ==> a.Value().Some? && Evolves(a.Value().value, v.value)) && (live ==> v.Some?)
  }

  predicate CarriedBy(a: Record, live: bool, c: State) { c.sn >= a.sn ==> From(a, live, Lookup(c, a.Key())) }

  /** Snapshot c with a log tells the record's key's value from this record on. */
  ghost predicate Reaches(a: Record, c: State, log: set<Record>) {
    c.sn >= a.sn || exists r :: r in log && r.Key() == a.Key() && r.sn >= a.sn
  }

  ghost predicate IssuedCarry(a: Record, live: bool, issued: set<Record>) {
    forall r :: r in issued && r.Key() == a.Key() && r.sn >= a.sn ==> From(a, live, r.Value())
  }

  /** Memory, every record handed out since, and both what is on disk and what a compaction is about to put there go on
      from the record; with no process, what an open recovers does. */
  ghost predicate Survives(s: Sys, a: Record, live: bool) {
    && Born(s.m, a.Key())
    && if Up(s) then
         && s.m.st.sn >= a.sn && From(a, live, Lookup(s.m.st, a.Key())) && IssuedCarry(a, live, s.issued)
         && CarriedBy(a, live, Snapshot(s.j.disk)) && Reaches(a, Snapshot(s.j.disk), OnLog(s.j.disk))
         && (Compacting(s) ==> CarriedBy(a, live, s.phase.c) && Reaches(a, s.phase.c, Elems(Concat(s.j.tail))))
       else
         From(a, live, Lookup(Recover(s.j.disk), a.Key())) && Recover(s.j.disk).sn >= a.sn
  }

  /** A later operation deleted the record's key. */
  ghost predicate DeletedSince(s: Sys, a: Record) {
    exists r :: r in s.issued && r.Key() == a.Key() && r.sn >= a.sn && r.Value().None?
  }

  lemma FromLater(a: Record, live: bool, v: Option<Entry>, w: Option<Entry>)
    requires From(a, live, v) && (w.Some? ==> v.Some? && Evolves(v.value, w.value)) && (live ==> w.Some?)
    ensures From(a, live, w)
  {
    if w.Some? { EvolvesTransitive(a.Value().value, v.value, w.value); }
  }

  // ---- where it starts ----

  /** A record handed out carries on in memory and in every snapshot that includes it. */
  lemma IssuedSurvives(issued: set<Record>, m: Mem, c: State, a: Record, live: bool)
    requires UniqueSeqs(issued) && InOrder(issued) && Includes(c, issued) && a in issued && a.sn > 0
    requires live ==> forall r :: r in issued && r.Key() == a.Key() && r.sn >= a.sn ==> r.Value().Some?
    ensures IssuedCarry(a, live, issued) && CarriedBy(a, live, c)
  {
    forall r | r in issued && r.Key() == a.Key() && r.sn >= a.sn ensures From(a, live, r.Value()) {
      if r.sn > a.sn { assert Follows(a, r); } else { assert r == a; }
    }
    if c.sn >= a.sn {
      NewestExists(issued, c.sn, a);
      var r :| Newest(issued, c.sn, r) && r.Key() == a.Key() && r.sn >= a.sn;
      assert Reflects(r.Value(), Lookup(c, a.Key()));
      FromReflects(a, live, r.Value(), Lookup(c, a.Key()));
    }
  }

  lemma FromReflects(a: Record, live: bool, v: Option<Entry>, w: Option<Entry>)
    requires From(a, live, v) && Reflects(v, w)
    ensures From(a, live, w)
  {
    if w.Some? { CoreEvolves(v.value, w.value); }
    FromLater(a, live, v, w);
  }

  lemma CoreEvolves(v: Entry, w: Entry)
    requires v.Core() == w.Core() && v.Used() <= w.Used()
    ensures Evolves(v, w)
  {
    assert v.Core().HEntry? == v.HEntry?;
    if v.HEntry? {
      assert v.Core().h.parent == v.h.parent && w.Core().h.parent == w.h.parent;
      assert v.Core().h.typ == v.h.typ && w.Core().h.typ == w.h.typ;
      assert v.Core().h.created == v.h.created && w.Core().h.created == w.h.created;
      assert v.Core().h.workspace == v.h.workspace && w.Core().h.workspace == w.h.workspace;
    } else {
      assert v.Core().w.keyHash == v.w.keyHash && w.Core().w.keyHash == w.w.keyHash;
      assert v.Core().w.created == v.w.created && w.Core().w.created == w.w.created;
    }
  }

  lemma AcknowledgedStarts(s: Sys, a: Record, live: bool)
    requires Up(s) && InvUp(s) && a in s.acked && (live ==> a.Value().Some? && !DeletedSince(s, a))
    ensures Survives(s, a, live)
  {
    assert a in s.issued && RecordKept(s.m, a);
    IssuedSurvives(s.issued, s.m, s.m.st, a, live);
    IssuedSurvives(s.issued, s.m, s.j.disk.snap.value, a, live);
    if Compacting(s) { IssuedSurvives(s.issued, s.m, s.phase.c, a, live); }
  }

  // ---- an operation ----

  lemma OperationCarries(m: Mem, m': Mem, recs: seq<Record>, a: Record, live: bool)
    requires StoreStep(m, m', recs) && Born(m, a.Key()) && m.st.sn >= a.sn && From(a, live, Lookup(m.st, a.Key()))
    requires live ==> forall r :: r in recs && r.Key() == a.Key() && r.sn >= a.sn ==> r.Value().Some?
    ensures Born(m', a.Key()) && m'.st.sn >= a.sn && From(a, live, Lookup(m'.st, a.Key()))
    ensures forall r :: r in recs && r.Key() == a.Key() ==> From(a, live, r.Value())
  {
    var k := a.Key();
    NewNumbers(m, m', recs);
    assert forall r :: r in recs ==> r in Elems(recs);
    hide InOrder, Numbered, OwnValue;
    forall r | r in recs && r.Key() == k ensures From(a, live, r.Value()) {
      assert RecordStep(m, m', r);
      FromLater(a, live, Lookup(m.st, k), r.Value());
    }
    assert KeyStep(m, m', recs, k);
    var last := LastOn(recs, k);
    if last.Some? {
      LastOnIsIn(recs, k);
      TouchedCarries(a, live, last.value.Value(), Lookup(m'.st, k));
    } else {
      TouchedCarries(a, live, Lookup(m.st, k), Lookup(m'.st, k));
    }
  }

  lemma TouchedCarries(a: Record, live: bool, v: Option<Entry>, w: Option<Entry>)
    requires From(a, live, v) && Touched(v, w)
    ensures From(a, live, w)
  {
    FromReflects(a, live, v, w);
  }

  // ---- recovery ----

  lemma RecoverCarries(d: Disk, issued: set<Record>, a: Record, live: bool)
    requires UniqueSeqs(OnLog(d)) && OnLog(d) <= issued && IssuedCarry(a, live, issued)
    requires CarriedBy(a, live, Snapshot(d)) && Reaches(a, Snapshot(d), OnLog(d))
    ensures From(a, live, Lookup(Recover(d), a.Key())) && Recover(d).sn >= a.sn
  {
    var c, k, rs := Snapshot(d), a.Key(), OnLog(d);
    RecoverIsLastWriterWins(d, k);
    RecoveredNumber(d);
    if r :| Latest(rs, c.sn, k, r) {
      DenoteIs(c, rs, k, r);
      if c.sn < a.sn {
        var x :| x in rs && x.Key() == k && x.sn >= a.sn;
        assert x.sn <= r.sn;
      }
    } else if c.sn < a.sn {
      var x :| x in rs && x.Key() == k && x.sn >= a.sn;
      LatestExists(rs, c.sn, k, x);
    }
  }

  lemma RecoveredNumber(d: Disk)
    ensures Recover(d).sn >= Snapshot(d).sn && forall r :: r in OnLog(d) ==> r.sn <= Recover(d).sn
  {
    var recs := Records(d.log);
    SortedSorts(recs);
    ReplaySeq(Snapshot(d), Sorted(recs));
    assert forall r :: r in OnLog(d) ==> r in Elems(Sorted(recs));
  }

  // ---- steps ----

  lemma OperateSurvives(s: Sys, s': Sys, recs: seq<Record>, a: Record, live: bool)
    requires InvUp(s) && Survives(s, a, live) && Operate(s, s', recs) && (live ==> !DeletedSince(s', a))
    ensures Survives(s', a, live)
  {
    hide History, Covers, Includes, Wf, StoreStep, DeletedSince, Reaches;
    if live { NoDeletion(s', a, recs); }
    NewNumbers(s.m, s'.m, recs);
    assert forall r :: r in recs <==> r in Elems(recs);
    OperationCarries(s.m, s'.m, recs, a, live);
  }

  lemma ReachesMore(a: Record, c: State, log: set<Record>, log': set<Record>)
    requires Reaches(a, c, log) && log <= log'
    ensures Reaches(a, c, log')
  {
  }

  lemma AppendSurvives(s: Sys, s': Sys, b: seq<Record>, o: Outcome, a: Record, live: bool)
    requires InvUp(s) && Up(s) && Up(s') && Survives(s, a, live) && b in s.flying && s'.j == Appended(s.j, b, o)
    requires s'.m == s.m && s'.issued == s.issued && s'.phase == s.phase
    ensures Survives(s', a, live)
  {
    hide History, Covers, Includes, Wf;
    BatchRecords(s, b);
    if s.j.isOpen {
      var w := if o.Broken? then Written(b, o.k) else b;
      LogGrows(s.j.disk, w, []);
      assert s.j.disk.log + Lines(w) + [] == s.j.disk.log + Lines(w);
      if o.Synced? && s.j.capture { assert s'.j.tail[..|s'.j.tail| - 1] == s.j.tail; }
    }
    TailGrows(s.j, b, o);
    hide Concat, Recover;
    ReachesMore(a, Snapshot(s.j.disk), OnLog(s.j.disk), OnLog(s'.j.disk));
    if Compacting(s) { ReachesMore(a, s.phase.c, Elems(Concat(s.j.tail)), Elems(Concat(s'.j.tail))); }
  }

  lemma TailGrows(j: JState, b: seq<Record>, o: Outcome)
    ensures Elems(Concat(j.tail)) <= Elems(Concat(Appended(j, b, o).tail))
  {
    if o.Synced? && j.isOpen && j.capture { assert (j.tail + [b])[..|j.tail|] == j.tail; }
  }

  lemma SnapshotSurvives(s: Sys, s': Sys, a: Record, live: bool)
    requires InvUp(s) && Survives(s, a, live) && (TakeSnapshot(s, s') || PutSnapshot(s, s'))
    ensures Survives(s', a, live)
  {
    hide History, Covers, Includes, Wf, Recover;
    if PutSnapshot(s, s') && s'.phase.OnDisk? {
      TailOnLog(s);
      ReachesMore(a, s.phase.c, Elems(Concat(s.j.tail)), OnLog(s.j.disk));
    }
  }

  lemma TailOnLog(s: Sys)
    requires InvUp(s)
    ensures Elems(Concat(s.j.tail)) <= OnLog(s.j.disk)
  {
    forall r | r in Elems(Concat(s.j.tail)) ensures r in OnLog(s.j.disk) {
      ConcatHas(s.j.tail, r);
      var b :| b in s.j.tail && r in b;
      assert r in Elems(b);
    }
  }

  lemma NotedSurvives(s: Sys, s': Sys, a: Record, live: bool)
    requires InvUp(s) && Survives(s, a, live) && NoteWritten(s, s')
    ensures Survives(s', a, live)
  {
    hide History, Covers, Includes, Wf, Recover, Concat;
    Store.NotedLookup(s.m.st, s.phase.c, a.Key());
    FromReflects(a, live, Lookup(s.m.st, a.Key()), Lookup(s'.m.st, a.Key()));
  }

  lemma FinishSurvives(s: Sys, s': Sys, logOk: bool, a: Record, live: bool)
    requires InvUp(s) && Survives(s, a, live) && FinishCompaction(s, s', logOk)
    ensures Survives(s', a, live)
  {
    hide History, Covers, Includes, Wf, Recover;
    if s.phase.Noted? && s.j.isOpen && logOk {
      var recs := Concat(s.j.tail);
      TailOnLog(s);
      forall r | r in recs ensures r.sn > 0 {
        assert r in Elems(recs) && r in s.issued;
        assert RecordKept(s.m, r) by { assert History(s.m, s.issued); HistoryKeeps(s.m, s.issued, r); }
      }
      RecordsOfLines(recs);
    }
  }

  lemma HistoryKeeps(m: Mem, issued: set<Record>, r: Record)
    requires History(m, issued) && r in issued
    ensures RecordKept(m, r)
  {
  }

  lemma OthersSurvive(s: Sys, s': Sys, a: Record, live: bool)
    requires InvUp(s) && Survives(s, a, live) && (BeginCapture(s, s') || BeginClose(s, s') || CloseFile(s, s'))
    ensures Survives(s', a, live)
  {
    hide History, Covers, Includes, Wf, Recover, Concat;
  }

  /** A crash, wherever it comes. */
  lemma CrashSurvives(s: Sys, s': Sys, b: seq<Record>, k: nat, torn: bool, a: Record, live: bool)
    requires Inv(s) && Survives(s, a, live) && Crash(s, s', b, k, torn)
    ensures Survives(s', a, live)
  {
    if b != [] { BatchRecords(s, b); }
    var t := if torn then [Torn] else [];
    LogGrows(s.j.disk, Written(b, k), t);
    var d, d' := s.j.disk, s'.j.disk;
    if Up(s) {
      assert OnLog(d') <= s.issued && UniqueSeqs(s.issued);
      hide History, Covers, Includes, Wf, Recover;
      ReachesMore(a, Snapshot(d), OnLog(d), OnLog(d'));
      RecoverCarries(d', s.issued, a, live);
    } else {
      assert b == [] && Written(b, k) == [];
      TornTail(d, t);
    }
  }

  lemma TornTail(d: Disk, torn: seq<Line>)
    requires forall i :: 0 <= i < |torn| ==> torn[i] == Torn
    ensures Recover(d.(log := d.log + Lines([]) + torn)) == Recover(d)
  {
    assert d.log + Lines([]) + torn == d.log + torn;
    RecordsConcat(d.log, torn);
    NoRecordsTorn(torn);
    assert Records(d.log) + [] == Records(d.log);
  }

  /** An open, its fold and its removal of orphans. */
  lemma OpenSurvives(s: Sys, s': Sys, loaded: Mem, orphans: seq<Record>, a: Record, live: bool)
    requires InvDown(s) && Survives(s, a, live) && Serve(s, s', loaded, orphans) && (live ==> !DeletedSince(s', a))
    ensures Survives(s', a, live)
  {
    DownHolds(s, a, live);
    var c := s.phase.st;
    hide Wf, Sound, InvDown, StoreStep, OnLog, Concat, DeletedSince, Survives;
    if live { NoDeletion(s', a, orphans); }
    LoadedValue(c, a.Key());
    FromReflects(a, live, Lookup(c, a.Key()), Lookup(loaded.st, a.Key()));
    NewNumbers(loaded, s'.m, orphans);
    assert forall r :: r in orphans <==> r in Elems(orphans);
    OperationCarries(loaded, s'.m, orphans, a, live);
    ServedSurvives(s', c, a, live);
  }

  lemma DownHolds(s: Sys, a: Record, live: bool)
    requires InvDown(s) && s.phase.Folded? && Survives(s, a, live)
    ensures Born(s.m, a.Key()) && From(a, live, Lookup(s.phase.st, a.Key())) && s.phase.st.sn >= a.sn
  {
    FoldedRecovers(s);
    hide Recover;
  }

  lemma ServedSurvives(s: Sys, c: State, a: Record, live: bool)
    requires s.phase == Idle && s.j.disk.snap == Some(c) && c.sn >= a.sn && From(a, live, Lookup(c, a.Key()))
    requires Born(s.m, a.Key()) && s.m.st.sn >= a.sn && From(a, live, Lookup(s.m.st, a.Key()))
      && IssuedCarry(a, live, s.issued)
    ensures Survives(s, a, live)
  {
    hide OnLog, Concat, Recover;
  }

  lemma FoldedRecovers(s: Sys)
    requires InvDown(s)
    ensures s.phase.Folded? ==> Recover(s.j.disk) == s.phase.st
  {
  }

  lemma NoDeletion(s: Sys, a: Record, recs: seq<Record>)
    requires !DeletedSince(s, a) && Elems(recs) <= s.issued
    ensures forall r :: r in recs && r.Key() == a.Key() && r.sn >= a.sn ==> r.Value().Some?
  {
    assert forall r :: r in recs ==> r in Elems(recs);
  }

  lemma LoadedValue(c: State, k: Key)
    ensures Store.Loaded(c).sn == c.sn && Reflects(Lookup(c, k), Lookup(Store.Loaded(c), k))
  {
  }

  lemma FoldSurvives(s: Sys, s': Sys, a: Record, live: bool)
    requires InvDown(s) && Survives(s, a, live) && FoldLog(s, s')
    ensures Survives(s', a, live)
  {
    OpenIsIdempotent(s.j.disk);
  }

  lemma StepSurvives(s: Sys, s': Sys, a: Record, live: bool)
    requires Inv(s) && Survives(s, a, live) && Next(s, s') && (live ==> !DeletedSince(s', a))
    ensures Survives(s', a, live)
  {
    hide InvUp, InvDown, Survives, DeletedSince;
    if recs :| Operate(s, s', recs) { OperateSurvives(s, s', recs, a, live); }
    else if b, big :| AppendSynced(s, s', b, big) { AppendSurvives(s, s', b, Synced(big), a, live); }
    else if b, k :| AppendBroken(s, s', b, k) { AppendSurvives(s, s', b, Broken(k), a, live); }
    else if TakeSnapshot(s, s') || PutSnapshot(s, s') { SnapshotSurvives(s, s', a, live); }
    else if NoteWritten(s, s') { NotedSurvives(s, s', a, live); }
    else if logOk :| FinishCompaction(s, s', logOk) { FinishSurvives(s, s', logOk, a, live); }
    else if BeginCapture(s, s') || BeginClose(s, s') || CloseFile(s, s') { OthersSurvive(s, s', a, live); }
    else if b, k, torn :| Crash(s, s', b, k, torn) { CrashSurvives(s, s', b, k, torn, a, live); }
    else if FoldLog(s, s') { FoldSurvives(s, s', a, live); }
    else {
      var loaded, orphans :| Serve(s, s', loaded, orphans);
      OpenSurvives(s, s', loaded, orphans, a, live);
    }
  }

  // ---- runs ----

  /** What the relay holds for a key: its memory's value, or, with no process, what an open would recover. */
  function Held(s: Sys, k: Key): Option<Entry> { Lookup(if Up(s) then s.m.st else Recover(s.j.disk), k) }

  lemma {:induction false} RunSurvives(b: seq<Sys>, i: nat, j: nat, a: Record, live: bool)
    requires Run(b) && i <= j < |b| && Up(b[i]) && a in b[i].acked
    requires live ==> a.Value().Some? && forall n :: i <= n <= j ==> !DeletedSince(b[n], a)
    ensures Survives(b[j], a, live)
  {
    hide Run, Survives, DeletedSince, Next;
    RunInvariant(b, if i < j then j - 1 else i);
    if i == j {
      AcknowledgedStarts(b[i], a, live);
    } else {
      RunSurvives(b, i, j - 1, a, live);
      RunStep(b, j - 1);
      StepSurvives(b[j - 1], b[j], a, live);
    }
  }

  /** From the moment a change is acknowledged, through every later crash, reopening and compaction: what the relay
      holds for its key went on from it. So an acknowledged deletion never comes back, and an acknowledged value is lost
      to nothing but a later operation that deletes it. */
  lemma AcknowledgedSurvivesForever(b: seq<Sys>, i: nat, j: nat, a: Record)
    requires Run(b) && i <= j < |b| && Up(b[i]) && a in b[i].acked
    ensures var v := Held(b[j], a.Key());
      && (v.Some? ==> a.Value().Some? && Evolves(a.Value().value, v.value))
      && (a.Value().Some? && (forall n :: i <= n <= j ==> !DeletedSince(b[n], a)) ==> v.Some?)
  {
    hide Run, DeletedSince;
    RunSurvives(b, i, j, a, false);
    SurvivesHeld(b[j], a, false);
    if a.Value().Some? && forall n :: i <= n <= j ==> !DeletedSince(b[n], a) {
      RunSurvives(b, i, j, a, true);
      SurvivesHeld(b[j], a, true);
    }
  }

  lemma SurvivesHeld(s: Sys, a: Record, live: bool)
    requires Survives(s, a, live)
    ensures From(a, live, Held(s, a.Key()))
  {
    hide Recover;
  }

  /** Once a binding is acknowledged, the handle is its workspace's, or gone, in every later life of the relay. */
  lemma BindingSurvivesForever(b: seq<Sys>, i: nat, j: nat, a: Record, id: Id, ws: Id)
    requires Run(b) && i <= j < |b| && Up(b[i]) && a in b[i].acked
    requires a.HandleRec? && a.id == id && a.hv.Some? && a.hv.value.workspace == ws != ""
    ensures var v := Held(b[j], HKey(id)); v.Some? ==> v.value.HEntry? && v.value.h.workspace == ws
  {
    AcknowledgedSurvivesForever(b, i, j, a);
  }
}
