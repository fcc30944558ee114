/** The relay's journal: a snapshot and an append-only log of the changes since. Each method is what the source
    does while it holds the journal's lock; the disk it works on is a value it replaces, because a crash may happen
    between any two of them. */
module Journal {
  import opened Options
  import opened RelayTypes
  import opened Replay

  /** The journal's fields and the disk under it. `tail` are the batches appended since a compaction began. */
  datatype JState = JState(disk: Disk, isOpen: bool, capture: bool, tail: seq<seq<Record>>, compacting: bool,
    closed: bool)

  /** How a write ends: durable (and `big`: the log outgrew its threshold), or with an error after k whole lines. */
  datatype Outcome = Synced(big: bool) | Broken(k: nat)

  function Lines(recs: seq<Record>): (lines: seq<Line>)
    ensures |lines| == |recs| && forall i :: 0 <= i < |recs| ==> lines[i] == Whole(recs[i])
  {
    seq(|recs|, i requires 0 <= i < |recs| => Whole(recs[i]))
  }

  function Concat(batches: seq<seq<Record>>): seq<Record> {
    if batches == [] then [] else Concat(batches[..|batches| - 1]) + batches[|batches| - 1]
  }

  function Written(recs: seq<Record>, k: nat): seq<Record> { if k < |recs| then recs[..k] else recs }

  // ---- what the locked regions do ----

  function Appended(j: JState, recs: seq<Record>, o: Outcome): JState {
    if !j.isOpen then j
    else match o
      case Broken(k) => j.(disk := j.disk.(log := j.disk.log + Lines(Written(recs, k))))
      case Synced(big) =>
        j.(disk := j.disk.(log := j.disk.log + Lines(recs)),
           tail := if j.capture then j.tail + [recs] else j.tail,
           compacting := j.compacting || (big && !j.closed))
  }

  function CaptureBegun(j: JState): JState { j.(capture := true, tail := []) }

  function SnapshotWritten(j: JState, c: State): JState { j.(disk := j.disk.(snap := Some(c))) }

  /** A compaction ends: with its snapshot on disk, the log becomes what was appended meanwhile. */
  function Finished(j: JState, snapOk: bool, logOk: bool): JState {
    var k := j.(capture := false, tail := [], compacting := false);
    if snapOk && j.isOpen && logOk then k.(disk := j.disk.(log := Lines(Concat(j.tail)))) else k
  }

  class Journal {
    var disk: Disk
    var isOpen: bool
    var capture: bool
    var tail: seq<seq<Record>>
    var compacting: bool
    var closed: bool

    ghost function J(): JState
      reads this
    {
      JState(disk, isOpen, capture, tail, compacting, closed)
    }

    /** A journal over a disk just folded into its snapshot (OpenJournal). */
    constructor (d: Disk)
      ensures J() == JState(d, true, false, [], false, false)
    {
      disk, isOpen, capture, tail, compacting, closed := d, true, false, [], false, false;
    }

    /** Writes a batch and waits until it is durable; `start` asks for a background compaction. */
    method Append(recs: seq<Record>, o: Outcome) returns (ok: bool, start: bool)
      modifies this
      ensures J() == Appended(old(J()), recs, o)
      ensures ok == (old(isOpen) && o.Synced?)
      ensures start == (!old(compacting) && compacting)
      ensures ok ==> disk.log == old(disk.log) + Lines(recs) && (start <==> o.big && !old(compacting) && !old(closed))
      ensures start ==> ok
    {
      var buf: seq<Line> := [];
      for i := 0 to |recs|
        invariant buf == Lines(recs[..i])
      {
        buf := buf + [Whole(recs[i])];
      }
      assert recs[..|recs|] == recs;
      if !isOpen { return false, false; }
      if o.Broken? {
        var n := if o.k < |recs| then o.k else |recs|;
        disk := disk.(log := disk.log + buf[..n]);
        assert buf[..n] == Lines(Written(recs, o.k));
        return false, false;
      }
      disk := disk.(log := disk.log + buf);
      if capture { tail := tail + [recs]; }
      start := o.big && !compacting && !closed;
      if start { compacting := true; }
      ok := true;
    }

    method BeginCapture()
      modifies this
      ensures J() == CaptureBegun(old(J()))
    {
      capture, tail := true, [];
    }

    /** An atomic replace of the snapshot file. */
    method WriteSnapshot(c: State)
      modifies this
      ensures J() == SnapshotWritten(old(J()), c)
    {
      disk := disk.(snap := Some(c));
    }

    method Finish(snapOk: bool, logOk: bool) returns (ok: bool)
      modifies this
      ensures J() == Finished(old(J()), snapOk, logOk) && ok == (snapOk && old(isOpen) && logOk)
    {
      var took := tail;
      capture, tail, compacting := false, [], false;
      if !snapOk || !isOpen { return false; }
      var buf: seq<Record> := [];
      for i := 0 to |took|
        invariant buf == Concat(took[..i])
      {
        assert took[..i + 1][..i] == took[..i];
        buf := buf + took[i];
      }
      assert took[..|took|] == took;
      if !logOk { return false; }
      disk := disk.(log := Lines(buf));
      ok := true;
    }
  }

  // ---- opening ----

  method ReadRecords(log: seq<Line>) returns (recs: seq<Record>)
    ensures recs == Records(log)
  {
    recs := [];
    for i := 0 to |log|
      invariant recs == Records(log[..i])
    {
      assert log[..i + 1][..i] == log[..i];
      if log[i].Whole? && log[i].r.sn > 0 { recs := recs + [log[i].r]; }
    }
    assert log[..|log|] == log;
  }

  lemma {:induction false} InsertBefore(r: Record, recs: seq<Record>, k: nat)
    requires k <= |recs| && forall j :: k <= j < |recs| ==> r.sn < recs[j].sn
    requires k == 0 || recs[k - 1].sn <= r.sn
    ensures Insert(r, recs) == recs[..k] + [r] + recs[k..]
  {
    if k < |recs| {
      var front := recs[..|recs| - 1];
      InsertBefore(r, front, k);
      assert front[k..] + [recs[|recs| - 1]] == recs[k..];
    } else {
      assert recs[..k] == recs;
    }
  }

  method InsertRecord(recs: seq<Record>, r: Record) returns (out: seq<Record>)
    ensures out == Insert(r, recs)
  {
    var k := |recs|;
    while k > 0 && recs[k - 1].sn > r.sn
      invariant 0 <= k <= |recs|
      invariant forall j :: k <= j < |recs| ==> r.sn < recs[j].sn
    {
      k := k - 1;
    }
    InsertBefore(r, recs, k);
    out := recs[..k] + [r] + recs[k..];
  }

  /** Sorts by sequence number. */
  method SortRecords(recs: seq<Record>) returns (out: seq<Record>)
    ensures out == Sorted(recs)
  {
    out := [];
    for i := 0 to |recs|
      invariant out == Sorted(recs[..i])
    {
      assert recs[..i + 1][..i] == recs[..i];
      out := InsertRecord(out, recs[i]);
    }
    assert recs[..|recs|] == recs;
  }

  method ReplayRecords(from: State, sorted: seq<Record>) returns (st: State)
    ensures st == ReplayAll(from, sorted)
  {
    st := from;
    for i := 0 to |sorted|
      invariant st == ReplayAll(from, sorted[..i])
    {
      assert sorted[..i + 1][..i] == sorted[..i];
      var r := sorted[i];
      if r.sn > st.sn {
        match r {
          case HandleRec(_, id, hv) =>
            st := st.(handles := if hv.Some? then st.handles[id := hv.value] else st.handles - {id});
          case WorkspaceRec(_, id, wv) =>
            st := st.(workspaces := if wv.Some? then st.workspaces[id := wv.value] else st.workspaces - {id});
        }
        st := st.(sn := r.sn);
      }
    }
    assert sorted[..|sorted|] == sorted;
  }

  /** Loads the snapshot, replays the log onto it in sequence order, folds the result into a new snapshot when the
      log held anything (or there was no snapshot), and truncates the log. */
  method OpenJournal(d: Disk) returns (st: State, folded: Disk, emptied: Disk)
    ensures st == Recover(d) && folded == Disk(Some(st), d.log) && emptied == Disk(Some(st), [])
  {
    st := if d.snap.Some? then d.snap.value else EMPTY;
    var recs := ReadRecords(d.log);
    var sorted := SortRecords(recs);
    st := ReplayRecords(st, sorted);
    folded := d;
    if |recs| > 0 || d.snap.None? { folded := d.(snap := Some(st)); }
    emptied := folded.(log := []);
  }

  // ---- records of a log ----

  lemma {:induction false} RecordsConcat(a: seq<Line>, b: seq<Line>)
    ensures Records(a + b) == Records(a) + Records(b)
  {
    if b == [] {
      assert a + b == a;
    } else {
      RecordsConcat(a, b[..|b| - 1]);
      assert (a + b)[..|a + b| - 1] == a + b[..|b| - 1];
    }
  }

  lemma {:induction false} RecordsOfLines(recs: seq<Record>)
    requires forall r :: r in recs ==> r.sn > 0
    ensures Records(Lines(recs)) == recs
  {
    if recs != [] {
      RecordsOfLines(recs[..|recs| - 1]);
      assert Lines(recs)[..|recs| - 1] == Lines(recs[..|recs| - 1]);
    }
  }

  lemma {:induction false} ConcatHas(batches: seq<seq<Record>>, r: Record)
    ensures r in Concat(batches) <==> exists b :: b in batches && r in b
  {
    if batches != [] {
      ConcatHas(batches[..|batches| - 1], r);
      assert batches == batches[..|batches| - 1] + [batches[|batches| - 1]];
    }
  }
}
