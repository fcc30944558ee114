/** Opening the relay's state: the journal replayed onto the snapshot, in sequence order. */
module Replay {
  import opened Options
  import opened RelayTypes

  function Apply(st: State, r: Record): State {
    match r
    case HandleRec(_, id, Some(hv)) => st.(handles := st.handles[id := hv])
    case HandleRec(_, id, None) => st.(handles := st.handles - {id})
    case WorkspaceRec(_, id, Some(wv)) => st.(workspaces := st.workspaces[id := wv])
    case WorkspaceRec(_, id, None) => st.(workspaces := st.workspaces - {id})
  }

  lemma ApplyLookup(st: State, r: Record, k: Key)
    ensures Lookup(Apply(st, r), k) == if r.Key() == k then r.Value() else Lookup(st, k)
  {
  }

  /** A record at or below the state's seq is in it already. */
  function ReplayOne(st: State, r: Record): State {
    if r.sn > st.sn then Apply(st, r).(sn := r.sn) else st
  }

  function ReplayAll(st: State, recs: seq<Record>): State {
    if recs == [] then st else ReplayOne(ReplayAll(st, recs[..|recs| - 1]), recs[|recs| - 1])
  }

  predicate Ascending(recs: seq<Record>) {
    forall i, j :: 0 <= i < j < |recs| ==> recs[i].sn <= recs[j].sn
  }

  /** The store hands each sequence number out once. */
  ghost predicate UniqueSeqs(rs: set<Record>) {
    forall a, b :: a in rs && b in rs && a.sn == b.sn ==> a == b
  }

  function Elems(recs: seq<Record>): set<Record> { set r | r in recs }

  // ---- last writer wins ----

  /** r is the newest record on k above sequence number `from`. */
  ghost predicate Latest(rs: set<Record>, from: nat, k: Key, r: Record) {
    r in rs && r.Key() == k && r.sn > from &&
    forall x :: x in rs && x.Key() == k && x.sn > from ==> x.sn <= r.sn
  }

  /** What a snapshot together with a set of records says about a key. */
  ghost function Denote(snap: State, rs: set<Record>, k: Key): Option<Entry> {
    if exists r :: Latest(rs, snap.sn, k, r) then
      var r :| Latest(rs, snap.sn, k, r); r.Value()
    else Lookup(snap, k)
  }

  lemma DenoteIs(snap: State, rs: set<Record>, k: Key, r: Record)
    requires UniqueSeqs(rs) && Latest(rs, snap.sn, k, r)
    ensures Denote(snap, rs, k) == r.Value()
  {
  }

  lemma {:induction false} LatestExists(rs: set<Record>, from: nat, k: Key, x: Record)
    requires x in rs && x.Key() == k && x.sn > from
    ensures exists r :: Latest(rs, from, k, r)
  {
    var rest := rs - {x};
    if y :| y in rest && y.Key() == k && y.sn > from {
      LatestExists(rest, from, k, y);
      var r :| Latest(rest, from, k, r);
      assert Latest(rs, from, k, if x.sn > r.sn then x else r);
    } else {
      assert Latest(rs, from, k, x);
    }
  }

  /** Only the key's records above the snapshot's seq matter. */
  lemma DenoteSame(snap: State, rs: set<Record>, rs': set<Record>, k: Key)
    requires UniqueSeqs(rs) && UniqueSeqs(rs')
    requires forall r: Record :: r.Key() == k && r.sn > snap.sn ==> (r in rs <==> r in rs')
    ensures Denote(snap, rs, k) == Denote(snap, rs', k)
  {
    forall r ensures Latest(rs, snap.sn, k, r) == Latest(rs', snap.sn, k, r) {}
    if r :| Latest(rs, snap.sn, k, r) {
      DenoteIs(snap, rs, k, r);
      DenoteIs(snap, rs', k, r);
    }
  }

  lemma {:induction false} ReplaySeq(st: State, recs: seq<Record>)
    ensures var t := ReplayAll(st, recs);
      t.sn >= st.sn && (forall r :: r in recs ==> r.sn <= t.sn) &&
      (t.sn == st.sn || exists r :: r in recs && r.sn == t.sn)
  {
    if recs != [] {
      ReplaySeq(st, recs[..|recs| - 1]);
      forall r | r in recs ensures r in recs[..|recs| - 1] || r == recs[|recs| - 1] {}
    }
  }

  /** Replaying a sorted log gives every key the value of its newest record above the snapshot. */
  lemma {:induction false} ReplayIsLastWriterWins(st: State, recs: seq<Record>, k: Key)
    requires Ascending(recs) && UniqueSeqs(Elems(recs))
    ensures Lookup(ReplayAll(st, recs), k) == Denote(st, Elems(recs), k)
  {
    if recs != [] {
      var front, last := recs[..|recs| - 1], recs[|recs| - 1];
      assert Elems(recs) == Elems(front) + {last};
      ReplayIsLastWriterWins(st, front, k);
      ReplaySeq(st, front);
      var mid := ReplayAll(st, front);
      ApplyLookup(mid, last, k);
      if last.sn > mid.sn && last.Key() == k {
        assert Latest(Elems(recs), st.sn, k, last);
        DenoteIs(st, Elems(recs), k, last);
      } else if last.sn > mid.sn {
        OtherKeyAdded(st, Elems(front), last, k);
      } else {
        // a duplicate of a record already replayed, or one the snapshot holds
        if last.sn > st.sn {
          var dup :| dup in front && dup.sn == mid.sn;
          assert dup in Elems(recs) && last in Elems(recs);
        }
        DenoteSame(st, Elems(front), Elems(recs), k);
      }
    }
  }

  lemma OtherKeyAdded(st: State, rs: set<Record>, x: Record, k: Key)
    requires UniqueSeqs(rs + {x}) && x.Key() != k
    ensures Denote(st, rs + {x}, k) == Denote(st, rs, k)
  {
    forall r ensures Latest(rs + {x}, st.sn, k, r) == Latest(rs, st.sn, k, r) {}
    if r :| Latest(rs, st.sn, k, r) {
      DenoteIs(st, rs, k, r);
      DenoteIs(st, rs + {x}, k, r);
    }
  }

  /** Neither the order nor the stale or repeated records of two logs shows in what they replay to. */
  lemma ReplayDependsOnlyOnNewRecords(st: State, a: seq<Record>, b: seq<Record>)
    requires Ascending(a) && Ascending(b) && UniqueSeqs(Elems(a)) && UniqueSeqs(Elems(b))
    requires forall r: Record :: r.sn > st.sn ==> (r in a <==> r in b)
    ensures ReplayAll(st, a) == ReplayAll(st, b)
  {
    forall k ensures Lookup(ReplayAll(st, a), k) == Lookup(ReplayAll(st, b), k) {
      ReplayIsLastWriterWins(st, a, k);
      ReplayIsLastWriterWins(st, b, k);
      DenoteSame(st, Elems(a), Elems(b), k);
    }
    ReplaySeq(st, a);
    ReplaySeq(st, b);
    SameLookups(ReplayAll(st, a), ReplayAll(st, b));
  }

  // ---- sorting ----

  function Insert(r: Record, recs: seq<Record>): seq<Record> {
    if recs == [] || recs[|recs| - 1].sn <= r.sn then recs + [r]
    else Insert(r, recs[..|recs| - 1]) + [recs[|recs| - 1]]
  }

  function Sorted(recs: seq<Record>): seq<Record> {
    if recs == [] then [] else Insert(recs[|recs| - 1], Sorted(recs[..|recs| - 1]))
  }

  lemma {:induction false} InsertKeeps(r: Record, recs: seq<Record>)
    ensures multiset(Insert(r, recs)) == multiset(recs) + multiset{r}
  {
    if recs == [] || recs[|recs| - 1].sn <= r.sn {
    } else {
      InsertKeeps(r, recs[..|recs| - 1]);
      assert recs == recs[..|recs| - 1] + [recs[|recs| - 1]];
    }
  }

  lemma {:induction false} InsertSorts(r: Record, recs: seq<Record>)
    requires Ascending(recs)
    ensures Ascending(Insert(r, recs))
  {
    if recs == [] || recs[|recs| - 1].sn <= r.sn {
    } else {
      var front, last := recs[..|recs| - 1], recs[|recs| - 1];
      InsertSorts(r, front);
      InsertKeeps(r, front);
      forall i | 0 <= i < |Insert(r, front)| ensures Insert(r, front)[i].sn <= last.sn {
        assert Insert(r, front)[i] in multiset(Insert(r, front));
        assert Insert(r, front)[i] in front || Insert(r, front)[i] == r;
      }
    }
  }

  lemma {:induction false} SortedKeeps(recs: seq<Record>)
    ensures multiset(Sorted(recs)) == multiset(recs)
  {
    if recs != [] {
      SortedKeeps(recs[..|recs| - 1]);
      InsertKeeps(recs[|recs| - 1], Sorted(recs[..|recs| - 1]));
      assert recs == recs[..|recs| - 1] + [recs[|recs| - 1]];
    }
  }

  lemma {:induction false} SortedSorts(recs: seq<Record>)
    ensures Ascending(Sorted(recs)) && Elems(Sorted(recs)) == Elems(recs)
  {
    if recs != [] {
      SortedSorts(recs[..|recs| - 1]);
      InsertSorts(recs[|recs| - 1], Sorted(recs[..|recs| - 1]));
    }
    SortedKeeps(recs);
    SameElems(Sorted(recs), recs);
  }

  lemma SameElems(a: seq<Record>, b: seq<Record>)
    requires multiset(a) == multiset(b)
    ensures Elems(a) == Elems(b)
  {
    forall r ensures r in Elems(a) <==> r in Elems(b) {
      assert r in a <==> r in multiset(a);
      assert r in b <==> r in multiset(b);
    }
  }

  // ---- the disk ----

  /** A whole journal line, or what a crash left of one. */
  datatype Line = Whole(r: Record) | Torn

  datatype Disk = Disk(snap: Option<State>, log: seq<Line>)

  /** The records of a log: everything but torn writes, and no record has seq 0. */
  function Records(log: seq<Line>): seq<Record> {
    if log == [] then []
    else
      var rest := Records(log[..|log| - 1]);
      var l := log[|log| - 1];
      if l.Whole? && l.r.sn > 0 then rest + [l.r] else rest
  }

  function Snapshot(d: Disk): State { if d.snap.Some? then d.snap.value else EMPTY }

  /** The state an open recovers. */
  function Recover(d: Disk): State { ReplayAll(Snapshot(d), Sorted(Records(d.log))) }

  lemma RecoverIsLastWriterWins(d: Disk, k: Key)
    requires UniqueSeqs(Elems(Records(d.log)))
    ensures Lookup(Recover(d), k) == Denote(Snapshot(d), Elems(Records(d.log)), k)
  {
    SortedSorts(Records(d.log));
    ReplayIsLastWriterWins(Snapshot(d), Sorted(Records(d.log)), k);
  }
}
