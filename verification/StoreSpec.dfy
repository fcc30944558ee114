/** What the store's memory must look like between operations, and what an operation may do to it. */
module StoreSpec {
  import opened Options
  import opened RelayTypes
  import opened Replay

  const USED_EVERY := 24 * 3600 // seconds

  /** The store's memory. The last three fields are history: `clock` is the newest time an operation saw,
      `born` maps every handle id ever minted to its parent at birth, `bornW` every workspace id to its key hash. */
  datatype Mem = Mem(
    st: State, children: map<Id, set<Id>>, byHash: map<string, Id>, lastSweep: int,
    clock: nat, born: map<Id, Id>, bornW: map<Id, string>)

  // ---- well-formed memory ----

  /** Births: a Live Activity handle is minted under a device handle, and no two keys hash alike. */
  ghost predicate WfBirths(born: map<Id, Id>, bornW: map<Id, string>) {
    && "" !in born && "" !in bornW
    && (forall id :: id in born && born[id] != "" ==> born[id] in born && born[born[id]] == "")
    && (forall a, b :: a in bornW && b in bornW && bornW[a] == bornW[b] ==> a == b)
  }

  /** A value an entry may hold: its kind and parent (a workspace's hash) are those it was born with. */
  ghost predicate OwnValue(k: Key, v: Entry, clock: nat, born: map<Id, Id>, bornW: map<Id, string>) {
    && v.Used() <= Unix(clock)
    && match k
       case HKey(id) =>
         && v.HEntry? && id in born && v.h.parent == born[id]
         && v.h.typ == (if v.h.parent == "" then "" else LIVE_ACTIVITY)
         && (v.h.start ==> v.h.parent != "")
       case WKey(id) => v.WEntry? && id in bornW && v.w.keyHash == bornW[id]
  }

  ghost predicate OwnValues(st: State, clock: nat, born: map<Id, Id>, bornW: map<Id, string>) {
    forall k :: Lookup(st, k).Some? ==> OwnValue(k, Lookup(st, k).value, clock, born, bornW)
  }

  /** No Live Activity handle without its device handle. */
  ghost predicate NoOrphan(handles: map<Id, Handle>) {
    forall id :: id in handles && handles[id].parent != "" ==> handles[id].parent in handles
  }

  /** `children` is exactly the inverse of `parent`. */
  ghost predicate ChildrenIndexed(handles: map<Id, Handle>, children: map<Id, set<Id>>) {
    && (forall id :: id in handles && handles[id].parent != "" ==>
          handles[id].parent in children && id in children[handles[id].parent])
    && (forall p :: p in children ==> p != "" && children[p] != {})
    && (forall p, c :: p in children && c in children[p] ==> c in handles && handles[c].parent == p)
  }

  /** `byHash` is exactly the inverse of `keyHash`. */
  ghost predicate HashesIndexed(workspaces: map<Id, Workspace>, byHash: map<string, Id>) {
    && (forall id :: id in workspaces ==> workspaces[id].keyHash in byHash && byHash[workspaces[id].keyHash] == id)
    && (forall h :: h in byHash ==> byHash[h] in workspaces && workspaces[byHash[h]].keyHash == h)
  }

  /** A persisted usage timestamp is never newer than the live one nor more than USED_EVERY behind it. */
  ghost predicate SavedRecently(st: State) {
    forall k :: Lookup(st, k).Some? ==>
      var e := Lookup(st, k).value; e.Saved() <= e.Used() <= e.Saved() + USED_EVERY
  }

  /** Everything but the absence of orphans, which an open may find and removes. */
  ghost predicate Sound(m: Mem) {
    && WfBirths(m.born, m.bornW)
    && OwnValues(m.st, m.clock, m.born, m.bornW)
    && ChildrenIndexed(m.st.handles, m.children)
    && HashesIndexed(m.st.workspaces, m.byHash)
    && SavedRecently(m.st)
  }

  ghost predicate Wf(m: Mem) { Sound(m) && NoOrphan(m.st.handles) }

  /** The tree is one level deep, and a parent marks exactly the Live Activity handles. */
  lemma DepthAtMostOne(m: Mem, id: Id)
    requires Wf(m) && id in m.st.handles
    ensures var h := m.st.handles[id];
      (h.parent == "" <==> h.typ == "") && (h.typ == "" || h.typ == LIVE_ACTIVITY) &&
      (h.parent != "" ==> h.parent in m.st.handles && m.st.handles[h.parent].parent == "")
  {
    var h := m.st.handles[id];
    assert OwnValue(HKey(id), Lookup(m.st, HKey(id)).value, m.clock, m.born, m.bornW);
    if h.parent != "" {
      assert OwnValue(HKey(h.parent), Lookup(m.st, HKey(h.parent)).value, m.clock, m.born, m.bornW);
    }
  }

  // ---- what holds between opens, but not across a crash ----

  /** A device handle and its Live Activity handles belong to one workspace. */
  ghost predicate Together(handles: map<Id, Handle>, dev: Id) {
    dev in handles ==>
      forall x :: x in handles && handles[x].parent == dev ==> handles[x].workspace == handles[dev].workspace
  }

  /** A device handle holds at most one push-to-start handle. */
  ghost predicate OneStart(handles: map<Id, Handle>, dev: Id) {
    forall a, b :: a in StartPool(handles, dev) && b in StartPool(handles, dev) ==> a == b
  }

  /** Each family that was together still is, and each device handle with one push-to-start handle still has one. */
  ghost predicate KeepsFamilies(a: map<Id, Handle>, b: map<Id, Handle>) {
    && (forall dev :: Together(a, dev) ==> Together(b, dev))
    && (forall dev :: OneStart(a, dev) ==> OneStart(b, dev))
  }

  /** The same handles, with other tokens or times. */
  lemma SameFamilies(a: map<Id, Handle>, b: map<Id, Handle>)
    requires a.Keys == b.Keys
    requires forall x :: x in a ==>
      b[x].parent == a[x].parent && b[x].start == a[x].start && b[x].workspace == a[x].workspace
    ensures KeepsFamilies(a, b)
  {
    forall dev ensures StartPool(b, dev) == StartPool(a, dev) {}
  }

  lemma FamiliesTrans(a: map<Id, Handle>, b: map<Id, Handle>, c: map<Id, Handle>)
    requires KeepsFamilies(a, b) && KeepsFamilies(b, c)
    ensures KeepsFamilies(a, c)
  {
    hide Together, OneStart;
  }

  /** A device handle's push-to-start handles. */
  function StartPool(handles: map<Id, Handle>, parent: Id): set<Id> {
    set id | id in handles && handles[id].parent == parent && handles[id].start
  }

  // ---- steps ----

  /** How an entry may change while it lives: a binding stays once made, usage only moves forward. */
  predicate Evolves(a: Entry, b: Entry) {
    && a.Used() <= b.Used()
    && match (a, b)
       case (HEntry(g), HEntry(h)) =>
         g.parent == h.parent && g.typ == h.typ && g.created == h.created
           && (g.workspace != "" ==> h.workspace == g.workspace)
       case (WEntry(v), WEntry(w)) => v.keyHash == w.keyHash && v.created == w.created
       case _ => false
  }

  /** An entry marked used in memory only. */
  predicate Touched(a: Option<Entry>, b: Option<Entry>) {
    (a.None? && b.None?) ||
    (a.Some? && b.Some? && a.value.Core() == b.value.Core() && a.value.Saved() == b.value.Saved()
      && a.value.Used() <= b.value.Used())
  }

  predicate Born(m: Mem, k: Key) { if k.HKey? then k.id in m.born else k.id in m.bornW }

  function LastOn(recs: seq<Record>, k: Key): Option<Record> {
    if recs == [] then None
    else if recs[|recs| - 1].Key() == k then Some(recs[|recs| - 1])
    else LastOn(recs[..|recs| - 1], k)
  }

  /** A key's new value is its last record's, or its old one when there is none; its usage may have moved since.
      A key appears only at its birth. */
  predicate KeyStep(m: Mem, m': Mem, recs: seq<Record>, k: Key) {
    var a, b, last := Lookup(m.st, k), Lookup(m'.st, k), LastOn(recs, k);
    && Touched(if last.Some? then last.value.Value() else a, b)
    && (a.Some? && b.Some? ==> Evolves(a.value, b.value))
    && (b.Some? ==> Born(m', k))
    && (a.None? && b.Some? ==> !Born(m, k))
  }

  ghost predicate RecordStep(m: Mem, m': Mem, r: Record) {
    && Born(m', r.Key())
    && (r.Value().None? ==> Lookup(m'.st, r.Key()).None?)
    && (r.Value().Some? ==>
          && OwnValue(r.Key(), r.Value().value, m'.clock, m'.born, m'.bornW)
          && r.Value().value.Saved() == r.Value().value.Used()
          && (Lookup(m.st, r.Key()).Some? ==> Evolves(Lookup(m.st, r.Key()).value, r.Value().value))
          && (Lookup(m.st, r.Key()).None? ==> !Born(m, r.Key()))
          && (Lookup(m'.st, r.Key()).Some? ==> Evolves(r.Value().value, Lookup(m'.st, r.Key()).value)))
  }

  /** An entry's later value: a deleted entry has none. */
  predicate Follows(a: Record, b: Record) {
    b.Value().Some? ==> a.Value().Some? && Evolves(a.Value().value, b.Value().value)
  }

  ghost predicate InOrder(rs: set<Record>) {
    forall a, b :: a in rs && b in rs && a.Key() == b.Key() && a.sn < b.sn ==> Follows(a, b)
  }

  predicate Numbered(recs: seq<Record>, from: nat) {
    forall i :: 0 <= i < |recs| ==> recs[i].sn == from + i + 1
  }

  ghost predicate Grows(m: Mem, m': Mem) {
    && m.clock <= m'.clock
    && (forall id :: id in m.born ==> id in m'.born && m'.born[id] == m.born[id])
    && (forall id :: id in m.bornW ==> id in m'.bornW && m'.bornW[id] == m.bornW[id])
  }

  /** One operation under the store's lock: the records it hands out, numbered on from the store's counter,
      tell everything it did to the entries except moving usage timestamps. */
  ghost predicate StoreStep(m: Mem, m': Mem, recs: seq<Record>) {
    && Grows(m, m')
    && m'.st.sn == m.st.sn + |recs|
    && Numbered(recs, m.st.sn)
    && (forall k :: KeyStep(m, m', recs, k))
    && (forall r :: r in recs ==> RecordStep(m, m', r))
    && InOrder(Elems(recs))
  }

  ghost predicate LiveAreBorn(m: Mem) { forall k :: Lookup(m.st, k).Some? ==> Born(m, k) }

  lemma WfLiveAreBorn(m: Mem)
    requires OwnValues(m.st, m.clock, m.born, m.bornW)
    ensures LiveAreBorn(m)
  {
  }

  lemma {:induction false} LastOnConcat(a: seq<Record>, b: seq<Record>, k: Key)
    ensures LastOn(a + b, k) == if LastOn(b, k).Some? then LastOn(b, k) else LastOn(a, k)
  {
    if b == [] {
      assert a + b == a;
    } else {
      LastOnConcat(a, b[..|b| - 1], k);
      assert (a + b)[..|a + b| - 1] == a + b[..|b| - 1];
    }
  }

  lemma {:induction false} LastOnIsIn(recs: seq<Record>, k: Key)
    ensures LastOn(recs, k).Some? ==> LastOn(recs, k).value in recs && LastOn(recs, k).value.Key() == k
    ensures LastOn(recs, k).None? ==> forall r :: r in recs ==> r.Key() != k
  {
    if recs != [] {
      LastOnIsIn(recs[..|recs| - 1], k);
      forall r | r in recs ensures r in recs[..|recs| - 1] || r == recs[|recs| - 1] {}
    }
  }

  lemma EvolvesTransitive(a: Entry, b: Entry, c: Entry)
    requires Evolves(a, b) && Evolves(b, c)
    ensures Evolves(a, c)
  {
  }

  lemma OwnValueLater(k: Key, v: Entry, m: Mem, m': Mem)
    requires Grows(m, m') && OwnValue(k, v, m.clock, m.born, m.bornW)
    ensures OwnValue(k, v, m'.clock, m'.born, m'.bornW)
  {
    UnixMonotone(m.clock, m'.clock);
  }

  lemma StepLiveAreBorn(m: Mem, m': Mem, recs: seq<Record>)
    requires StoreStep(m, m', recs)
    ensures LiveAreBorn(m')
  {
    forall k | Lookup(m'.st, k).Some? ensures Born(m', k) { assert KeyStep(m, m', recs, k); }
  }

  /** A step says nothing about the indexes. */
  lemma StepNone(m: Mem)
    requires LiveAreBorn(m)
    ensures StoreStep(m, m, [])
  {
  }

  lemma StepTrans(m0: Mem, m1: Mem, m2: Mem, a: seq<Record>, b: seq<Record>)
    requires LiveAreBorn(m0) && StoreStep(m0, m1, a) && StoreStep(m1, m2, b)
    ensures StoreStep(m0, m2, a + b)
  {
    forall k ensures KeyStep(m0, m2, a + b, k) {
      LastOnConcat(a, b, k);
      assert KeyStep(m0, m1, a, k) && KeyStep(m1, m2, b, k);
    }
    forall r | r in a + b ensures RecordStep(m0, m2, r) { RecordStepTrans(m0, m1, m2, a, b, r); }
    BatchesInOrder(m0, m1, m2, a, b);
    forall i | 0 <= i < |a + b| ensures (a + b)[i].sn == m0.st.sn + i + 1 {
      if i >= |a| { assert (a + b)[i] == b[i - |a|]; }
    }
  }

  lemma RecordStepTrans(m0: Mem, m1: Mem, m2: Mem, a: seq<Record>, b: seq<Record>, r: Record)
    requires LiveAreBorn(m0) && StoreStep(m0, m1, a) && StoreStep(m1, m2, b) && r in a + b
    ensures RecordStep(m0, m2, r)
  {
    assert KeyStep(m0, m1, a, r.Key()) && KeyStep(m1, m2, b, r.Key());
    if r in a {
      assert RecordStep(m0, m1, r);
      if r.Value().Some? { OwnValueLater(r.Key(), r.Value().value, m1, m2); }
    } else {
      assert RecordStep(m1, m2, r);
    }
  }

  lemma BatchesInOrder(m0: Mem, m1: Mem, m2: Mem, a: seq<Record>, b: seq<Record>)
    requires LiveAreBorn(m0) && StoreStep(m0, m1, a) && StoreStep(m1, m2, b)
    ensures InOrder(Elems(a + b))
  {
    forall x, y | x in a + b && y in a + b && x.Key() == y.Key() && x.sn < y.sn ensures Follows(x, y) {
      if x in a && y in a {
        assert x in Elems(a) && y in Elems(a);
      } else if x in b && y in b {
        assert x in Elems(b) && y in Elems(b);
      } else {
        NumberedApart(a, b, m0.st.sn, x, y);
        assert RecordStep(m0, m1, x) && RecordStep(m1, m2, y);
      }
    }
  }

  lemma NumberedApart(a: seq<Record>, b: seq<Record>, from: nat, x: Record, y: Record)
    requires Numbered(a, from) && Numbered(b, from + |a|)
    requires x in a + b && y in a + b && !(x in a && y in a) && !(x in b && y in b) && x.sn < y.sn
    ensures x in a && y in b
  {
  }

  /** One record: its key takes the record's value, nothing else changes. */
  lemma StepOne(m: Mem, m': Mem, r: Record)
    requires LiveAreBorn(m) && Grows(m, m')
    requires r.sn == m'.st.sn == m.st.sn + 1
    requires forall k :: Lookup(m'.st, k) == if k == r.Key() then r.Value() else Lookup(m.st, k)
    requires RecordStep(m, m', r)
    ensures StoreStep(m, m', [r])
  {
    forall k ensures KeyStep(m, m', [r], k) {
      assert LastOn([r], k) == if r.Key() == k then Some(r) else LastOn([r][..0], k);
    }
  }

  /** No record: usage timestamps moved. */
  lemma StepTouch(m: Mem, m': Mem)
    requires LiveAreBorn(m) && Grows(m, m') && m'.st.sn == m.st.sn
    requires forall k :: Touched(Lookup(m.st, k), Lookup(m'.st, k))
    ensures StoreStep(m, m', [])
  {
    forall k ensures KeyStep(m, m', [], k) {
      assert Touched(Lookup(m.st, k), Lookup(m'.st, k));
    }
  }

  // ---- the four kinds of record, appended to what an operation did so far ----

  lemma ThenPutH(m0: Mem, m1: Mem, m2: Mem, recs: seq<Record>, id: Id, h: Handle)
    requires LiveAreBorn(m0) && StoreStep(m0, m1, recs) && Grows(m1, m2)
    requires m2.st == State(m1.st.sn + 1, m1.st.handles[id := h], m1.st.workspaces)
    requires OwnValue(HKey(id), HEntry(h), m2.clock, m2.born, m2.bornW) && h.saved == h.used
    requires if id in m1.st.handles then Evolves(HEntry(m1.st.handles[id]), HEntry(h)) else id !in m1.born
    ensures StoreStep(m0, m2, recs + [HandleRec(m2.st.sn, id, Some(h))])
  {
    StepLiveAreBorn(m0, m1, recs);
    StepOne(m1, m2, HandleRec(m2.st.sn, id, Some(h)));
    StepTrans(m0, m1, m2, recs, [HandleRec(m2.st.sn, id, Some(h))]);
  }

  lemma ThenDelH(m0: Mem, m1: Mem, m2: Mem, recs: seq<Record>, id: Id)
    requires LiveAreBorn(m0) && StoreStep(m0, m1, recs) && Grows(m1, m2)
    requires m2.st == State(m1.st.sn + 1, m1.st.handles - {id}, m1.st.workspaces) && id in m1.born
    ensures StoreStep(m0, m2, recs + [HandleRec(m2.st.sn, id, None)])
  {
    StepLiveAreBorn(m0, m1, recs);
    StepOne(m1, m2, HandleRec(m2.st.sn, id, None));
    StepTrans(m0, m1, m2, recs, [HandleRec(m2.st.sn, id, None)]);
  }

  lemma ThenPutW(m0: Mem, m1: Mem, m2: Mem, recs: seq<Record>, id: Id, w: Workspace)
    requires LiveAreBorn(m0) && StoreStep(m0, m1, recs) && Grows(m1, m2)
    requires m2.st == State(m1.st.sn + 1, m1.st.handles, m1.st.workspaces[id := w])
    requires OwnValue(WKey(id), WEntry(w), m2.clock, m2.born, m2.bornW) && w.saved == w.used
    requires if id in m1.st.workspaces then Evolves(WEntry(m1.st.workspaces[id]), WEntry(w)) else id !in m1.bornW
    ensures StoreStep(m0, m2, recs + [WorkspaceRec(m2.st.sn, id, Some(w))])
  {
    StepLiveAreBorn(m0, m1, recs);
    StepOne(m1, m2, WorkspaceRec(m2.st.sn, id, Some(w)));
    StepTrans(m0, m1, m2, recs, [WorkspaceRec(m2.st.sn, id, Some(w))]);
  }

  lemma ThenDelW(m0: Mem, m1: Mem, m2: Mem, recs: seq<Record>, id: Id)
    requires LiveAreBorn(m0) && StoreStep(m0, m1, recs) && Grows(m1, m2)
    requires m2.st == State(m1.st.sn + 1, m1.st.handles, m1.st.workspaces - {id}) && id in m1.bornW
    ensures StoreStep(m0, m2, recs + [WorkspaceRec(m2.st.sn, id, None)])
  {
    StepLiveAreBorn(m0, m1, recs);
    StepOne(m1, m2, WorkspaceRec(m2.st.sn, id, None));
    StepTrans(m0, m1, m2, recs, [WorkspaceRec(m2.st.sn, id, None)]);
  }

  // ---- deleting trees ----

  /** The handles of `roots` and whatever hangs off them. */
  function Forest(handles: map<Id, Handle>, roots: set<Id>): set<Id> {
    set x | x in handles && (x in roots || handles[x].parent in roots)
  }

  ghost predicate OneLevel(handles: map<Id, Handle>) {
    forall id :: id in handles && handles[id].parent in handles ==> handles[handles[id].parent].parent == ""
  }

  lemma SoundIsOneLevel(m: Mem)
    requires Sound(m)
    ensures OneLevel(m.st.handles) && "" !in m.st.handles
  {
    forall id | id in m.st.handles ensures id in m.born && m.st.handles[id].parent == m.born[id] {
      assert OwnValue(HKey(id), Lookup(m.st, HKey(id)).value, m.clock, m.born, m.bornW);
    }
    forall id | id in m.st.handles && m.st.handles[id].parent in m.st.handles
      ensures m.st.handles[m.st.handles[id].parent].parent == ""
    {
      assert m.born[id] in m.born && m.born[id] != "";
    }
  }

  /** Removing whole trees breaks neither the tree nor what holds between opens. */
  lemma ForestGone(m: Mem, m': Mem, roots: set<Id>)
    requires OneLevel(m.st.handles) && "" !in roots
    requires m'.st.handles == m.st.handles - Forest(m.st.handles, roots)
    ensures NoOrphan(m.st.handles) ==> NoOrphan(m'.st.handles)
    ensures KeepsFamilies(m.st.handles, m'.st.handles)
  {
    forall dev ensures StartPool(m'.st.handles, dev) <= StartPool(m.st.handles, dev) {}
  }

  /** Trees removed one after the other, each judged where it stands, are the trees of the original. */
  lemma ForestGrows(handles: map<Id, Handle>, roots: set<Id>, id: Id)
    ensures (handles - Forest(handles, roots)) - Forest(handles - Forest(handles, roots), {id}) ==
      handles - Forest(handles, roots + {id})
  {
  }

  /** The indexes are determined by the entries: rebuilding them gives the ones kept all along. */
  lemma IndexesAreDetermined(a: Mem, b: Mem)
    requires Sound(a) && Sound(b) && a.st.handles == b.st.handles && a.st.workspaces == b.st.workspaces
    ensures a.children == b.children && a.byHash == b.byHash
  {
    ChildrenWithin(a, b);
    ChildrenWithin(b, a);
    forall p | p in a.children ensures a.children[p] == b.children[p] {}
    assert a.children.Keys == b.children.Keys;
    forall h | h in a.byHash ensures h in b.byHash && b.byHash[h] == a.byHash[h] {
      assert a.byHash[h] in b.st.workspaces && b.st.workspaces[a.byHash[h]].keyHash == h;
    }
    forall h | h in b.byHash ensures h in a.byHash {
      assert b.byHash[h] in a.st.workspaces && a.st.workspaces[b.byHash[h]].keyHash == h;
    }
  }

  lemma ChildrenWithin(a: Mem, b: Mem)
    requires Sound(a) && Sound(b) && a.st.handles == b.st.handles
    ensures forall p :: p in a.children ==> p in b.children && a.children[p] <= b.children[p]
  {
    forall p | p in a.children ensures p in b.children && a.children[p] <= b.children[p] {
      forall c | c in a.children[p] ensures p in b.children && c in b.children[p] {
        assert c in b.st.handles && b.st.handles[c].parent == p;
      }
      var c :| c in a.children[p];
    }
  }

  lemma FewerEntries(m: Mem, m': Mem)
    requires OwnValues(m.st, m.clock, m.born, m.bornW) && SavedRecently(m.st) && Grows(m, m')
    requires forall k :: Lookup(m'.st, k).Some? ==> Lookup(m'.st, k) == Lookup(m.st, k)
    ensures OwnValues(m'.st, m'.clock, m'.born, m'.bornW) && SavedRecently(m'.st)
  {
    forall k | Lookup(m'.st, k).Some? ensures OwnValue(k, Lookup(m'.st, k).value, m'.clock, m'.born, m'.bornW) {
      OwnValueLater(k, Lookup(m'.st, k).value, m, m');
    }
  }

  lemma WorkspaceGone(m: Mem, m': Mem, id: Id)
    requires HashesIndexed(m.st.workspaces, m.byHash) && id in m.st.workspaces
    requires m'.st.workspaces == m.st.workspaces - {id} && m'.byHash == m.byHash - {m.st.workspaces[id].keyHash}
    ensures HashesIndexed(m'.st.workspaces, m'.byHash)
  {
    forall x | x in m'.st.workspaces
      ensures m'.st.workspaces[x].keyHash in m'.byHash && m'.byHash[m'.st.workspaces[x].keyHash] == x
    {
      assert m.byHash[m.st.workspaces[x].keyHash] == x;
    }
    forall h | h in m'.byHash ensures m'.byHash[h] in m'.st.workspaces && m'.st.workspaces[m'.byHash[h]].keyHash == h {
      assert m.byHash[h] in m.st.workspaces && m.st.workspaces[m.byHash[h]].keyHash == h;
    }
  }

  function ChildrenOf(m: Mem, id: Id): set<Id> { if id in m.children then m.children[id] else {} }

  /** The index without a tree. */
  function Unlinked(m: Mem, id: Id): map<Id, set<Id>>
    requires id in m.st.handles
  {
    var p, rest := m.st.handles[id].parent, m.children - {id};
    if p == "" || p !in rest then rest
    else if rest[p] - {id} == {} then rest - {p}
    else rest[p := rest[p] - {id}]
  }

  lemma TreeIsForest(m: Mem, id: Id)
    requires ChildrenIndexed(m.st.handles, m.children) && id != "" && id in m.st.handles
    ensures Forest(m.st.handles, {id}) == {id} + ChildrenOf(m, id)
  {
  }

  lemma TreeUnlinked(m: Mem, m': Mem, id: Id)
    requires ChildrenIndexed(m.st.handles, m.children) && OneLevel(m.st.handles)
    requires id != "" && id in m.st.handles && m'.st.handles == m.st.handles - Forest(m.st.handles, {id})
    requires m'.children == Unlinked(m, id)
    ensures ChildrenIndexed(m'.st.handles, m'.children)
  {
  }

  /** The handles of some records. */
  function Ids(recs: seq<Record>): set<Id> { set r | r in recs && r.HandleRec? :: r.id }

  predicate Deletions(recs: seq<Record>) { forall r :: r in recs ==> r.HandleRec? && r.hv.None? }

  /** The records of a tree's removal: one for everything that hangs off the handle, and its own last. */
  predicate Cascade(handles: map<Id, Handle>, id: Id, recs: seq<Record>) {
    && recs != [] && Deletions(recs) && recs[|recs| - 1].id == id
    && Ids(recs[..|recs| - 1]) == set x | x in handles && handles[x].parent == id
  }

  lemma OneMoreDeletion(recs: seq<Record>, r: Record)
    requires Deletions(recs) && r.HandleRec? && r.hv.None?
    ensures Deletions(recs + [r]) && Ids(recs + [r]) == Ids(recs) + {r.id}
  {
    assert forall x :: x in recs + [r] <==> x in recs || x == r;
  }

  lemma IdsFront(recs: seq<Record>)
    requires recs != [] && Deletions(recs)
    ensures Ids(recs) == Ids(recs[..|recs| - 1]) + {recs[|recs| - 1].id}
  {
    var front, last := recs[..|recs| - 1], recs[|recs| - 1];
    assert last in recs && forall r :: r in recs <==> r in front || r == last;
  }

  lemma {:induction false} DeletionsReplay(st: State, recs: seq<Record>, from: nat)
    requires Deletions(recs) && Numbered(recs, from) && st.sn <= from
    ensures var t := ReplayAll(st, recs);
      && t.handles == st.handles - Ids(recs) && t.workspaces == st.workspaces
      && t.sn == if recs == [] then st.sn else from + |recs|
  {
    if recs != [] {
      var front, last := recs[..|recs| - 1], recs[|recs| - 1];
      assert last in recs && forall r :: r in front ==> r in recs;
      DeletionsReplay(st, front, from);
      IdsFront(recs);
      hide Ids;
    }
  }

  /** However much of a cascade reached the log, replaying it leaves no orphan. */
  lemma CascadeLeavesNoOrphan(st: State, id: Id, recs: seq<Record>, n: nat)
    requires NoOrphan(st.handles) && OneLevel(st.handles) && "" !in st.handles && id in st.handles
    requires Cascade(st.handles, id, recs) && Numbered(recs, st.sn) && n <= |recs|
    ensures NoOrphan(ReplayAll(st, recs[..n]).handles)
  {
    var gone, last := recs[..n], |recs| - 1;
    hide ReplayAll;
    DeletionsReplay(st, gone, st.sn);
    IdsFront(recs);
    if n == |recs| {
      assert gone == recs;
    } else {
      assert forall r :: r in gone ==> r in recs[..last];
      assert Ids(gone) <= Ids(recs[..last]);
    }
    hide Ids, Deletions;
  }

  /** The children deleted first (m1), then the handle itself (m2). */
  lemma TreeGone(m0: Mem, m1: Mem, m2: Mem, recs: seq<Record>, id: Id)
    requires Sound(m0) && id != "" && id in m0.st.handles && StoreStep(m0, m1, recs)
    requires m1.st.handles == m0.st.handles - ChildrenOf(m0, id) && m1.st.workspaces == m0.st.workspaces
    requires m2 == m0.(st := State(m1.st.sn + 1, m1.st.handles - {id}, m0.st.workspaces), children := Unlinked(m0, id))
    requires m1 == m0.(st := m1.st)
    ensures Sound(m2) && StoreStep(m0, m2, recs + [HandleRec(m2.st.sn, id, None)])
    ensures m2.st.handles == m0.st.handles - Forest(m0.st.handles, {id})
  {
    TreeIsForest(m0, id);
    WfLiveAreBorn(m0);
    assert Born(m0, HKey(id)) by { assert Lookup(m0.st, HKey(id)).Some?; }
    ThenDelH(m0, m1, m2, recs, id);
    FewerEntries(m0, m2);
    SoundIsOneLevel(m0);
    TreeUnlinked(m0, m2, id);
  }

  // ---- creating and changing a handle ----

  lemma OneEntryChanged(m: Mem, m': Mem, k: Key)
    requires OwnValues(m.st, m.clock, m.born, m.bornW) && SavedRecently(m.st) && Grows(m, m')
    requires forall j :: j != k ==> Lookup(m'.st, j) == Lookup(m.st, j)
    requires Lookup(m'.st, k).Some? ==>
      var e := Lookup(m'.st, k).value;
      OwnValue(k, e, m'.clock, m'.born, m'.bornW) && e.Saved() <= e.Used() <= e.Saved() + USED_EVERY
    ensures OwnValues(m'.st, m'.clock, m'.born, m'.bornW) && SavedRecently(m'.st)
  {
    forall j | Lookup(m'.st, j).Some? ensures OwnValue(j, Lookup(m'.st, j).value, m'.clock, m'.born, m'.bornW) {
      if j != k { OwnValueLater(j, Lookup(m'.st, j).value, m, m'); }
    }
    forall j | Lookup(m'.st, j).Some?
      ensures var e := Lookup(m'.st, j).value; e.Saved() <= e.Used() <= e.Saved() + USED_EVERY
    {
      if j != k { assert Lookup(m'.st, j) == Lookup(m.st, j); }
    }
  }

  function Linked(m: Mem, parent: Id, id: Id): map<Id, set<Id>> {
    if parent == "" then m.children else m.children[parent := ChildrenOf(m, parent) + {id}]
  }

  ghost predicate Birth(m1: Mem, m2: Mem, id: Id, h: Handle) {
    && id != "" && id !in m1.born
    && h.used == h.saved == 0 && h.typ == (if h.parent == "" then "" else LIVE_ACTIVITY) && (h.start ==> h.parent != "")
    && (h.parent != "" ==> h.parent in m1.st.handles && m1.st.handles[h.parent].typ == "")
    && m2 == m1.(st := State(m1.st.sn + 1, m1.st.handles[id := h], m1.st.workspaces),
                 children := Linked(m1, h.parent, id), born := m1.born[id := h.parent])
  }

  lemma HandleBorn(m0: Mem, m1: Mem, m2: Mem, recs: seq<Record>, id: Id, h: Handle)
    requires LiveAreBorn(m0) && StoreStep(m0, m1, recs) && Wf(m1) && Birth(m1, m2, id, h)
    ensures Wf(m2) && StoreStep(m0, m2, recs + [HandleRec(m2.st.sn, id, Some(h))])
  {
    ParentsAreBorn(m1);
    ThenPutH(m0, m1, m2, recs, id, h);
    BirthSound(m1, m2, id, h);
  }

  lemma BirthSound(m1: Mem, m2: Mem, id: Id, h: Handle)
    requires Wf(m1) && Birth(m1, m2, id, h)
    ensures Wf(m2)
  {
    ParentsAreBorn(m1);
    assert WfBirths(m2.born, m2.bornW) by {
      if h.parent != "" { DepthAtMostOne(m1, h.parent); }
    }
    OneEntryChanged(m1, m2, HKey(id));
    BirthIndexed(m1, m2, id, h);
  }

  lemma BirthIndexed(m: Mem, m': Mem, id: Id, h: Handle)
    requires ChildrenIndexed(m.st.handles, m.children) && NoOrphan(m.st.handles) && id !in m.st.handles
    requires h.parent != "" ==> h.parent in m.st.handles
    requires m'.st.handles == m.st.handles[id := h] && m'.children == Linked(m, h.parent, id)
    ensures ChildrenIndexed(m'.st.handles, m'.children) && NoOrphan(m'.st.handles)
  {
  }

  /** A birth keeps the family bound when the newborn takes its parent's workspace, and the single push-to-start
      handle when the parent has none. */
  lemma BirthInFamily(m1: Mem, m2: Mem, id: Id, h: Handle)
    requires Wf(m1) && Birth(m1, m2, id, h)
    requires h.parent != "" ==> h.workspace == m1.st.handles[h.parent].workspace
    requires h.start ==> StartPool(m1.st.handles, h.parent) == {}
    ensures KeepsFamilies(m1.st.handles, m2.st.handles)
  {
    SoundIsOneLevel(m1);
    ParentsAreBorn(m1);
    var a, b := m1.st.handles, m2.st.handles;
    forall dev | Together(a, dev) ensures Together(b, dev) {}
    forall dev | OneStart(a, dev) ensures OneStart(b, dev) {
      assert StartPool(b, dev) == StartPool(a, dev) + if h.start && h.parent == dev then {id} else {};
    }
  }

  lemma BirthStep(m1: Mem, m2: Mem, id: Id, h: Handle)
    requires Wf(m1) && Birth(m1, m2, id, h)
    ensures Wf(m2) && StoreStep(m1, m2, [HandleRec(m2.st.sn, id, Some(h))])
    requires h.parent != "" ==> h.workspace == m1.st.handles[h.parent].workspace
    requires h.start ==> StartPool(m1.st.handles, h.parent) == {}
    ensures KeepsFamilies(m1.st.handles, m2.st.handles)
  {
    BirthInFamily(m1, m2, id, h);
    WfLiveAreBorn(m1);
    StepNone(m1);
    HandleBorn(m1, m1, m2, [], id, h);
    assert [] + [HandleRec(m2.st.sn, id, Some(h))] == [HandleRec(m2.st.sn, id, Some(h))];
  }

  lemma ParentsAreBorn(m: Mem)
    requires Sound(m)
    ensures forall id :: id in m.st.handles ==> id in m.born && m.st.handles[id].parent == m.born[id]
  {
    forall id | id in m.st.handles ensures id in m.born && m.st.handles[id].parent == m.born[id] {
      assert OwnValue(HKey(id), Lookup(m.st, HKey(id)).value, m.clock, m.born, m.bornW);
    }
  }

  /** A live handle takes a new value of the same kind and parent, and is journalled. */
  lemma HandleChanged(m0: Mem, m1: Mem, m2: Mem, recs: seq<Record>, id: Id, h: Handle)
    requires LiveAreBorn(m0) && StoreStep(m0, m1, recs) && Wf(m1) && id in m1.st.handles
    requires Evolves(HEntry(m1.st.handles[id]), HEntry(h)) && h.saved == h.used <= Unix(m1.clock)
    requires h.start ==> h.parent != ""
    requires m2 == m1.(st := State(m1.st.sn + 1, m1.st.handles[id := h], m1.st.workspaces))
    ensures Wf(m2) && StoreStep(m0, m2, recs + [HandleRec(m2.st.sn, id, Some(h))])
  {
    assert OwnValue(HKey(id), Lookup(m1.st, HKey(id)).value, m1.clock, m1.born, m1.bornW);
    ThenPutH(m0, m1, m2, recs, id, h);
    OneEntryChanged(m1, m2, HKey(id));
  }

  /** A live handle is marked used in memory; its persisted timestamp stays recent enough. */
  lemma HandleUsed(m: Mem, m': Mem, id: Id, used: int)
    requires Wf(m) && id in m.st.handles
    requires m.st.handles[id].used <= used <= Unix(m.clock) && used - m.st.handles[id].saved <= USED_EVERY
    requires m' == m.(st := m.st.(handles := m.st.handles[id := m.st.handles[id].(used := used)]))
    ensures Wf(m') && StoreStep(m, m', [])
  {
    WfLiveAreBorn(m);
    assert OwnValue(HKey(id), Lookup(m.st, HKey(id)).value, m.clock, m.born, m.bornW);
    assert Lookup(m.st, HKey(id)).value.Saved() <= Lookup(m.st, HKey(id)).value.Used();
    StepTouch(m, m');
    OneEntryChanged(m, m', HKey(id));
  }

  lemma WorkspaceUsed(m: Mem, m': Mem, id: Id, used: int)
    requires Wf(m) && id in m.st.workspaces
    requires m.st.workspaces[id].used <= used <= Unix(m.clock) && used - m.st.workspaces[id].saved <= USED_EVERY
    requires m' == m.(st := m.st.(workspaces := m.st.workspaces[id := m.st.workspaces[id].(used := used)]))
    ensures Wf(m') && StoreStep(m, m', [])
  {
    WfLiveAreBorn(m);
    assert OwnValue(WKey(id), Lookup(m.st, WKey(id)).value, m.clock, m.born, m.bornW);
    assert Lookup(m.st, WKey(id)).value.Saved() <= Lookup(m.st, WKey(id)).value.Used();
    StepTouch(m, m');
    OneEntryChanged(m, m', WKey(id));
  }

  lemma WorkspaceChanged(m: Mem, m': Mem, id: Id, w: Workspace)
    requires Wf(m) && id in m.st.workspaces
    requires Evolves(WEntry(m.st.workspaces[id]), WEntry(w)) && w.saved == w.used <= Unix(m.clock)
    requires m' == m.(st := State(m.st.sn + 1, m.st.handles, m.st.workspaces[id := w]))
    ensures Wf(m') && StoreStep(m, m', [WorkspaceRec(m'.st.sn, id, Some(w))])
  {
    WfLiveAreBorn(m);
    StepNone(m);
    assert OwnValue(WKey(id), Lookup(m.st, WKey(id)).value, m.clock, m.born, m.bornW);
    ThenPutW(m, m, m', [], id, w);
    assert [] + [WorkspaceRec(m'.st.sn, id, Some(w))] == [WorkspaceRec(m'.st.sn, id, Some(w))];
    OneEntryChanged(m, m', WKey(id));
  }

  lemma WorkspaceBorn(m: Mem, m': Mem, id: Id, w: Workspace)
    requires Wf(m) && id != "" && id !in m.bornW && (forall x :: x in m.bornW ==> m.bornW[x] != w.keyHash)
    requires w.used == w.saved == 0
    requires m' == m.(st := State(m.st.sn + 1, m.st.handles, m.st.workspaces[id := w]),
                      byHash := m.byHash[w.keyHash := id], bornW := m.bornW[id := w.keyHash])
    ensures Wf(m') && StoreStep(m, m', [WorkspaceRec(m'.st.sn, id, Some(w))])
  {
    WfLiveAreBorn(m);
    StepNone(m);
    assert id !in m.st.workspaces by { assert Lookup(m.st, WKey(id)).Some? ==> Born(m, WKey(id)); }
    ThenPutW(m, m, m', [], id, w);
    assert [] + [WorkspaceRec(m'.st.sn, id, Some(w))] == [WorkspaceRec(m'.st.sn, id, Some(w))];
    OneEntryChanged(m, m', WKey(id));
    BirthHashed(m, m', id, w);
  }

  lemma BirthHashed(m: Mem, m': Mem, id: Id, w: Workspace)
    requires Wf(m) && id !in m.bornW && (forall x :: x in m.bornW ==> m.bornW[x] != w.keyHash)
    requires m'.st.workspaces == m.st.workspaces[id := w] && m'.byHash == m.byHash[w.keyHash := id]
    ensures HashesIndexed(m'.st.workspaces, m'.byHash)
  {
    forall x | x in m.st.workspaces ensures x in m.bornW && m.st.workspaces[x].keyHash == m.bornW[x] {
      assert OwnValue(WKey(x), Lookup(m.st, WKey(x)).value, m.clock, m.born, m.bornW);
    }
    forall h | h in m'.byHash ensures m'.byHash[h] in m'.st.workspaces && m'.st.workspaces[m'.byHash[h]].keyHash == h {
      if h != w.keyHash { assert m.byHash[h] in m.st.workspaces; }
    }
  }
}
