/** The relay's entities: handles, workspaces, journal records, a snapshot, and the times they carry.
    Handle and workspace ids are the random strings the relay mints; "" stands for "none". */
module RelayTypes {
  import opened Options

  type Id = string

  const LIVE_ACTIVITY := "liveactivity"

  /** An APNs device token behind an opaque name. `typ` is "" (a device handle) or LIVE_ACTIVITY.
      `saved` is `used` as last written to disk; it is memory-only, and every reader of the disk
      replaces it (Store.Open), so a record or snapshot that carries it tells nobody anything. */
  datatype Handle = Handle(
    token: string, topic: string, env: string, typ: string, parent: Id, start: bool, workspace: Id,
    created: int, used: int, saved: int)

  datatype Workspace = Workspace(keyHash: string, created: int, used: int, saved: int)

  datatype Key = HKey(id: Id) | WKey(id: Id)

  datatype Entry = HEntry(h: Handle) | WEntry(w: Workspace) {
    function Used(): int { if HEntry? then h.used else w.used }
    function Saved(): int { if HEntry? then h.saved else w.saved }

    /** The entry without its usage timestamps. */
    function Core(): Entry {
      match this
      case HEntry(h) => HEntry(h.(used := 0, saved := 0))
      case WEntry(w) => WEntry(w.(used := 0, saved := 0))
    }
  }

  /** One journal line (sn is its sequence number): an entry's new value, or (None) its deletion. */
  datatype Record =
    | HandleRec(sn: nat, id: Id, hv: Option<Handle>)
    | WorkspaceRec(sn: nat, id: Id, wv: Option<Workspace>)
  {
    function Key(): Key { if HandleRec? then HKey(id) else WKey(id) }

    function Value(): Option<Entry> {
      match this
      case HandleRec(_, _, hv) => if hv.Some? then Some(HEntry(hv.value)) else None
      case WorkspaceRec(_, _, wv) => if wv.Some? then Some(WEntry(wv.value)) else None
    }
  }

  /** A snapshot: the entries and the last record it includes. */
  datatype State = State(sn: nat, handles: map<Id, Handle>, workspaces: map<Id, Workspace>)

  const EMPTY := State(0, map[], map[])

  function Lookup(st: State, k: Key): Option<Entry> {
    match k
    case HKey(id) => if id in st.handles then Some(HEntry(st.handles[id])) else None
    case WKey(id) => if id in st.workspaces then Some(WEntry(st.workspaces[id])) else None
  }

  lemma SameLookups(a: State, b: State)
    requires a.sn == b.sn
    requires forall k :: Lookup(a, k) == Lookup(b, k)
    ensures a == b
  {
    forall id ensures (id in a.handles <==> id in b.handles) && (id in a.handles ==> a.handles[id] == b.handles[id]) {
      assert Lookup(a, HKey(id)) == Lookup(b, HKey(id));
    }
    forall id
      ensures (id in a.workspaces <==> id in b.workspaces)
        && (id in a.workspaces ==> a.workspaces[id] == b.workspaces[id])
    {
      assert Lookup(a, WKey(id)) == Lookup(b, WKey(id));
    }
    assert a.handles == b.handles && a.workspaces == b.workspaces;
  }

  /** Times are nanoseconds since the Unix epoch. */
  const SECOND := 1_000_000_000
  const MINUTE := 60 * SECOND

  function Unix(now: nat): nat { now / SECOND }

  lemma UnixMonotone(a: nat, b: nat)
    requires a <= b
    ensures Unix(a) <= Unix(b)
  {
  }

  /** Go's integer division truncates toward zero. */
  function TruncDiv(a: int, b: int): int
    requires b > 0
  {
    if a >= 0 then a / b else -((-a) / b)
  }

  function Max(a: int, b: int): int { if a < b then b else a }
}
