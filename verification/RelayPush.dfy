/** A push asks for its handle: under the store's lock the family is bound, then the records are written outside it, and
    then the caller is told. */
module RelayPush {
  import opened Options
  import opened RelayTypes
  import opened Replay
  import opened StoreSpec
  import opened J = Journal
  import opened RelaySystem
  import opened RelayTheorems
  import opened RelaySurvival
  import Store

  // ---- one call ----

  /** What the caller is told when the write has ended: only a push that bound something waits for it to succeed. */
  function Told(out: Store.Result<Handle>, bind: bool, written: bool): Store.Result<Handle> {
    if out.Ok? && bind && !written then Store.Err(Store.NotWritten) else out
  }

  /** The whole call, when nothing comes between its two locked parts; `o` is how the write of its records ends. */
  method Target(s: Store.Store, j: J.Journal, id: Id, ws: Id, typ: string, start: bool, now: nat, o: Outcome)
    returns (res: Store.Result<Handle>, ghost recs: seq<Record>, ghost bind: bool)
    requires Wf(s.M()) && s.clock <= now && ws != ""
    modifies s, j
    ensures Wf(s.M()) && StoreStep(old(s.M()), s.M(), recs)
    ensures j.J() == if recs == [] then old(j.J()) else Appended(old(j.J()), recs, o)
    ensures var refused := Store.Refusal(old(s.handles), id, ws, typ, start);
      if refused.Some? then res == Store.Err(refused.value) && s.M() == old(s.M()) && recs == []
      else
        var a, dev := old(s.handles), Store.DeviceOf(old(s.handles), id);
        && s.handles == Store.Pushed(a, id, ws, Unix(now)) && Store.Bindings(a, ws, Store.Family(a, dev), recs)
        && bind == (a[dev].workspace == "" || a[id].workspace == "") && (bind ==> recs != [])
        && res == if bind && !(old(j.isOpen) && o.Synced?) then Store.Err(Store.NotWritten) else Store.Ok(s.handles[id])
  {
    ghost var m0 := s.M();
    var rs, binding;
    res, rs, binding := s.Target(id, ws, typ, start, now);
    recs, bind := rs, binding;
    if res.Ok? && bind { BindingIsWritten(m0, s.M(), recs, id, ws, typ, start, Unix(now)); }
    if rs != [] {
      var ok, compact := j.Append(rs, o);
      res := Told(res, binding, ok);
    }
  }

  lemma BindingIsWritten(m: Mem, m': Mem, recs: seq<Record>, id: Id, ws: Id, typ: string, start: bool, t: int)
    requires Wf(m) && StoreStep(m, m', recs) && ws != "" && Store.Refusal(m.st.handles, id, ws, typ, start).None?
    requires Store.DeviceOf(m.st.handles, id) in m.st.handles && m'.st.handles == Store.Pushed(m.st.handles, id, ws, t)
    requires m.st.handles[Store.DeviceOf(m.st.handles, id)].workspace == "" || m.st.handles[id].workspace == ""
    ensures recs != []
  {
    var dev := Store.DeviceOf(m.st.handles, id);
    Store.PushedOwners(m.st.handles, id, ws, t);
    hide Store.Pushed, Wf, StoreStep;
    BindIsJournalled(m, m', recs, id, ws, t, if m.st.handles[id].workspace == "" then id else dev);
  }

  // ---- among other calls ----

  /** What the locked part of an accepted push does (the contract of Store.Target). */
  ghost predicate Accepted(s: Sys, s': Sys, id: Id, ws: Id, t: int, recs: seq<Record>, bind: bool) {
    var a, dev := s.m.st.handles, if id in s.m.st.handles then Store.DeviceOf(s.m.st.handles, id) else "";
    && Operate(s, s', recs) && id in a && dev in a && ws != ""
    && Store.Refusal(a, id, ws, a[id].typ, a[id].start).None?
    && s'.m.st.handles == Store.Pushed(a, id, ws, t) && Store.Bindings(a, ws, Store.Family(a, dev), recs)
    && bind == (a[dev].workspace == "" || a[id].workspace == "")
  }

  /** Its records are written, or fail to be; with none there is nothing to do. */
  ghost predicate WriteEnds(s: Sys, s': Sys, recs: seq<Record>, written: bool) {
    if recs == [] then s' == s && written
    else if written then exists big :: AppendSynced(s, s', recs, big)
    else exists k :: AppendBroken(s, s', recs, k)
  }

  /** A push that bound a handle is answered only once the record of its new owner is acknowledged; and from then on, at
      every later step of any run, the handle is that workspace's, or gone. */
  lemma AnsweredBindingSurvives(b: seq<Sys>, i: nat, n: nat, j: nat, id: Id, ws: Id, t: int, recs: seq<Record>,
                                bind: bool, written: bool, out: Handle, x: Id)
    requires Run(b) && i < n < j < |b|
    requires Accepted(b[i], b[i + 1], id, ws, t, recs, bind) && WriteEnds(b[n], b[n + 1], recs, written)
    requires bind && Told(Store.Ok(out), bind, written).Ok?
    requires x in b[i].m.st.handles && b[i].m.st.handles[x].workspace != b[i + 1].m.st.handles[x].workspace
    ensures exists r ::
      r in recs && r in b[n + 1].acked && r.HandleRec? && r.id == x && r.hv.Some? && r.hv.value.workspace == ws
    ensures var v := Held(b[j], HKey(x)); v.Some? ==> v.value.HEntry? && v.value.h.workspace == ws
  {
    hide Run, Accepted, WriteEnds;
    RunInvariant(b, i);
    var r := NewOwnerJournalled(b[i], b[i + 1], id, ws, t, recs, bind, x);
    WrittenIsAcked(b[n], b[n + 1], recs);
    assert r in Elems(recs);
    BindingSurvivesForever(b, n + 1, j, r, x, ws);
  }

  lemma NewOwnerJournalled(s: Sys, s': Sys, id: Id, ws: Id, t: int, recs: seq<Record>, bind: bool, x: Id)
    returns (r: Record)
    requires Inv(s) && Accepted(s, s', id, ws, t, recs, bind)
    requires x in s.m.st.handles && s.m.st.handles[x].workspace != s'.m.st.handles[x].workspace
    ensures r in recs && r.HandleRec? && r.id == x && r.hv.Some? && r.hv.value.workspace == ws != ""
  {
    hide Wf, StoreStep, KeepsFamilies, Store.Pushed, Store.Bindings, Store.Family, InvDown, History;
    BindIsJournalled(s.m, s'.m, recs, id, ws, t, x);
    r :| r in recs && r.HandleRec? && r.id == x && r.hv.Some? && r.hv.value.workspace == ws;
  }

  lemma WrittenIsAcked(s: Sys, s': Sys, recs: seq<Record>)
    requires recs != [] && WriteEnds(s, s', recs, true)
    ensures Up(s') && Elems(recs) <= s'.acked
  {
  }
}
