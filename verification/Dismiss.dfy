/** A person's dismissals: the value a page shows, the changes it has queued, and the one chain that stores them. */
module Dismiss {
  import opened Options

  // ---- values ----

  /** A stored value: JSON, of which only objects and strings matter here. */
  datatype Json = Null | Str(s: string) | Other(text: string) | Obj(m: map<string, Json>)

  datatype Kind = Grants | Bindings | Alerts | Limits

  function Name(k: Kind): string {
    match k
    case Grants => "grants"
    case Bindings => "bindings"
    case Alerts => "alerts"
    case Limits => "limits"
  }

  const KINDS := {"grants", "bindings", "alerts", "limits"}

  function Fields(v: Json): map<string, Json> { if v.Obj? then v.m else map[] }

  function Under(v: Json, k: string): map<string, Json> { if k in Fields(v) then Fields(Fields(v)[k]) else map[] }

  function Clean(m: map<string, Json>): map<string, Json> { map key | key in m && key != "" && m[key].Str? :: m[key] }

  /** The readable part of a stored value: under each kind only its dated keys, and what lies outside the kinds
      unchanged. */
  function Norm(v: Json): Json { Obj(Fields(v) + map k | k in KINDS :: Obj(Clean(Under(v, k)))) }

  /** Restore without keys shows everything of its kind again. */
  datatype Change = Dismiss(kind: Kind, key: string, at: string) | Restore(kind: Kind, keys: Option<set<string>>)

  /** What a change does to the dismissals of its kind. */
  function Edit(c: Change, m: map<string, Json>): map<string, Json> {
    match c
    case Dismiss(_, key, at) => m[key := Str(at)]
    case Restore(_, Some(keys)) => m - keys
    case Restore(_, None) => map[]
  }

  function Run(c: Change, v: Json): Json {
    var n, k := Norm(v), Name(c.kind);
    Obj(n.m[k := Obj(Edit(c, Under(n, k)))])
  }

  /** A change stored: what it makes of the value read, as it is read back. */
  function Apply(c: Change, v: Json): Json { Norm(Run(c, v)) }

  predicate IsDismissed(v: Json, kind: Kind, key: string) { key in Under(v, Name(kind)) }

  lemma UnderNorm(v: Json, k: string)
    ensures Under(Norm(v), k) == if k in KINDS then Clean(Under(v, k)) else Under(v, k)
  {
  }

  lemma CleanTwice(m: map<string, Json>)
    ensures Clean(Clean(m)) == Clean(m)
  {
  }

  lemma NormAt(v: Json, k: string)
    ensures var m := Norm(v).m;
      if k in KINDS then k in m && m[k] == Obj(Clean(Under(v, k)))
      else (k in m <==> k in Fields(v)) && (k in m ==> m[k] == Fields(v)[k])
  {
    hide Clean, Under, Fields;
  }

  /** Two values read alike when their dismissals do, and the rest is the same. */
  lemma SameNorm(v: Json, w: Json)
    requires forall k :: k in KINDS ==> Clean(Under(v, k)) == Clean(Under(w, k))
    requires forall k :: k !in KINDS ==>
      (k in Fields(v) <==> k in Fields(w)) && (k in Fields(v) ==> Fields(v)[k] == Fields(w)[k])
    ensures Norm(v) == Norm(w)
  {
    hide Clean, Under, Fields;
    var a, b := Norm(v).m, Norm(w).m;
    forall k ensures (k in a <==> k in b) && (k in a ==> a[k] == b[k]) {
      NormAt(v, k);
      NormAt(w, k);
    }
    hide Norm;
    assert a == b;
  }

  lemma NormTwice(v: Json)
    ensures Norm(Norm(v)) == Norm(v)
  {
    forall k | k in KINDS ensures Clean(Under(Norm(v), k)) == Clean(Under(v, k)) {
      UnderNorm(v, k);
      CleanTwice(Under(v, k));
    }
    SameNorm(Norm(v), v);
  }

  /** A change does not mind whether what it changes was normalised. */
  lemma RunNormalises(c: Change, v: Json)
    ensures Run(c, Norm(v)) == Run(c, v)
  {
    NormTwice(v);
  }

  lemma KindNames(kind: Kind)
    ensures Name(kind) in KINDS && forall other :: Name(other) == Name(kind) ==> other == kind
  {
  }

  lemma UnderRun(c: Change, v: Json, k: string)
    requires k in KINDS
    ensures Under(Run(c, v), k) == if k == Name(c.kind) then Edit(c, Clean(Under(v, k))) else Clean(Under(v, k))
  {
    hide Clean, Norm, Edit, Name;
    NormIsObject(v);
    UnderNorm(v, k);
  }

  lemma NormIsObject(v: Json)
    ensures Norm(v).Obj?
  {
  }

  lemma EditTwice(c: Change, m: map<string, Json>)
    ensures Clean(Edit(c, Clean(Edit(c, m)))) == Clean(Edit(c, m))
  {
  }

  /** A change made again changes nothing: a write tried again after it took effect is harmless. */
  lemma ApplyTwice(c: Change, v: Json)
    ensures Apply(c, Apply(c, v)) == Apply(c, v)
  {
    hide Clean, Under, Edit, Name, Norm;
    var r := Run(c, v);
    RunNormalises(c, r);
    forall k | k in KINDS ensures Clean(Under(Run(c, r), k)) == Clean(Under(r, k)) {
      UnderRun(c, r, k);
      UnderRun(c, v, k);
      EditTwice(c, Clean(Under(v, k)));
      CleanTwice(Under(v, k));
      CleanTwice(Clean(Under(v, k)));
    }
    OtherFields(c, r);
    KindNames(c.kind);
    SameNorm(Run(c, r), r);
  }

  lemma OtherFields(c: Change, v: Json)
    ensures forall k :: k !in KINDS ==>
      (k in Fields(Run(c, v)) <==> k in Fields(v)) && (k in Fields(v) ==> Fields(Run(c, v))[k] == Fields(v)[k])
  {
    KindNames(c.kind);
  }

  /** What a change does to what is dismissed. */
  lemma ApplyChanges(c: Change, v: Json, kind: Kind, key: string)
    ensures IsDismissed(Apply(c, v), kind, key) <==>
      if c.kind != kind then IsDismissed(Norm(v), kind, key)
      else match c
        case Dismiss(_, k, _) => (key == k && k != "") || IsDismissed(Norm(v), kind, key)
        case Restore(_, keys) => IsDismissed(Norm(v), kind, key) && keys.Some? && key !in keys.value
  {
    hide Name, Norm, Under;
    var k := Name(kind);
    KindNames(kind);
    UnderNorm(v, k);
    UnderNorm(Run(c, v), k);
    UnderRun(c, v, k);
    EditedKey(c, Clean(Under(v, k)), key);
    CleanTwice(Under(v, k));
  }

  /** And with what dates: the key dismissed has the change's, every other one the date it had; and whatever the value
      holds besides its four kinds stays as it was. */
  lemma ApplyKeepsTheRest(c: Change, v: Json, kind: Kind, key: string)
    ensures var was, now := Under(v, Name(kind)), Under(Apply(c, v), Name(kind));
      key in now ==>
        if c.Dismiss? && c.kind == kind && c.key == key then now[key] == Str(c.at)
        else key in was && now[key] == was[key]
    ensures var was, now := Fields(v), Fields(Apply(c, v));
      forall k :: k !in {"grants", "bindings", "alerts", "limits"} ==>
        (k in now <==> k in was) && (k in now ==> now[k] == was[k])
  {
    hide Name, Norm, Under, Fields, Clean;
    var k := Name(kind);
    KindNames(kind);
    UnderNorm(Run(c, v), k);
    UnderRun(c, v, k);
    EditedDate(c, Clean(Under(v, k)), key);
    CleanKeeps(Under(v, k), key);
    CleanKeeps(Clean(Under(v, k)), key);
    OtherFields(c, v);
    forall x ensures x !in KINDS ==>
                       && (x in Fields(Apply(c, v)) <==> x in Fields(v))
                       && (x in Fields(v) ==> Fields(Apply(c, v))[x] == Fields(v)[x])
    {
      NormAt(Run(c, v), x);
      FieldsOfNorm(Run(c, v));
    }
  }

  lemma FieldsOfNorm(v: Json)
    ensures Norm(v).Obj? && Fields(Norm(v)) == Norm(v).m
  {
  }

  lemma CleanKeeps(m: map<string, Json>, key: string)
    ensures key in Clean(m) ==> key in m && Clean(m)[key] == m[key]
  {
  }

  lemma EditedDate(c: Change, m: map<string, Json>, key: string)
    ensures var now := Clean(Edit(c, m));
      key in now ==>
        if c.Dismiss? && c.key == key then now[key] == Str(c.at) else key in m && now[key] == m[key]
  {
  }

  lemma EditedKey(c: Change, m: map<string, Json>, key: string)
    requires Clean(m) == m
    ensures key in Clean(Edit(c, m)) <==> match c
        case Dismiss(_, k, _) => (key == k && k != "") || key in m
        case Restore(_, keys) => key in m && keys.Some? && key !in keys.value
  {
    assert key in m ==> key in Clean(m);
  }
}
