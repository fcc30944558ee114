/** Registering a workspace: the limits, the proof, the store, in the order they are asked, and what a refusal takes
    back. */
module Registration {
  import opened Options
  import opened L = Limiter
  import opened P = Pow

  /** What saving the workspace came to. */
  datatype Made = Saved(id: string, key: string) | AtCapacity | SaveFailed

  datatype Answer =
    | TooMany(retryAfter: int)
    | Unauthorized // no operator's token
    | PowRequired
    | PowInvalid
    | Busy // too many spent challenges
    | AtLimit
    | Internal
    | Created(id: string, key: string)

  datatype Config = Config(tokens: seq<string>, bits: nat)
  datatype Request = Request(client: string, token: string, ch: string, nonce: string)

  function Unix(now: int): int { now / L.SECOND }

  predicate Operator(cfg: Config, token: string) { token != "" && token in cfg.tokens }

  predicate AsksWork(cfg: Config) { cfg.tokens == [] && cfg.bits > 0 }

  /** The wait of a refusal, in the whole seconds of the header. */
  function Retry(a: L.Answer): int
    requires a.Refused?
  {
    L.RetryAfter(a.wait)
  }

  // ---- the whole of one registration ----

  datatype Counters = Counters(perClient: L.Limits, global: L.Limits, pow: P.State)

  /** Whether the proof, when one is asked for, holds; what it does to the spent set. */
  function Prove(c: P.Crypto, cfg: Config, p: P.State, r: Request, now: int): (P.State, Option<Answer>) {
    if cfg.tokens != [] then (p, if Operator(cfg, r.token) then None else Some(Unauthorized))
    else if cfg.bits == 0 then (p, None)
    else if r.ch == "" then (p, Some(PowRequired))
    else
      var exp := P.Verify(c, r.ch, r.nonce, cfg.bits, Unix(now));
      if exp.None? then (p, Some(PowInvalid))
      else
        var (p', how) := P.Spend(p, r.ch, exp.value, Unix(now));
        (p', match how case Taken => None case Used => Some(PowInvalid) case Full => Some(Busy))
  }

  function TakenBack(cfg: Config, p: P.State, r: Request): P.State { if AsksWork(cfg) then P.Unspend(p, r.ch) else p }

  function Handle(c: P.Crypto, cfg: Config, s: Counters, r: Request, now: int, made: Made): (Counters, Answer)
  {
    var (perClient, first) := L.Allow(s.perClient, r.client, now);
    var s1 := s.(perClient := perClient);
    if first.Refused? then (s1, TooMany(Retry(first)))
    else
      var (p, refusal) := Prove(c, cfg, s.pow, r, now);
      var s2 := s1.(pow := p);
      if refusal.Some? then (s2, refusal.value)
      else
        var (global, second) := L.Allow(s.global, "", now);
        var s3 := s2.(global := global);
        if second.Refused? then (s3.(pow := TakenBack(cfg, p, r)), TooMany(Retry(second)))
        else
          match made
          case Saved(id, key) => (s3, Created(id, key))
          case AtCapacity => (s3.(pow := TakenBack(cfg, p, r)), AtLimit)
          case SaveFailed => (s3.(pow := TakenBack(cfg, p, r)), Internal)
  }

  predicate Refusal(a: Answer) { !a.Created? }

  /** A request turned down for its proof costs the global limit nothing, replayed as often as one likes; any request
      turned down leaves its challenge as it found it: spent if it was, and otherwise not. */
  lemma RefusalsCostNothing(c: P.Crypto, cfg: Config, s: Counters, r: Request, now: int, made: Made)
    ensures var (s', a) := Handle(c, cfg, s, r, now, made);
      && (a.Unauthorized? || a.PowRequired? || a.PowInvalid? || a.Busy? ==> s'.global == s.global)
      && (Refusal(a) && AsksWork(cfg) && r.ch in s'.pow.spent ==> r.ch in s.pow.spent)
      && (Refusal(a) && r.ch in s.pow.spent && s.pow.spent[r.ch] >= Unix(now) ==> r.ch in s'.pow.spent)
  {
    P.SweptIsSmaller(s.pow, Unix(now));
  }

  /** A key is answered only for a proof that verifies and was not spent, and is from then on. */
  lemma CreatedIsProved(c: P.Crypto, cfg: Config, s: Counters, r: Request, now: int, made: Made)
    requires AsksWork(cfg) && Handle(c, cfg, s, r, now, made).1.Created?
    ensures var exp := P.Verify(c, r.ch, r.nonce, cfg.bits, Unix(now));
      && exp.Some? && r.ch !in P.Swept(s.pow, Unix(now)).spent
      && var spent := Handle(c, cfg, s, r, now, made).0.pow.spent; r.ch in spent && spent[r.ch] == exp.value
  {
  }

  /** A key is answered exactly to a caller within both limits, when the workspace could be saved: on an operator's
      relay for one of its tokens, which is not empty; on one that asks for work for a proof that verifies and was not
      spent, while there is room for it; else to anyone. */
  lemma CreatedExactly(c: P.Crypto, cfg: Config, s: Counters, r: Request, now: int, made: Made)
    ensures var (s', a) := Handle(c, cfg, s, r, now, made);
      var exp := P.Verify(c, r.ch, r.nonce, cfg.bits, Unix(now));
      var swept := P.Swept(s.pow, Unix(now)).spent;
      && (a.Created? <==>
           && L.Allow(s.perClient, r.client, now).1.Allowed? && L.Allow(s.global, "", now).1.Allowed? && made.Saved?
           && (cfg.tokens != [] ==> r.token != "" && exists i :: 0 <= i < |cfg.tokens| && cfg.tokens[i] == r.token)
           && (cfg.tokens == [] && cfg.bits > 0 ==> r.ch != "" && exp.Some? && r.ch !in swept && |swept| < 65_536))
      && (a.Created? ==> a == Created(made.id, made.key))
      && (a.Unauthorized? <==>
           && L.Allow(s.perClient, r.client, now).1.Allowed? && cfg.tokens != []
           && (r.token == "" || forall i :: 0 <= i < |cfg.tokens| ==> cfg.tokens[i] != r.token))
  {
    hide L.Allow, P.Verify, P.Swept;
  }

  /** A request with a proof that gets past its own limit is a post ... */
  lemma PostStep(c: P.Crypto, cfg: Config, p: P.State, r: Request, now: int, y: P.Sys) returns (mid: P.Sys)
    requires AsksWork(cfg) && r.ch != "" && y.s == p && y.now <= Unix(now)
    ensures P.Next(c, cfg.bits, y, P.Post(r.ch, r.nonce, Unix(now)), mid) && mid.s == Prove(c, cfg, p, r, now).0
    ensures Prove(c, cfg, p, r, now).1.None? ==> r.ch in mid.inflight
    ensures Prove(c, cfg, p, r, now).1.Some? ==> mid.inflight == y.inflight
  {
    hide P.Verify, P.Swept;
    var exp := P.Verify(c, r.ch, r.nonce, cfg.bits, Unix(now));
    mid := y.(now := Unix(now));
    if exp.Some? {
      var (s', how) := P.Spend(p, r.ch, exp.value, Unix(now));
      mid := mid.(s := s', inflight := if how.Taken? then y.inflight + multiset{r.ch} else y.inflight);
    }
  }

  /** ... and then the answer or the refusal of it: in the spent set, one registration is these steps of the system. */
  lemma HandleIsSteps(c: P.Crypto, cfg: Config, s: Counters, r: Request, now: int, made: Made, y: P.Sys)
      returns (mid: P.Sys, last: P.Sys)
    requires AsksWork(cfg) && r.ch != "" && y.s == s.pow && y.now <= Unix(now)
    requires L.Allow(s.perClient, r.client, now).1.Allowed?
    ensures var (s', a) := Handle(c, cfg, s, r, now, made);
      && P.Next(c, cfg.bits, y, P.Post(r.ch, r.nonce, Unix(now)), mid) && last.s == s'.pow
      && if a.PowInvalid? || a.Busy? then last == mid && mid.inflight == y.inflight
         else P.Next(c, cfg.bits, mid, if a.Created? then P.Registered(r.ch) else P.Refused(r.ch), last)
  {
    mid := PostStep(c, cfg, s.pow, r, now, y);
    last := mid;
    if Prove(c, cfg, s.pow, r, now).1.Some? { ProofRefusals(c, cfg, s.pow, r, now); }
    hide Prove, L.Allow;
    if Prove(c, cfg, s.pow, r, now).1.None? {
      var out := mid.(inflight := mid.inflight - multiset{r.ch});
      last := if Handle(c, cfg, s, r, now, made).1.Created? then out.(answered := out.answered + multiset{r.ch})
              else out.(s := P.Unspend(mid.s, r.ch));
    }
  }

  lemma ProofRefusals(c: P.Crypto, cfg: Config, p: P.State, r: Request, now: int)
    requires AsksWork(cfg) && r.ch != "" && Prove(c, cfg, p, r, now).1.Some?
    ensures var a := Prove(c, cfg, p, r, now).1.value; a.PowInvalid? || a.Busy?
  {
  }

  // ---- the handler ----

  class Server {
    const cfg: Config
    const perClient: L.Limiter
    const global: L.Limiter
    const pow: P.Pow

    constructor (c: Config, perClientRate: L.Rate, globalRate: L.Rate)
      ensures fresh(perClient) && fresh(global) && fresh(pow) && perClient != global && cfg == c
      ensures S() == Counters(L.Limits(perClientRate, map[], None), L.Limits(globalRate, map[], None),
        P.State(map[], 0))
    {
      cfg := c;
      perClient := new L.Limiter(perClientRate);
      global := new L.Limiter(globalRate);
      pow := new P.Pow();
    }

    function S(): Counters
      reads perClient, global, pow
    {
      Counters(perClient.State(), global.State(), pow.S())
    }

    /** The proof, spent before the global limit is asked. */
    method Check(c: P.Crypto, r: Request, now: int) returns (refusal: Option<Answer>)
      modifies pow
      ensures (pow.S(), refusal) == Prove(c, cfg, old(pow.S()), r, now)
    {
      if cfg.tokens != [] { return if r.token == "" || r.token !in cfg.tokens then Some(Unauthorized) else None; }
      if cfg.bits == 0 { return None; }
      if r.ch == "" { return Some(PowRequired); }
      var exp := P.Verify(c, r.ch, r.nonce, cfg.bits, Unix(now));
      if exp.None? { return Some(PowInvalid); }
      var how := pow.Record(r.ch, exp.value, Unix(now));
      match how {
        case Full => return Some(Busy);
        case Used => return Some(PowInvalid);
        case Taken => return None;
      }
    }

    method TakeBack(r: Request)
      modifies pow
      ensures pow.S() == TakenBack(cfg, old(pow.S()), r)
    {
      if cfg.tokens == [] && cfg.bits > 0 { pow.TakeBack(r.ch); }
    }

    method NewWorkspace(c: P.Crypto, r: Request, now: int, made: Made) returns (a: Answer)
      requires perClient != global
      modifies perClient, global, pow
      ensures (S(), a) == Handle(c, cfg, old(S()), r, now, made)
    {
      var first := perClient.Ask(r.client, now);
      if first.Refused? { return TooMany(Retry(first)); }
      var refusal := Check(c, r, now);
      if refusal.Some? { return refusal.value; }
      var second := global.Ask("", now);
      if second.Refused? {
        TakeBack(r);
        return TooMany(Retry(second));
      }
      match made {
        case Saved(id, key) => return Created(id, key);
        case AtCapacity => TakeBack(r); return AtLimit;
        case SaveFailed => TakeBack(r); return Internal;
      }
    }
  }
}
