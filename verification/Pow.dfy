/** Proof of work on workspace registration: stateless challenges, and the set of spent ones. Times are Unix seconds. */
module Pow {
  import opened Options

  newtype byte = x: int | 0 <= x < 256

  /** The encoding and the hashes, as functions. `mac` is the 16 bytes under the relay's key. */
  datatype Crypto = Crypto(encode: seq<byte> -> string, decode: string -> Option<seq<byte>>,
    mac: seq<byte> -> seq<byte>, sha: string -> seq<byte>)

  ghost predicate Sound(c: Crypto) { forall raw :: c.decode(c.encode(raw)) == Some(raw) && |c.mac(raw)| == MAC_LEN }

  const TTL := 600
  const VERSION: byte := 1
  const RAW_LEN := 42
  const MAC_LEN := 16
  const MAX_SPENT := 0x1_0000

  // ---- leading zero bits ----

  function Weight(i: nat): int
    requires i < 8
  {
    [128, 64, 32, 16, 8, 4, 2, 1][i]
  }

  /** The i-th bit of a string of bytes, the highest first. */
  predicate Bit(bs: seq<byte>, i: nat)
    requires i < 8 * |bs|
  {
    bs[i / 8] as int / Weight(i % 8) % 2 == 1
  }

  function LeadingZeros8(x: byte): (n: nat)
    ensures n <= 8 && (n == 8 <==> x == 0)
    ensures forall i :: 0 <= i < n ==> (x as int) < Weight(i)
    ensures n < 8 ==> Weight(n) <= x as int < 2 * Weight(n)
  {
    if x >= 128 then 0 else if x >= 64 then 1 else if x >= 32 then 2 else if x >= 16 then 3
    else if x >= 8 then 4 else if x >= 4 then 5 else if x >= 2 then 6 else if x >= 1 then 7 else 8
  }

  /** n zero bits come first, and then a one or the end. */
  predicate StartsWithZeros(bs: seq<byte>, n: nat) {
    n <= 8 * |bs| && (forall i :: 0 <= i < n ==> !Bit(bs, i)) && (n < 8 * |bs| ==> Bit(bs, n))
  }

  method LeadingZeroBits(bs: seq<byte>) returns (n: nat)
    ensures StartsWithZeros(bs, n) && n == Zeros(bs)
  {
    n := 0;
    for k := 0 to |bs|
      invariant n == 8 * k && forall i :: 0 <= i < k ==> bs[i] == 0
    {
      if bs[k] != 0 {
        n := n + LeadingZeros8(bs[k]);
        ByteBits(bs, k);
        ZerosUnique(bs, n);
        return;
      }
      n := n + 8;
    }
    ZeroBits(bs, |bs|);
    ZerosUnique(bs, n);
  }

  function Zeros(bs: seq<byte>): nat {
    if bs == [] then 0 else if bs[0] == 0 then 8 + Zeros(bs[1..]) else LeadingZeros8(bs[0])
  }

  lemma ZeroBits(bs: seq<byte>, k: nat)
    requires k <= |bs| && forall i :: 0 <= i < k ==> bs[i] == 0
    ensures forall i :: 0 <= i < 8 * k ==> !Bit(bs, i)
  {
    forall i | 0 <= i < 8 * k ensures !Bit(bs, i) { assert bs[i / 8] == 0; }
  }

  lemma ByteBits(bs: seq<byte>, k: nat)
    requires k < |bs| && bs[k] != 0 && forall i :: 0 <= i < k ==> bs[i] == 0
    ensures StartsWithZeros(bs, 8 * k + LeadingZeros8(bs[k]))
  {
    ZeroBits(bs, k);
    var n := LeadingZeros8(bs[k]);
    forall i | 8 * k <= i < 8 * k + n ensures !Bit(bs, i) {
      assert i / 8 == k && i % 8 == i - 8 * k;
      assert bs[k] as int / Weight(i % 8) == 0;
    }
    assert (8 * k + n) / 8 == k && (8 * k + n) % 8 == n;
    assert bs[k] as int / Weight(n) == 1;
  }

  lemma {:induction false} ZerosAre(bs: seq<byte>)
    ensures StartsWithZeros(bs, Zeros(bs))
  {
    if bs != [] {
      if bs[0] == 0 {
        ZerosAre(bs[1..]);
        ZeroBits(bs, 1);
        forall i | 8 <= i < 8 * |bs| ensures Bit(bs, i) == Bit(bs[1..], i - 8) {
          assert (i - 8) / 8 == i / 8 - 1 && (i - 8) % 8 == i % 8;
        }
        forall i | 0 <= i < Zeros(bs) ensures !Bit(bs, i) { if i >= 8 { assert !Bit(bs[1..], i - 8); } }
      } else {
        ByteBits(bs, 0);
      }
    }
  }

  lemma ZerosUnique(bs: seq<byte>, n: nat)
    requires StartsWithZeros(bs, n)
    ensures n == Zeros(bs)
  {
    ZerosAre(bs);
    var m := Zeros(bs);
    assert forall i :: 0 <= i < m ==> !Bit(bs, i);
    assert forall i :: 0 <= i < n ==> !Bit(bs, i);
  }

  /** The work asked for: the first `bits` bits of the hash are zero. */
  lemma ZerosReach(bs: seq<byte>, bits: nat)
    ensures Zeros(bs) >= bits <==> bits <= 8 * |bs| && forall i :: 0 <= i < bits ==> !Bit(bs, i)
  {
    ZerosAre(bs);
    if Zeros(bs) < bits && bits <= 8 * |bs| { assert Bit(bs, Zeros(bs)); }
  }

  // ---- challenges ----

  function BigEndian(v: nat, n: nat): (bs: seq<byte>)
    ensures |bs| == n
  {
    if n == 0 then [] else BigEndian(v / 256, n - 1) + [(v % 256) as byte]
  }

  function FromBigEndian(bs: seq<byte>): nat {
    if bs == [] then 0 else 256 * FromBigEndian(bs[..|bs| - 1]) + bs[|bs| - 1] as nat
  }

  function Pow256(n: nat): nat { if n == 0 then 1 else 256 * Pow256(n - 1) }

  lemma {:induction false} BigEndianReads(v: nat, n: nat)
    requires v < Pow256(n)
    ensures FromBigEndian(BigEndian(v, n)) == v
  {
    if n > 0 {
      BigEndianReads(v / 256, n - 1);
      assert BigEndian(v, n)[..n - 1] == BigEndian(v / 256, n - 1);
    }
  }

  const TWO63 := 0x8000_0000_0000_0000

  predicate Int64(t: int) { -TWO63 <= t < TWO63 }

  function ToUint64(t: int): nat { t % (2 * TWO63) }

  function ToInt64(v: nat): int { if v % (2 * TWO63) >= TWO63 then v % (2 * TWO63) - 2 * TWO63 else v % (2 * TWO63) }

  function NonceChar(c: char): bool { 'A' <= c <= 'Z' || 'a' <= c <= 'z' || '0' <= c <= '9' || c == '_' || c == '-' }

  predicate NonceOK(nonce: string) { 1 <= |nonce| <= 64 && forall i :: 0 <= i < |nonce| ==> NonceChar(nonce[i]) }

  predicate Solves(c: Crypto, challenge: string, nonce: string, bits: nat) {
    Zeros(c.sha(challenge + ":" + nonce)) >= bits
  }

  /** A challenge of some difficulty, and when it expires. */
  function Mint(c: Crypto, bits: nat, now: int, random: seq<byte>): (string, int) {
    var head := [VERSION, (bits % 256) as byte] + BigEndian(ToUint64(now + TTL), 8) + random;
    (c.encode(head + c.mac(head)), now + TTL)
  }

  /** When the challenge expires, if it is one of the relay's. */
  function Expiry(c: Crypto, challenge: string): Option<int> {
    match c.decode(challenge)
    case None => None
    case Some(raw) =>
      if |raw| != RAW_LEN || raw[0] != VERSION || raw[RAW_LEN - MAC_LEN..] != c.mac(raw[..RAW_LEN - MAC_LEN]) then None
      else Some(ToInt64(FromBigEndian(raw[2..10])))
  }

  /** A solution's expiry, when it may be spent. */
  function Verify(c: Crypto, challenge: string, nonce: string, want: nat, now: int): Option<int> {
    match c.decode(challenge)
    case None => None
    case Some(raw) =>
      if |raw| != RAW_LEN || raw[0] != VERSION || !NonceOK(nonce) then None
      else if raw[RAW_LEN - MAC_LEN..] != c.mac(raw[..RAW_LEN - MAC_LEN]) then None
      else
        var bits, exp := raw[1] as nat, ToInt64(FromBigEndian(raw[2..10]));
        if bits < want || exp < now || !Solves(c, challenge, nonce, bits) then None else Some(exp)
  }

  lemma VerifiedExpiry(c: Crypto, challenge: string, nonce: string, want: nat, now: int)
    requires Verify(c, challenge, nonce, want, now).Some?
    ensures Verify(c, challenge, nonce, want, now) == Expiry(c, challenge) && Expiry(c, challenge).value >= now
  {
  }

  lemma Int64Reads(t: int)
    requires Int64(t)
    ensures ToInt64(FromBigEndian(BigEndian(ToUint64(t), 8))) == t
  {
    hide BigEndian, FromBigEndian, Pow256;
    Pow256Of8();
    BigEndianReads(ToUint64(t), 8);
  }

  lemma Pow256Of8()
    ensures Pow256(8) == 2 * TWO63
  {
    assert Pow256(1) == 256 && Pow256(2) == 0x1_0000 && Pow256(4) == 0x1_0000_0000;
  }

  lemma MintedIs(c: Crypto, bits: nat, minted: int, random: seq<byte>, nonce: string, want: nat, now: int)
    requires Sound(c) && |random| == 16 && bits < 256 && Int64(minted + TTL)
    ensures var (challenge, exp) := Mint(c, bits, minted, random);
      && exp == minted + TTL
      && Verify(c, challenge, nonce, want, now) ==
           if NonceOK(nonce) && want <= bits && now <= exp && Solves(c, challenge, nonce, bits) then Some(exp) else None
  {
    var stamp := BigEndian(ToUint64(minted + TTL), 8);
    var head := [VERSION, (bits % 256) as byte] + stamp + random;
    var raw := head + c.mac(head);
    assert c.decode(c.encode(raw)) == Some(raw);
    assert |raw| == RAW_LEN && raw[..RAW_LEN - MAC_LEN] == head && raw[RAW_LEN - MAC_LEN..] == c.mac(head);
    assert raw[2..10] == stamp;
    Int64Reads(minted + TTL);
  }

  /** A challenge the relay handed out is accepted until it expires, ten minutes later, while no more work is asked for
      than when it was minted, exactly with a nonce of 1 to 64 letters, digits, underscores and hyphens that, written
      after the challenge and a colon, makes a hash that starts with as many zero bits as it asked for. */
  lemma MintedVerifies(c: Crypto, bits: nat, minted: int, random: seq<byte>, nonce: string, want: nat, now: int)
    requires Sound(c) && |random| == 16 && bits < 256 && Int64(minted + 600)
    ensures var (challenge, exp) := Mint(c, bits, minted, random);
      var hash := c.sha(challenge + ":" + nonce);
      && exp == minted + 600
      && (Verify(c, challenge, nonce, want, now) == Some(exp) <==>
           && want <= bits && now <= exp
           && 1 <= |nonce| <= 64
           && (forall i :: 0 <= i < |nonce| ==>
                'A' <= nonce[i] <= 'Z' || 'a' <= nonce[i] <= 'z' || '0' <= nonce[i] <= '9' || nonce[i] in "_-")
           && bits <= 8 * |hash| && forall i :: 0 <= i < bits ==> !Bit(hash, i))
      && (Verify(c, challenge, nonce, want, now).Some? ==> Verify(c, challenge, nonce, want, now) == Some(exp))
  {
    hide Mint, Verify, Zeros, Bit;
    MintedIs(c, bits, minted, random, nonce, want, now);
    ZerosReach(c.sha(Mint(c, bits, minted, random).0 + ":" + nonce), bits);
  }

  /** So the work done for one challenge is none for another: with the same nonce each of them asks for zero bits of a
      hash of its own. */
  lemma EachChallengeItsWork(c: Crypto, bits: nat, minted: int, random: seq<byte>, minted': int, random': seq<byte>,
                             nonce: string, want: nat, now: int)
    requires Sound(c) && |random| == |random'| == 16 && bits < 256 && Int64(minted + 600) && Int64(minted' + 600)
    ensures var a, b := Mint(c, bits, minted, random).0, Mint(c, bits, minted', random').0;
      Verify(c, a, nonce, want, now).Some? && Verify(c, b, nonce, want, now).Some? ==>
        && bits <= 8 * |c.sha(a + ":" + nonce)| && bits <= 8 * |c.sha(b + ":" + nonce)|
        && forall i :: 0 <= i < bits ==> !Bit(c.sha(a + ":" + nonce), i) && !Bit(c.sha(b + ":" + nonce), i)
  {
    hide Mint, Verify, Bit;
    MintedVerifies(c, bits, minted, random, nonce, want, now);
    MintedVerifies(c, bits, minted', random', nonce, want, now);
  }

  /** And nothing is accepted that does not carry the relay's seal over its version, difficulty and expiry, or that was
      minted for less work than is asked for. */
  lemma AcceptedIsSealed(c: Crypto, challenge: string, nonce: string, want: nat, now: int)
    requires Verify(c, challenge, nonce, want, now).Some?
    ensures c.decode(challenge).Some?
    ensures var raw := c.decode(challenge).value;
      |raw| == 42 && raw[0] == 1 && raw[26..] == c.mac(raw[..26]) && want <= raw[1] as int
  {
  }

  // ---- spending ----

  /** Spent challenges, as the strings that were posted, and their expiries; when the set was last swept. */
  datatype State = State(spent: map<string, int>, sweep: int)

  datatype Spending = Taken | Used | Full

  function Swept(s: State, t: int): State {
    if t - s.sweep >= 60 || |s.spent| >= MAX_SPENT
      then State(map ch | ch in s.spent && s.spent[ch] >= t :: s.spent[ch], t) else s
  }

  function Spend(s: State, ch: string, exp: int, t: int): (State, Spending) {
    var s' := Swept(s, t);
    if ch in s'.spent then (s', Used)
    else if |s'.spent| >= MAX_SPENT then (s', Full)
    else (s'.(spent := s'.spent[ch := exp]), Taken)
  }

  function Unspend(s: State, ch: string): State { s.(spent := s.spent - {ch}) }

  lemma SweptIsSmaller(s: State, t: int)
    ensures Swept(s, t).spent.Keys <= s.spent.Keys && |Swept(s, t).spent| <= |s.spent|
    ensures forall ch :: ch in Swept(s, t).spent ==> Swept(s, t).spent[ch] == s.spent[ch]
    ensures forall ch :: ch in s.spent && s.spent[ch] >= t ==> ch in Swept(s, t).spent
  {
    SubsetSize(Swept(s, t).spent.Keys, s.spent.Keys);
    assert |Swept(s, t).spent| == |Swept(s, t).spent.Keys| && |s.spent| == |s.spent.Keys|;
  }

  lemma SubsetSize<T>(a: set<T>, b: set<T>)
    requires a <= b
    ensures |a| <= |b|
  {
    assert b == a + (b - a);
  }

  lemma SpentStaysBounded(s: State, ch: string, exp: int, t: int)
    requires |s.spent| <= MAX_SPENT
    ensures |Spend(s, ch, exp, t).0.spent| <= MAX_SPENT
  {
    SweptIsSmaller(s, t);
    var s' := Swept(s, t);
    assert s'.spent[ch := exp].Keys == s'.spent.Keys + {ch};
  }

  /** Turned away for want of room, there are that many spent challenges that could still be replayed. */
  lemma FullMeansBusy(s: State, ch: string, exp: int, t: int)
    requires |s.spent| <= MAX_SPENT && Spend(s, ch, exp, t).1.Full?
    ensures |Spend(s, ch, exp, t).0.spent| == 65_536
    ensures forall x :: x in Spend(s, ch, exp, t).0.spent ==> Spend(s, ch, exp, t).0.spent[x] >= t
  {
    SweptIsSmaller(s, t);
    if |s.spent| < MAX_SPENT { assert false; }
  }

  // ---- registrations ----

  /** Registrations in flight (spent, not answered) and answered with a workspace key; `now` is the latest time seen. */
  datatype Sys = Sys(s: State, now: int, inflight: multiset<string>, answered: multiset<string>)

  datatype Step =
    | Post(ch: string, nonce: string, t: int)
    | Registered(ch: string)
    | Refused(ch: string) // by the rate limit, for want of room, or because nothing could be saved

  ghost predicate Next(c: Crypto, want: nat, y: Sys, step: Step, y': Sys) {
    match step
    case Post(ch, nonce, t) =>
      && y.now <= t
      && var exp := Verify(c, ch, nonce, want, t);
         if exp.None? then y' == y.(now := t)
         else
           var (s', how) := Spend(y.s, ch, exp.value, t);
           y' == y.(s := s', now := t, inflight := if how.Taken? then y.inflight + multiset{ch} else y.inflight)
    case Registered(ch) =>
      ch in y.inflight && y' == y.(inflight := y.inflight - multiset{ch}, answered := y.answered + multiset{ch})
    case Refused(ch) =>
      ch in y.inflight && y' == y.(s := Unspend(y.s, ch), inflight := y.inflight - multiset{ch})
  }

  function Uses(y: Sys, ch: string): nat { y.inflight[ch] + y.answered[ch] }

  /** A challenge string is used once, or not at all; one used is remembered until it expires, one not used is not. */
  ghost predicate Inv(c: Crypto, y: Sys) {
    && |y.s.spent| <= MAX_SPENT
    && (forall ch :: ch in y.s.spent ==> Expiry(c, ch) == Some(y.s.spent[ch]) && Uses(y, ch) == 1)
    && (forall ch ::
          || Uses(y, ch) == 0
          || (Uses(y, ch) == 1 && (ch in y.s.spent || (Expiry(c, ch).Some? && Expiry(c, ch).value < y.now))))
  }

  lemma SweepKeeps(c: Crypto, y: Sys, t: int)
    requires Inv(c, y) && y.now <= t
    ensures Inv(c, y.(s := Swept(y.s, t), now := t))
  {
    hide Expiry;
    SweptIsSmaller(y.s, t);
    var y' := y.(s := Swept(y.s, t), now := t);
    forall ch ensures Uses(y', ch) == Uses(y, ch) {}
    forall ch | ch in y.s.spent && ch !in y'.s.spent ensures y.s.spent[ch] < t {}
  }

  lemma TakenKeeps(c: Crypto, y: Sys, ch: string, exp: int)
    requires Inv(c, y) && ch !in y.s.spent && |y.s.spent| < MAX_SPENT && Expiry(c, ch) == Some(exp) && exp >= y.now
    ensures Inv(c, y.(s := y.s.(spent := y.s.spent[ch := exp]), inflight := y.inflight + multiset{ch}))
  {
    hide Expiry;
    var y' := y.(s := y.s.(spent := y.s.spent[ch := exp]), inflight := y.inflight + multiset{ch});
    assert y'.s.spent.Keys == y.s.spent.Keys + {ch};
    assert |y'.s.spent| == |y'.s.spent.Keys| && |y.s.spent| == |y.s.spent.Keys|;
    forall x ensures Uses(y', x) == Uses(y, x) + if x == ch then 1 else 0 {}
  }

  lemma PostKeeps(c: Crypto, want: nat, y: Sys, ch: string, nonce: string, t: int, y': Sys)
    requires Inv(c, y) && Next(c, want, y, Post(ch, nonce, t), y')
    ensures Inv(c, y')
  {
    hide Verify, Expiry, Swept;
    if Verify(c, ch, nonce, want, t).Some? {
      VerifiedExpiry(c, ch, nonce, want, t);
      SweepKeeps(c, y, t);
      hide Inv;
      var y1, exp := y.(s := Swept(y.s, t), now := t), Verify(c, ch, nonce, want, t).value;
      if Spend(y.s, ch, exp, t).1.Taken? { TakenKeeps(c, y1, ch, exp); }
    } else {
      LaterKeeps(c, y, t);
    }
  }

  lemma LaterKeeps(c: Crypto, y: Sys, t: int)
    requires Inv(c, y) && y.now <= t
    ensures Inv(c, y.(now := t))
  {
    hide Expiry;
    forall ch ensures Uses(y.(now := t), ch) == Uses(y, ch) {}
  }

  lemma NextKeeps(c: Crypto, want: nat, y: Sys, step: Step, y': Sys)
    requires Inv(c, y) && Next(c, want, y, step, y')
    ensures Inv(c, y')
  {
    match step {
      case Post(ch, nonce, t) => PostKeeps(c, want, y, ch, nonce, t, y');
      case Registered(ch) => forall x ensures Uses(y', x) == Uses(y, x) {}
      case Refused(ch) =>
        SubsetSize(y'.s.spent.Keys, y.s.spent.Keys);
        assert |y'.s.spent| == |y'.s.spent.Keys| && |y.s.spent| == |y.s.spent.Keys|;
        forall x ensures Uses(y', x) == Uses(y, x) - (if x == ch then 1 else 0) {}
    }
  }

  /** A run of the relay since it made its key. */
  ghost predicate Run(c: Crypto, want: nat, states: seq<Sys>, steps: seq<Step>) {
    && |states| == |steps| + 1 && states[0].s.spent == map[] && states[0].inflight == multiset{}
    && states[0].answered == multiset{}
    && forall i :: 0 <= i < |steps| ==> Next(c, want, states[i], steps[i], states[i + 1])
  }

  lemma {:induction false} RunKeeps(c: Crypto, want: nat, states: seq<Sys>, steps: seq<Step>, n: nat)
    requires Run(c, want, states, steps) && n <= |steps|
    ensures Inv(c, states[n])
  {
    if n > 0 {
      RunKeeps(c, want, states, steps, n - 1);
      NextKeeps(c, want, states[n - 1], steps[n - 1], states[n]);
    }
  }

  /** Over any interleaving of registrations, one challenge string yields at most one workspace key, and the set stays
      bounded. (Strings that decode to the same challenge are different strings here, each with work of its own.) */
  lemma OneKeyPerChallenge(c: Crypto, want: nat, states: seq<Sys>, steps: seq<Step>, n: nat, ch: string)
    requires Run(c, want, states, steps) && n <= |steps|
    ensures states[n].answered[ch] <= 1 && |states[n].s.spent| <= 65_536
  {
    RunKeeps(c, want, states, steps, n);
    assert Uses(states[n], ch) <= 1;
  }

  /** After a refusal the same proof may be posted again: it is taken, if there is room. */
  lemma RefusalLeavesSpendable(c: Crypto, want: nat, y: Sys, ch: string, y': Sys, nonce: string, t: int)
    requires Inv(c, y) && Next(c, want, y, Refused(ch), y') && Verify(c, ch, nonce, want, t).Some?
    ensures var how := Spend(y'.s, ch, Verify(c, ch, nonce, want, t).value, t).1;
      !how.Used? && (how.Taken? <==> |Swept(y'.s, t).spent| < 65_536)
  {
  }

  /** And after an answer it may not: the proof is refused from then on, whether remembered or expired. */
  lemma {:induction false} AnsweredStaysSpent(c: Crypto, want: nat, y: Sys, ch: string, nonce: string, t: int)
    requires Inv(c, y) && ch in y.answered && y.now <= t && Verify(c, ch, nonce, want, t).Some?
    ensures Spend(y.s, ch, Verify(c, ch, nonce, want, t).value, t).1.Used?
  {
    VerifiedExpiry(c, ch, nonce, want, t);
    SweptIsSmaller(y.s, t);
    assert Uses(y, ch) >= 1;
  }

  // ---- the set ----

  class Pow {
    var spent: map<string, int>
    var sweep: int

    function S(): State
      reads this
    {
      State(spent, sweep)
    }

    constructor ()
      ensures S() == State(map[], 0)
    {
      spent, sweep := map[], 0;
    }

    method DropExpired(t: int)
      modifies this
      ensures S() == State(map ch | ch in old(spent) && old(spent)[ch] >= t :: old(spent)[ch], t)
    {
      sweep := t;
      ghost var was := spent;
      var todo := spent.Keys;
      while todo != {}
        invariant todo <= was.Keys && sweep == t
        invariant forall ch :: ch in spent <==> ch in was && (ch in todo || was[ch] >= t)
        invariant forall ch :: ch in spent ==> spent[ch] == was[ch]
        decreases |todo|
      {
        var ch :| ch in todo;
        todo := todo - {ch};
        if ch in spent && spent[ch] < t { spent := spent - {ch}; }
      }
    }

    method Record(ch: string, exp: int, t: int) returns (how: Spending)
      modifies this
      ensures (S(), how) == Spend(old(S()), ch, exp, t)
    {
      if t - sweep >= 60 || |spent| >= MAX_SPENT { DropExpired(t); }
      if ch in spent { return Used; }
      if |spent| >= MAX_SPENT { return Full; }
      spent := spent[ch := exp];
      return Taken;
    }

    method TakeBack(ch: string)
      modifies this
      ensures S() == Unspend(old(S()), ch)
    {
      spent := spent - {ch};
    }
  }
}
