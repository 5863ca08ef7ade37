/**
 Replay protection of signed receipts: the verifier's time window, the nonce table with its expiry, and the receipt
 tables, whose insert claims a nonce in the same transaction.
 */
module Replay {
  import opened Wrappers

  type Id = int

  datatype NonceKey = NonceKey(tenant: Id, purpose: Id, nonce: Id)
  /** A signed envelope; its payload and signature are part of its identity. */
  datatype Envelope = Envelope(key: NonceKey, issued: nat, expires: Option<int>, content: Id)

  /** The text a receipt is stored under: the hash of its envelope unless the caller names another. */
  datatype ReceiptId = Digest(of: Envelope) | Given(text: Id)
  /** Each purpose has its own table, whose primary key is tenant and receipt id. */
  datatype ReceiptKey = ReceiptKey(tenant: Id, purpose: Id, id: ReceiptId)

  function KeyFor(e: Envelope, id: Option<ReceiptId>): ReceiptKey {
    ReceiptKey(e.key.tenant, e.key.purpose, if id.Some? then id.value else Digest(e))
  }

  // ----- Verifier and tables -----

  /** The temporal checks of `ReceiptVerifier.verify`, after the signature has been checked. */
  predicate InWindow(e: Envelope, now: int, skew: nat) {
    && e.issued <= now + skew
    && (e.expires.Some? ==> now <= e.expires.value + skew)
  }

  type Table = map<NonceKey, Option<int>>
  type Receipts = map<ReceiptKey, Envelope>

  function Retained(expires: Option<int>, grace: nat): Option<int> {
    if expires.None? then None else Some(expires.value + grace)
  }

  /** DELETE ... WHERE expires_at IS NOT NULL AND expires_at < cutoff. */
  function Pruned(table: Table, cutoff: int): Table {
    map k | k in table && !(table[k].Some? && table[k].value < cutoff) :: table[k]
  }

  /** `claim_replay_nonce`: the new table, or None when the nonce is already there. */
  function Claimed(table: Table, e: Envelope, now: int, grace: nat): Option<Table> {
    var kept := Pruned(table, now);
    if e.key in kept then None else Some(kept[e.key := Retained(e.expires, grace)])
  }

  /** The nonce rows and recorded receipts of one store, updated in place. */
  class ReceiptStore {
    var nonces: Table
    var receipts: Receipts
    const grace: nat

    constructor (grace: nat)
      ensures this.grace == grace && nonces == map[] && receipts == map[]
    {
      this.grace := grace;
      nonces, receipts := map[], map[];
    }

    method ClaimReplayNonce(e: Envelope, now: int) returns (isNew: bool)
      modifies this`nonces
      ensures isNew <==> Claimed(old(nonces), e, now, grace).Some?
      ensures isNew ==> nonces == Claimed(old(nonces), e, now, grace).value
      ensures !isNew ==> nonces == Pruned(old(nonces), now)
    {
      var removed := PruneReplayNonces(now);
      if e.key in nonces { return false; }
      nonces := nonces[e.key := Retained(e.expires, grace)];
      return true;
    }

    /** Exactly the rows that expired before the cutoff go, and their number is returned. */
    method PruneReplayNonces(cutoff: int) returns (removed: nat)
      modifies this`nonces
      ensures forall k :: k in nonces <==>
                k in old(nonces) && (old(nonces)[k].None? || old(nonces)[k].value >= cutoff)
      ensures forall k :: k in nonces ==> nonces[k] == old(nonces)[k]
      ensures removed + |nonces| == |old(nonces)|
    {
      var rows := |nonces|;
      assert Pruned(nonces, cutoff).Keys == nonces.Keys - (nonces.Keys - Pruned(nonces, cutoff).Keys);
      nonces := Pruned(nonces, cutoff);
      removed := rows - |nonces|;
    }

    /**
     Claim and insert in one transaction: a replay, a receipt id in use or any other failure of the insert leaves the
     tables as they were, so its nonce is unclaimed.
     */
    method RecordReceipt(e: Envelope, id: Option<ReceiptId>, now: int, insertFails: bool) returns (recorded: bool)
      modifies this`nonces, this`receipts
      ensures recorded <==>
                Claimed(old(nonces), e, now, grace).Some? && KeyFor(e, id) !in old(receipts) && !insertFails
      ensures recorded ==> nonces == Claimed(old(nonces), e, now, grace).value && receipts == old(receipts)[KeyFor(e, id) := e]
      ensures !recorded ==> nonces == old(nonces) && receipts == old(receipts)
    {
      var snapshot := nonces;
      var isNew := ClaimReplayNonce(e, now);
      if !isNew || KeyFor(e, id) in receipts || insertFails {
        nonces := snapshot;
        return false;
      }
      receipts := receipts[KeyFor(e, id) := e];
      return true;
    }
  }

  // ----- Runs -----

  /** A call that has passed the verifier's window and not yet reached its claim. */
  datatype Ticket = Ticket(envelope: Envelope, at: int)

  /** `claims` observes every claim that was committed, through the replay guard or with a receipt. */
  datatype State = State(clock: int, nonces: Table, tickets: seq<Ticket>, claims: seq<Envelope>, receipts: Receipts)

  datatype Action =
    | Tick(seconds: nat)
    | Verify(envelope: Envelope)
    | Guard(call: nat)                                                   // the replay guard of `verify`
    | Record(ticket: nat, id: Option<ReceiptId>, insertFails: bool)      // `record_*_receipt`
    | Prune(cutoff: int)

  datatype Settings = Settings(grace: nat, skew: nat, delay: nat)

  const INITIAL: State := State(0, map[], [], [], map[])

  predicate Due(c: Settings, s: State, i: nat) { i < |s.tickets| && s.clock - s.tickets[i].at <= c.delay }

  function Claim(c: Settings, s: State, i: nat): State
    requires i < |s.tickets|
  {
    var e := s.tickets[i].envelope;
    match Claimed(s.nonces, e, s.clock, c.grace)
    case None => s
    case Some(t) => s.(nonces := t, claims := s.claims + [e])
  }

  /**
   The clock is monotone, a prune cutoff is not in the future, and a verified call reaches its claim within
   `delay` seconds; actions outside these bounds do not happen.
   */
  function Next(c: Settings, s: State, a: Action): State {
    match a
    case Tick(n) => s.(clock := s.clock + n)
    case Verify(e) => if InWindow(e, s.clock, c.skew) then s.(tickets := s.tickets + [Ticket(e, s.clock)]) else s
    case Guard(i) => if Due(c, s, i) then Claim(c, s, i) else s
    case Record(i, id, fails) =>
      if Due(c, s, i) && !fails && KeyFor(s.tickets[i].envelope, id) !in s.receipts then
        var s' := Claim(c, s, i);
        if s' == s then s else s'.(receipts := s.receipts[KeyFor(s.tickets[i].envelope, id) := s.tickets[i].envelope])
      else s
    case Prune(cutoff) => if cutoff <= s.clock then s.(nonces := Pruned(s.nonces, cutoff)) else s
  }

  function Run(c: Settings, actions: seq<Action>): State
    decreases |actions|
  {
    if actions == [] then INITIAL else Next(c, Run(c, actions[..|actions| - 1]), actions[|actions| - 1])
  }

  /** No envelope is stored under two receipt ids. */
  ghost predicate RecordedOnce(s: State) {
    forall j, k :: j in s.receipts && k in s.receipts && s.receipts[j] == s.receipts[k] ==> j == k
  }

  ghost predicate ClaimedOnce(s: State) {
    forall i, j :: 0 <= i < j < |s.claims| ==> s.claims[i] != s.claims[j]
  }

  /** No caller names the receipt id itself, as none in the repository does. */
  predicate DefaultIds(actions: seq<Action>) {
    forall i :: 0 <= i < |actions| && actions[i].Record? ==> actions[i].id == None
  }

  // ----- The primary key -----

  /** Under the default ids no run, with any delay, grace and skew, records an envelope twice: the primary key forbids it. */
  lemma {:induction false} EnvelopesAreRecordedOnce(c: Settings, actions: seq<Action>)
    requires DefaultIds(actions)
    ensures RecordedOnce(Run(c, actions))
    ensures forall k :: k in Run(c, actions).receipts ==> k == KeyFor(Run(c, actions).receipts[k], None)
    decreases |actions|
  {
    if actions != [] {
      EnvelopesAreRecordedOnce(c, actions[..|actions| - 1]);
    }
  }

  /** Receipts of different tenants, purposes or ids never stand in each other's way. */
  lemma ReceiptsAreApart(e: Envelope, f: Envelope, i: Option<ReceiptId>, j: Option<ReceiptId>)
    ensures KeyFor(e, i) == KeyFor(f, j) <==>
              && e.key.tenant == f.key.tenant && e.key.purpose == f.key.purpose
              && (if i.Some? then i.value else Digest(e)) == (if j.Some? then j.value else Digest(f))
  {
  }

  ghost predicate Verified(s: State, e: Envelope) { exists i :: 0 <= i < |s.tickets| && s.tickets[i].envelope == e }

  /** What is claimed or recorded was issued no later than a skew past the present. */
  ghost predicate Timely(c: Settings, s: State) {
    && (forall i :: 0 <= i < |s.tickets| ==>
          var t := s.tickets[i];
          && t.at <= s.clock && t.envelope.issued <= t.at + c.skew
          && (t.envelope.expires.Some? ==> t.at <= t.envelope.expires.value + c.skew))
    && (forall e :: e in s.claims ==> Verified(s, e))
    && (forall k :: k in s.receipts ==> s.receipts[k] in s.claims)
  }

  /**
   In every run a claimed or recorded envelope was verified before, at a time when it was issued at most a skew ahead and
   expired at most a skew ago.
   */
  lemma {:induction false} ClaimsWereVerified(c: Settings, actions: seq<Action>)
    ensures Timely(c, Run(c, actions))
    decreases |actions|
  {
    if actions != [] {
      var s := Run(c, actions[..|actions| - 1]);
      ClaimsWereVerified(c, actions[..|actions| - 1]);
      NextTimely(c, s, actions[|actions| - 1]);
    }
  }

  lemma NextTimely(c: Settings, s: State, a: Action)
    requires Timely(c, s)
    ensures Timely(c, Next(c, s, a))
  {
    var s' := Next(c, s, a);
    forall e | e in s'.claims ensures Verified(s', e) {
      if e in s.claims {
        var i :| 0 <= i < |s.tickets| && s.tickets[i].envelope == e;
        assert s'.tickets[i].envelope == e;
      } else {
        var k := if a.Guard? then a.call else a.ticket;
        assert s'.tickets[k].envelope == e;
      }
    }
  }

  // ----- The nonce guard -----

  /** The envelope's row may be gone. */
  predicate Outlived(c: Settings, s: State, e: Envelope) {
    e.expires.Some? && s.clock > e.expires.value + c.grace
  }

  ghost predicate Inv(c: Settings, s: State) {
    && (forall i :: 0 <= i < |s.tickets| ==> s.tickets[i].at <= s.clock && InWindow(s.tickets[i].envelope, s.tickets[i].at, c.skew))
    && (forall i :: 0 <= i < |s.claims| ==>
          var e := s.claims[i];
          Outlived(c, s, e) || (e.key in s.nonces && s.nonces[e.key] == Retained(e.expires, c.grace)))
    && (forall k :: k in s.receipts ==> s.receipts[k] in s.claims)
    && ClaimedOnce(s) && RecordedOnce(s)
  }

  /** A claim in time never meets the envelope's own pruned row. */
  lemma ClaimKeeps(c: Settings, s: State, i: nat)
    requires Inv(c, s) && Due(c, s, i) && c.delay <= c.grace - c.skew
    ensures Inv(c, Claim(c, s, i))
    ensures Claim(c, s, i) != s ==> s.tickets[i].envelope !in s.claims
  {
    var e := s.tickets[i].envelope;
    assert !Outlived(c, s, e);
    if e in s.claims {
      var j :| 0 <= j < |s.claims| && s.claims[j] == e;
      assert e.key in Pruned(s.nonces, s.clock);
    }
  }

  lemma NextKeeps(c: Settings, s: State, a: Action)
    requires Inv(c, s) && c.delay <= c.grace - c.skew
    ensures Inv(c, Next(c, s, a))
  {
    match a
    case Guard(i) => if Due(c, s, i) { ClaimKeeps(c, s, i); }
    case Record(i, id, fails) => if Due(c, s, i) { ClaimKeeps(c, s, i); }
    case _ =>
  }

  lemma {:induction false} RunKeeps(c: Settings, actions: seq<Action>)
    requires c.delay <= c.grace - c.skew
    ensures Inv(c, Run(c, actions))
    decreases |actions|
  {
    if actions != [] {
      RunKeeps(c, actions[..|actions| - 1]);
      NextKeeps(c, Run(c, actions[..|actions| - 1]), actions[|actions| - 1]);
    }
  }

  lemma RunNext(c: Settings, actions: seq<Action>, a: Action)
    ensures Run(c, actions + [a]) == Next(c, Run(c, actions), a)
  {
    assert (actions + [a])[..|actions|] == actions;
  }

  /** One envelope verified twice at the last moment and recorded once; then the clock moves past its row. */
  lemma LateCall(c: Settings) returns (actions: seq<Action>, e: Envelope)
    requires c.delay > c.grace - c.skew
    ensures DefaultIds(actions)
    ensures var s := Run(c, actions);
            && s.claims == [e] && s.receipts == map[KeyFor(e, None) := e]
            && |s.tickets| == 2 && s.tickets[1].envelope == e && Due(c, s, 1)
            && Claimed(s.nonces, e, s.clock, c.grace).Some?
  {
    e := Envelope(NonceKey(0, 0, 0), 0, Some(1), 0);
    var a1 := [] + [Tick(1 + c.skew)];
    var a2 := a1 + [Verify(e)];
    var a3 := a2 + [Verify(e)];
    var a4 := a3 + [Record(0, None, false)];
    actions := a4 + [Tick(c.delay)];
    RunNext(c, [], Tick(1 + c.skew));
    RunNext(c, a1, Verify(e));
    RunNext(c, a2, Verify(e));
    RunNext(c, a3, Record(0, None, false));
    RunNext(c, a4, Tick(c.delay));
    var call := Ticket(e, 1 + c.skew);
    var table := map[e.key := Some(1 + c.grace)];
    assert Run(c, a3) == State(1 + c.skew, map[], [call, call], [], map[]);
    assert Claimed(map[], e, 1 + c.skew, c.grace) == Some(table);
    assert Run(c, a4) == State(1 + c.skew, table, [call, call], [e], map[KeyFor(e, None) := e]);
  }

  /** Past grace minus skew the guard accepts a nonce a second time, although the receipt was recorded. */
  lemma LateGuardAccepts(c: Settings) returns (actions: seq<Action>)
    requires c.delay > c.grace - c.skew
    ensures DefaultIds(actions) && !ClaimedOnce(Run(c, actions))
  {
    var before, e := LateCall(c);
    actions := before + [Guard(1)];
    RunNext(c, before, Guard(1));
    assert Run(c, actions).claims == [e, e];
    assert Run(c, actions).claims[0] == Run(c, actions).claims[1];
  }

  /** A caller that names another receipt id then gets the envelope stored twice. */
  lemma LateRecordRepeats(c: Settings) returns (actions: seq<Action>)
    requires c.delay > c.grace - c.skew
    ensures !RecordedOnce(Run(c, actions))
  {
    var before, e := LateCall(c);
    var again := Record(1, Some(Given(0)), false);
    actions := before + [again];
    RunNext(c, before, again);
    var s := Run(c, actions);
    assert s.claims == [e, e];
    assert KeyFor(e, None) in s.receipts && KeyFor(e, Some(Given(0))) in s.receipts;
  }

  ghost predicate GuardSafe(c: Settings) {
    forall actions: seq<Action> :: DefaultIds(actions) ==> ClaimedOnce(Run(c, actions))
  }

  ghost predicate RecordSafe(c: Settings) {
    forall actions: seq<Action> :: RecordedOnce(Run(c, actions))
  }

  /** Over all runs, no envelope's nonce is successfully claimed twice, exactly when the delay is within grace minus skew. */
  lemma NonceGuardIsExact(c: Settings)
    ensures GuardSafe(c) <==> c.delay <= c.grace - c.skew
  {
    if c.delay <= c.grace - c.skew {
      forall actions: seq<Action> ensures ClaimedOnce(Run(c, actions)) { RunKeeps(c, actions); }
    } else {
      var actions := LateGuardAccepts(c);
    }
  }

  /** With receipt ids that callers may choose, the same condition decides whether an envelope is ever stored twice. */
  lemma ChosenIdsAreExact(c: Settings)
    ensures RecordSafe(c) <==> c.delay <= c.grace - c.skew
  {
    if c.delay <= c.grace - c.skew {
      forall actions: seq<Action> ensures RecordedOnce(Run(c, actions)) { RunKeeps(c, actions); }
    } else {
      var actions := LateRecordRepeats(c);
    }
  }
}
