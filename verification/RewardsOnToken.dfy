/** The reward engine together with the token it mints on. */
module RewardsOnToken {
  import opened Host
  import R = RewardEngine
  import T = StarToken

  datatype Engines = Engines(rewards: R.Rewards, token: T.Token)

  /** The mint the engine at address `self` asks for when it issues `star`. */
  function MintCall(self: Address, call: R.Call, star: i128): T.Call
    requires R.Issues(call)
  {
    T.MintFromMinter(self, call.recipient, star)
  }

  predicate MintAccepted(e: Engines, self: Address, env: Env, call: R.Call) {
    R.Issues(call) &&
    var star := R.CheckIssue(e.rewards, env, call);
    star.Ok? && T.Check(e.token, env.CalledBy(self), MintCall(self, call, star.value)).Ok?
  }

  function Answer(e: Engines, self: Address, env: Env, call: R.Call): Reply<i128, R.RewardError> {
    R.Check(e.rewards, env, call, MintAccepted(e, self, env, call))
  }

  /** A call that fails anywhere leaves both contracts as they were. */
  function Exec(e: Engines, self: Address, env: Env, call: R.Call): Engines {
    if !Answer(e, self, env, call).Ok? then e
    else if R.Issues(call) then
      Engines(R.Apply(e.rewards, env, call),
              T.Apply(e.token, env.CalledBy(self), MintCall(self, call, R.CheckIssue(e.rewards, env, call).value)))
    else Engines(R.Apply(e.rewards, env, call), e.token)
  }

  /** Asking again for a reward that has been issued changes neither contract. */
  lemma RepeatedRewardIgnored(e: Engines, self: Address, env: Env, call: R.Call)
    requires R.Issues(call) && call.rewardId in e.rewards.records
    ensures Exec(e, self, env, call) == e && !Answer(e, self, env, call).Ok?
  {
  }

  /** A call mints exactly when it writes a record: the recipient is credited the amount of
      the one new record, or neither contract's money and records change. */
  lemma MintWithRecord(e: Engines, self: Address, env: Env, call: R.Call)
    ensures var e' := Exec(e, self, env, call);
            if R.Issues(call) && Answer(e, self, env, call).Ok? then
              && call.rewardId !in e.rewards.records
              && e'.rewards.records.Keys == e.rewards.records.Keys + {call.rewardId}
              && (forall id | id in e.rewards.records :: e'.rewards.records[id] == e.rewards.records[id])
              && Answer(e, self, env, call).value == e'.rewards.records[call.rewardId].amount > 0
              && e'.token.supply == e.token.supply + e'.rewards.records[call.rewardId].amount
              && e'.token.balances == T.Credit(e.token.balances, e'.rewards.records[call.rewardId].recipient,
                                               e'.rewards.records[call.rewardId].amount)
            else e'.token == e.token && e'.rewards.records == e.rewards.records
  {
  }

  /** The mints the engine makes leave the token's admin and roles alone. */
  lemma RolesKept(e: Engines, self: Address, env: Env, call: R.Call)
    ensures var t, t' := e.token, Exec(e, self, env, call).token;
            t' == t.(balances := t'.balances, supply := t'.supply, events := t'.events)
  {
  }

  /** Exactly when the token mints for the engine. */
  predicate TokenMints(t: T.Token, self: Address, recipient: Address, star: int) {
    && !t.paused
    && T.IsMinter(t, self)
    && T.IsAuthorized(t, recipient)
    && t.supply + star <= t.maxSupply
  }

  /** Exactly when a reward is issued: an enabled issuer authorises it at an engine that is
      not paused, under a new id, for a positive amount that the token mints. It answers what
      the recipient is promised. */
  lemma RewardIssuedIff(e: Engines, self: Address, env: Env, call: R.Call)
    requires R.Issues(call)
    ensures Answer(e, self, env, call).Ok? <==>
            && !e.rewards.paused
            && env.Authorises(call.issuer) && R.IsIssuer(e.rewards, call.issuer)
            && call.rewardId !in e.rewards.records
            && 0 < R.Promised(call)
            && TokenMints(e.token, self, call.recipient, R.Promised(call))
    ensures Answer(e, self, env, call).Ok? ==> Answer(e, self, env, call).value == R.Promised(call)
  {
    R.AcceptedIff(e.rewards, env, call, true);
    R.AcceptedIff(e.rewards, env, call, MintAccepted(e, self, env, call));
  }

  /** A record appears only for an issuer who is enabled and authorises it, and says what the
      call asked for. */
  lemma NewRecord(e: Engines, self: Address, env: Env, call: R.Call, id: Bytes32)
    requires id !in e.rewards.records && id in Exec(e, self, env, call).rewards.records
    ensures var r := Exec(e, self, env, call).rewards.records[id];
            && R.Issues(call) && Answer(e, self, env, call).Ok?
            && !e.rewards.paused && env.Authorises(r.issuer) && R.IsIssuer(e.rewards, r.issuer)
            && r == R.Record(call.rewardId, call.recipient, call.sourceId, call.issuer,
                             if call.IssueSpend? then R.Spend else if call.IssueReferral? then R.Referral else R.Campaign,
                             R.Promised(call), env.ledger)
            && id == call.rewardId
  {
    var accepted := MintAccepted(e, self, env, call);
    R.AcceptedIff(e.rewards, env, call, accepted);
    R.RecordAfter(e.rewards, env, call, accepted);
  }
}
