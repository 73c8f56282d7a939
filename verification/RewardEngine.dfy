/** The reward engine as a state machine. Its only dependence on the token is whether the
    token accepts the mint it asks for. */
module RewardEngine {
  import opened Host

  const STAR_PER_100_INR: i128 := 10
  const PAISE_PER_100_INR: i128 := 10_000
  const REFERRAL_REWARD: i128 := 100

  datatype RewardError =
    | Paused
    | Unauthorized
    | InvalidAmount
    | RewardAlreadyIssued
    | NoPendingAdmin

  datatype Kind = Spend | Referral | Campaign

  datatype Record = Record(
    rewardId: Bytes32, recipient: Address, sourceId: Bytes32, issuer: Address, kind: Kind,
    amount: i128, createdLedger: u32)

  datatype Rewards = Rewards(
    admin: Address, pendingAdmin: Option<Address>, paused: bool,
    issuers: map<Address, bool>, records: map<Bytes32, Record>)

  datatype Call =
    | SetAdmin(newAdmin: Address)
    | AcceptAdmin
    | Pause
    | Unpause
    | SetIssuer(who: Address, on: bool)
    | IssueSpend(issuer: Address, rewardId: Bytes32, recipient: Address, sourceId: Bytes32, paise: i128)
    | IssueReferral(issuer: Address, rewardId: Bytes32, recipient: Address, sourceId: Bytes32)
    | IssueCampaign(issuer: Address, rewardId: Bytes32, recipient: Address, sourceId: Bytes32, star: i128)

  function Deploy(admin: Address): Rewards {
    Rewards(admin, None, false, map[admin := true], map[])
  }

  predicate Issues(call: Call) { call.IssueSpend? || call.IssueReferral? || call.IssueCampaign? }

  /** The on-chain formula: 10 STAR for every full 100 INR, with a checked multiplication. */
  function CalculateSpendReward(paise: i128): Reply<i128, RewardError> {
    if paise <= 0 then Err(InvalidAmount)
    else
      match CheckedMul(paise / PAISE_PER_100_INR, STAR_PER_100_INR)
      case None => Err(InvalidAmount)
      case Some(star) => Ok(star)
  }

  function AmountOf(call: Call): Reply<i128, RewardError>
    requires Issues(call)
  {
    match call
    case IssueSpend(_, _, _, _, paise) =>
      var star :- CalculateSpendReward(paise);
      if star <= 0 then Err(InvalidAmount) else Ok(star)
    case IssueReferral(_, _, _, _) => Ok(REFERRAL_REWARD)
    case IssueCampaign(_, _, _, _, star) => Ok(star)
  }

  function KindOf(call: Call): Kind
    requires Issues(call)
  {
    match call
    case IssueSpend(_, _, _, _, _) => Spend
    case IssueReferral(_, _, _, _) => Referral
    case IssueCampaign(_, _, _, _, _) => Campaign
  }

  predicate IsIssuer(s: Rewards, a: Address) { Flag(s.issuers, a, false) }

  function NotPaused(s: Rewards): Reply<(), RewardError> { Require(!s.paused, Paused) }

  /** Everything an issue call checks before it asks the token to mint. */
  function CheckIssue(s: Rewards, env: Env, call: Call): Reply<i128, RewardError>
    requires Issues(call)
  {
    var star :- AmountOf(call);
    var _ :- NotPaused(s);
    var _ :- Require<RewardError>(0 < star, InvalidAmount);
    var _ :- RequireAuth<RewardError>(env, call.issuer);
    var _ :- Require<RewardError>(IsIssuer(s, call.issuer), Unauthorized);
    var _ :- Require<RewardError>(call.rewardId !in s.records, RewardAlreadyIssued);
    Ok(star)
  }

  /** The answer of the engine, given whether the token accepts the mint. The mint is not
      a `try_` call: when the token refuses it, the engine traps. */
  function Check(s: Rewards, env: Env, call: Call, mintAccepted: bool): Reply<i128, RewardError> {
    match call
    case SetAdmin(_) =>
      var _ :- NotPaused(s);
      var _ :- RequireAuth<RewardError>(env, s.admin);
      Ok(0)
    case AcceptAdmin =>
      var _ :- NotPaused(s);
      var _ :- Require<RewardError>(s.pendingAdmin.Some?, NoPendingAdmin);
      var _ :- RequireAuth<RewardError>(env, s.pendingAdmin.value);
      Ok(0)
    case Pause =>
      var _ :- RequireAuth<RewardError>(env, s.admin);
      Ok(0)
    case Unpause =>
      var _ :- RequireAuth<RewardError>(env, s.admin);
      Ok(0)
    case SetIssuer(_, _) =>
      var _ :- NotPaused(s);
      var _ :- RequireAuth<RewardError>(env, s.admin);
      Ok(0)
    case _ =>
      var star :- CheckIssue(s, env, call);
      if mintAccepted then Ok(star) else Trap
  }

  function Apply(s: Rewards, env: Env, call: Call): Rewards
    requires Check(s, env, call, true).Ok?
  {
    match call
    case SetAdmin(newAdmin) => s.(pendingAdmin := Some(newAdmin))
    case AcceptAdmin =>
      var pending := s.pendingAdmin.value;
      s.(admin := pending,
         pendingAdmin := None,
         issuers := (if s.admin != pending then s.issuers[s.admin := false] else s.issuers)[pending := true])
    case Pause => s.(paused := true)
    case Unpause => s.(paused := false)
    case SetIssuer(who, on) => s.(issuers := s.issuers[who := on])
    case _ =>
      s.(records := s.records[call.rewardId :=
        Record(call.rewardId, call.recipient, call.sourceId, call.issuer, KindOf(call),
               CheckIssue(s, env, call).value, env.ledger)])
  }

  function Step(s: Rewards, env: Env, call: Call, mintAccepted: bool): Rewards {
    if Check(s, env, call, mintAccepted).Ok? then Apply(s, env, call) else s
  }

  // ---------------------------------------------------------------- the formula

  /** The off-chain formula on unbounded integers; TypeScript's bigint division truncates. */
  function OffChainSpendReward(paise: int): int {
    (if 0 <= paise then paise / PAISE_PER_100_INR else -(-paise / PAISE_PER_100_INR)) * STAR_PER_100_INR
  }

  /** The checked multiplication never fails, so the two formulas agree on every amount
      the contract accepts, and the contract accepts exactly the positive ones. */
  lemma FormulasAgree(paise: i128)
    ensures CalculateSpendReward(paise) == if 0 < paise then Ok(OffChainSpendReward(paise)) else Err(InvalidAmount)
    ensures OffChainSpendReward(0 - paise) == -OffChainSpendReward(paise)
  {
  }

  /** One STAR per ten rupees spent, short by less than one 100-rupee step. */
  lemma RewardBounds(paise: i128)
    requires 0 < paise
    ensures var r := CalculateSpendReward(paise);
            r.Ok? && 1000 * r.value <= paise < 1000 * r.value + 10000
  {
  }

  /** Splitting a payment in two loses at most one step of the reward and never gains. */
  lemma RewardSplit(a: i128, b: i128)
    requires 0 < a && 0 < b && a + b <= I128_MAX
    ensures var ra, rb, rab := CalculateSpendReward(a), CalculateSpendReward(b), CalculateSpendReward(a + b);
            && ra.Ok? && rb.Ok? && rab.Ok?
            && ra.value + rb.value <= rab.value <= ra.value + rb.value + 10
  {
    assert a / 10000 + b / 10000 <= (a + b) / 10000 <= a / 10000 + b / 10000 + 1;
  }

  // ---------------------------------------------------------------- the rules, one aspect at a time

  /** The address whose authority a call needs. */
  function Signer(s: Rewards, call: Call): Option<Address> {
    if Issues(call) then Some(call.issuer)
    else if call.AcceptAdmin? then s.pendingAdmin
    else Some(s.admin)
  }

  /** What the recipient is promised: 10 STAR per full 100 rupees spent, 100 for a referral,
      the amount named for a campaign. */
  function Promised(call: Call): int
    requires Issues(call)
  {
    match call
    case IssueSpend(_, _, _, _, paise) => if 0 < paise then paise / 10000 * 10 else 0
    case IssueReferral(_, _, _, _) => 100
    case IssueCampaign(_, _, _, _, star) => star
  }

  predicate Admissible(s: Rewards, env: Env, call: Call) {
    && (s.paused ==> call.Pause? || call.Unpause?)
    && Signer(s, call).Some? && env.Authorises(Signer(s, call).value)
    && (Issues(call) ==> IsIssuer(s, call.issuer) && call.rewardId !in s.records && 0 < Promised(call))
  }

  /** Exactly which calls the engine accepts, given that the token mints, and that a refusal
      names a reason that is there. An issue call answers what it promises. */
  lemma AcceptedIff(s: Rewards, env: Env, call: Call, mintAccepted: bool)
    ensures Check(s, env, call, mintAccepted).Ok? <==> Admissible(s, env, call) && (Issues(call) ==> mintAccepted)
    ensures match Check(s, env, call, mintAccepted)
            case Ok(answer) => answer == if Issues(call) then Promised(call) else 0
            case Trap => Signer(s, call).Some? && (env.Authorises(Signer(s, call).value) ==> Issues(call) && !mintAccepted)
            case Err(Paused) => s.paused
            case Err(NoPendingAdmin) => call.AcceptAdmin? && s.pendingAdmin.None?
            case Err(InvalidAmount) => Issues(call) && Promised(call) <= 0
            case Err(Unauthorized) => Issues(call) && !IsIssuer(s, call.issuer)
            case Err(RewardAlreadyIssued) => Issues(call) && call.rewardId in s.records
  {
  }

  /** Only the admin pauses and unpauses, at any time; a paused engine changes nothing but
      the pause flag. */
  lemma PauseIff(s: Rewards, env: Env, call: Call, mintAccepted: bool)
    ensures var s' := Step(s, env, call, mintAccepted);
            && s'.paused == (if env.Authorises(s.admin) && call.Pause? then true
                             else if env.Authorises(s.admin) && call.Unpause? then false
                             else s.paused)
            && (s.paused ==> s' == s.(paused := s'.paused))
  {
  }

  /** What one call makes of the records: an accepted issue call writes its own, complete and
      dated, and nothing else writes any. */
  lemma RecordAfter(s: Rewards, env: Env, call: Call, mintAccepted: bool)
    ensures var records := Step(s, env, call, mintAccepted).records;
            if Issues(call) && Admissible(s, env, call) && mintAccepted then
              records == s.records[call.rewardId :=
                Record(call.rewardId, call.recipient, call.sourceId, call.issuer,
                       if call.IssueSpend? then Spend else if call.IssueReferral? then Referral else Campaign,
                       Promised(call), env.ledger)]
            else records == s.records
  {
    AcceptedIff(s, env, call, mintAccepted);
  }
}
