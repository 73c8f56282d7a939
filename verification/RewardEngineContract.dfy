/** The reward engine contract. It calls the token's `mint_from_minter` without `try_`, so
    a refused mint traps; nothing can fail once the mint has gone through. */
module RewardEngineContract {
  import opened Host
  import opened RewardEngine
  import RewardsOnToken
  import StarToken
  import StarTokenContract

  class Contract {
    const self: Address
    const token: StarTokenContract.Contract
    var admin: Address
    var pendingAdmin: Option<Address>
    var paused: bool
    var issuers: map<Address, bool>
    var records: map<Bytes32, Record>

    ghost function State(): Rewards
      reads this
    {
      Rewards(admin, pendingAdmin, paused, issuers, records)
    }

    ghost function Engines(): RewardsOnToken.Engines
      reads this, token
    {
      RewardsOnToken.Engines(State(), token.State())
    }

    constructor (self: Address, admin: Address, token: StarTokenContract.Contract)
      ensures this.self == self && this.token == token && State() == Deploy(admin)
    {
      this.self := self;
      this.token := token;
      this.admin := admin;
      this.pendingAdmin := None;
      this.paused := false;
      this.issuers := map[admin := true];
      this.records := map[];
    }

    method Invoke(env: Env, call: Call) returns (r: Reply<i128, RewardError>)
      requires token.Valid()
      modifies this, token
      ensures token.Valid()
      ensures r == RewardsOnToken.Answer(old(Engines()), self, env, call)
      ensures Engines() == RewardsOnToken.Exec(old(Engines()), self, env, call)
    {
      match call
      case SetAdmin(newAdmin) => r := SetAdmin(env, newAdmin);
      case AcceptAdmin => r := AcceptAdmin(env);
      case Pause => r := Pause(env);
      case Unpause => r := Unpause(env);
      case SetIssuer(who, on) => r := SetIssuer(env, who, on);
      case IssueSpend(issuer, id, recipient, source, paise) => r := IssueSpendReward(env, issuer, id, recipient, source, paise);
      case IssueReferral(issuer, id, recipient, source) =>
        r := IssueReward(env, issuer, id, recipient, source, Referral, REFERRAL_REWARD, call);
      case IssueCampaign(issuer, id, recipient, source, star) =>
        r := IssueReward(env, issuer, id, recipient, source, Campaign, star, call);
    }

    function RequireNotPaused(): Reply<(), RewardError>
      reads this
    {
      Require(!paused, Paused)
    }

    method SetAdmin(env: Env, newAdmin: Address) returns (r: Reply<i128, RewardError>)
      modifies this
      ensures r == Check(old(State()), env, Call.SetAdmin(newAdmin), false)
      ensures State() == Step(old(State()), env, Call.SetAdmin(newAdmin), false)
    {
      var _ :- RequireNotPaused();
      var _ :- RequireAuth(env, admin);
      pendingAdmin := Some(newAdmin);
      return Ok(0);
    }

    method AcceptAdmin(env: Env) returns (r: Reply<i128, RewardError>)
      modifies this
      ensures r == Check(old(State()), env, Call.AcceptAdmin, false)
      ensures State() == Step(old(State()), env, Call.AcceptAdmin, false)
    {
      var _ :- RequireNotPaused();
      if pendingAdmin.None? {
        return Err(NoPendingAdmin);
      }
      var pending := pendingAdmin.value;
      var _ :- RequireAuth(env, pending);
      var oldAdmin := admin;
      if oldAdmin != pending {
        issuers := issuers[oldAdmin := false];
      }
      admin := pending;
      pendingAdmin := None;
      issuers := issuers[pending := true];
      return Ok(0);
    }

    method Pause(env: Env) returns (r: Reply<i128, RewardError>)
      modifies this
      ensures r == Check(old(State()), env, Call.Pause, false)
      ensures State() == Step(old(State()), env, Call.Pause, false)
    {
      var _ :- RequireAuth(env, admin);
      paused := true;
      return Ok(0);
    }

    method Unpause(env: Env) returns (r: Reply<i128, RewardError>)
      modifies this
      ensures r == Check(old(State()), env, Call.Unpause, false)
      ensures State() == Step(old(State()), env, Call.Unpause, false)
    {
      var _ :- RequireAuth(env, admin);
      paused := false;
      return Ok(0);
    }

    method SetIssuer(env: Env, who: Address, on: bool) returns (r: Reply<i128, RewardError>)
      modifies this
      ensures r == Check(old(State()), env, Call.SetIssuer(who, on), false)
      ensures State() == Step(old(State()), env, Call.SetIssuer(who, on), false)
    {
      var _ :- RequireNotPaused();
      var _ :- RequireAuth(env, admin);
      issuers := issuers[who := on];
      return Ok(0);
    }

    method IssueSpendReward(env: Env, issuer: Address, id: Bytes32, recipient: Address, source: Bytes32, paise: i128)
      returns (r: Reply<i128, RewardError>)
      requires token.Valid()
      modifies this, token
      ensures token.Valid()
      ensures r == RewardsOnToken.Answer(old(Engines()), self, env, IssueSpend(issuer, id, recipient, source, paise))
      ensures Engines() == RewardsOnToken.Exec(old(Engines()), self, env, IssueSpend(issuer, id, recipient, source, paise))
    {
      var star :- CalculateSpendReward(paise);
      if star <= 0 {
        return Err(InvalidAmount);
      }
      r := IssueReward(env, issuer, id, recipient, source, Spend, star, IssueSpend(issuer, id, recipient, source, paise));
    }

    /** The helper behind the three entry points; `call` is the entry point it serves. */
    method IssueReward(env: Env, issuer: Address, id: Bytes32, recipient: Address, source: Bytes32,
                       kind: Kind, star: i128, ghost call: Call)
      returns (r: Reply<i128, RewardError>)
      requires token.Valid()
      requires Issues(call) && call.issuer == issuer && call.rewardId == id && call.recipient == recipient
      requires call.sourceId == source && KindOf(call) == kind && AmountOf(call) == Ok(star)
      modifies this, token
      ensures token.Valid()
      ensures r.Ok? ==> env.Authorises(issuer) && IsIssuer(old(State()), issuer) && id !in old(records)
      ensures r.Ok? ==> records == old(records)[id := Record(id, recipient, source, issuer, kind, star, env.ledger)]
      ensures r == RewardsOnToken.Answer(old(Engines()), self, env, call)
      ensures Engines() == RewardsOnToken.Exec(old(Engines()), self, env, call)
    {
      var _ :- RequireNotPaused();
      if star <= 0 {
        return Err(InvalidAmount);
      }
      var _ :- RequireAuth(env, issuer);
      if !Flag(issuers, issuer, false) {
        return Err(Unauthorized);
      }
      if id in records {
        return Err(RewardAlreadyIssued);
      }
      var minted := token.Invoke(env.CalledBy(self), StarToken.MintFromMinter(self, recipient, star));
      if !minted.Ok? {
        return Trap;
      }
      records := records[id := Record(id, recipient, source, issuer, kind, star, env.ledger)];
      return Ok(star);
    }
  }
}
