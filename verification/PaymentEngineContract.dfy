/** The payment engine contract. It asks the merchant registry about a merchant and calls
    the reward engine with `try_`, so a failing reward rolls back alone. */
module PaymentEngineContract {
  import opened Host
  import opened PaymentEngine
  import PayEra
  import RewardEngine
  import MerchantRegistryContract
  import RewardEngineContract

  /** The answers of a call during which nobody else is asked. */
  const NOBODY_ASKED := Answers(Reply.Trap, Reply.Trap)

  class Contract {
    const self: Address
    const registry: MerchantRegistryContract.Contract
    const rewardEngine: RewardEngineContract.Contract
    var admin: Address
    var pendingAdmin: Option<Address>
    var paused: bool
    var operators: map<Address, bool>
    var payments: map<Bytes32, Payment>

    ghost function State(): Payments
      reads this
    {
      Payments(admin, pendingAdmin, paused, operators, payments)
    }

    /** The whole system as this contract reaches it. */
    ghost function World(): PayEra.World
      reads this, registry, rewardEngine, rewardEngine.token
    {
      PayEra.World(self, rewardEngine.self, rewardEngine.token.State(), rewardEngine.State(), State(), registry.State())
    }

    ghost predicate Valid()
      reads this, rewardEngine.token
    {
      Keyed(State()) && rewardEngine.token.Valid()
    }

    constructor (self: Address, admin: Address, registry: MerchantRegistryContract.Contract,
                 rewardEngine: RewardEngineContract.Contract)
      ensures this.self == self && this.registry == registry && this.rewardEngine == rewardEngine
      ensures State() == Deploy(admin) && Keyed(State())
    {
      this.self := self;
      this.registry := registry;
      this.rewardEngine := rewardEngine;
      this.admin := admin;
      this.pendingAdmin := None;
      this.paused := false;
      this.operators := map[admin := true];
      this.payments := map[];
    }

    /** One transaction on this contract is one step of the whole system. */
    method Invoke(env: Env, call: Call) returns (r: Reply<i128, PaymentError>)
      requires Valid()
      modifies this, rewardEngine, rewardEngine.token
      ensures Valid()
      ensures r == Check(old(State()), env, call, PayEra.Asked(old(World()), env, call))
      ensures World() == PayEra.Exec(old(World()), PayEra.Tx(env, PayEra.OnPayments(call)))
    {
      StepKeyed(State(), env, call, PayEra.Asked(World(), env, call));
      match call
      case Create(operator, payer, id, merchant, asset, paise, qr, reward) =>
        r := CreatePayment(env, operator, payer, id, merchant, asset, paise, qr, reward);
      case IssueReward(operator, id) => r := IssueReward(env, operator, id);
      case SetAdmin(newAdmin) => r := SetAdmin(env, newAdmin);
      case AcceptAdmin => r := AcceptAdmin(env);
      case Pause => r := Pause(env);
      case Unpause => r := Unpause(env);
      case SetOperator(who, on) => r := SetOperator(env, who, on);
      case Quote(operator, id, asset, usdc, fee) => r := QuotePayment(env, operator, id, asset, usdc, fee);
      case MarkConverted(operator, id) => r := TransitionOperator(env, operator, id, Quoted, Converted, call);
      case MarkSettled(operator, id) => r := TransitionOperator(env, operator, id, Converted, Settled, call);
      case Complete(operator, id) => r := TransitionOperator(env, operator, id, Rewarded, Completed, call);
      case Cancel(payer, id) => r := CancelPayment(env, payer, id);
      case Fail(operator, id) => r := FailPayment(env, operator, id);
    }

    function RequireNotPaused(): Reply<(), PaymentError>
      reads this
    {
      Require(!paused, Paused)
    }

    function RequireOperator(env: Env, operator: Address): Reply<(), PaymentError>
      reads this
    {
      var _ :- RequireNotPaused();
      var _ :- RequireAuth<PaymentError>(env, operator);
      if Flag(operators, operator, false) then Ok(()) else Err(Unauthorized)
    }

    function ReadPayment(id: Bytes32): Reply<Payment, PaymentError>
      reads this
    {
      if id in payments then Ok(payments[id]) else Err(PaymentNotFound)
    }

    method WritePayment(p: Payment)
      modifies this`payments
      ensures ReadPayment(p.paymentId) == Ok(p)
      ensures Keyed(old(State())) ==> Keyed(State())
      ensures State() == old(State()).(payments := old(payments)[p.paymentId := p])
    {
      payments := payments[p.paymentId := p];
    }

    method SetAdmin(env: Env, newAdmin: Address) returns (r: Reply<i128, PaymentError>)
      modifies this
      ensures r == Check(old(State()), env, Call.SetAdmin(newAdmin), NOBODY_ASKED)
      ensures State() == Step(old(State()), env, Call.SetAdmin(newAdmin), NOBODY_ASKED)
    {
      var _ :- RequireNotPaused();
      var _ :- RequireAuth(env, admin);
      pendingAdmin := Some(newAdmin);
      return Ok(0);
    }

    method AcceptAdmin(env: Env) returns (r: Reply<i128, PaymentError>)
      modifies this
      ensures r == Check(old(State()), env, Call.AcceptAdmin, NOBODY_ASKED)
      ensures State() == Step(old(State()), env, Call.AcceptAdmin, NOBODY_ASKED)
    {
      var _ :- RequireNotPaused();
      if pendingAdmin.None? {
        return Err(NoPendingAdmin);
      }
      var pending := pendingAdmin.value;
      var _ :- RequireAuth(env, pending);
      var oldAdmin := admin;
      if oldAdmin != pending {
        operators := operators[oldAdmin := false];
      }
      admin := pending;
      pendingAdmin := None;
      operators := operators[pending := true];
      return Ok(0);
    }

    method Pause(env: Env) returns (r: Reply<i128, PaymentError>)
      modifies this
      ensures r == Check(old(State()), env, Call.Pause, NOBODY_ASKED)
      ensures State() == Step(old(State()), env, Call.Pause, NOBODY_ASKED)
    {
      var _ :- RequireAuth(env, admin);
      paused := true;
      return Ok(0);
    }

    method Unpause(env: Env) returns (r: Reply<i128, PaymentError>)
      modifies this
      ensures r == Check(old(State()), env, Call.Unpause, NOBODY_ASKED)
      ensures State() == Step(old(State()), env, Call.Unpause, NOBODY_ASKED)
    {
      var _ :- RequireAuth(env, admin);
      paused := false;
      return Ok(0);
    }

    method SetOperator(env: Env, who: Address, on: bool) returns (r: Reply<i128, PaymentError>)
      modifies this
      ensures r == Check(old(State()), env, Call.SetOperator(who, on), NOBODY_ASKED)
      ensures State() == Step(old(State()), env, Call.SetOperator(who, on), NOBODY_ASKED)
    {
      var _ :- RequireNotPaused();
      var _ :- RequireAuth(env, admin);
      operators := operators[who := on];
      return Ok(0);
    }

    method CreatePayment(env: Env, operator: Address, payer: Address, id: Bytes32, merchant: Bytes32, asset: AssetCode,
                         paise: i128, qr: Bytes32, reward: Bytes32)
      returns (r: Reply<i128, PaymentError>)
      modifies this
      ensures var call := Create(operator, payer, id, merchant, asset, paise, qr, reward);
              && r == Check(old(State()), env, call, PayEra.Asked(old(World()), env, call))
              && State() == Step(old(State()), env, call, PayEra.Asked(old(World()), env, call))
    {
      var _ :- RequireNotPaused();
      var _ :- RequireOperator(env, operator);
      if paise <= 0 {
        return Err(InvalidAmount);
      }
      if id in payments {
        return Err(PaymentAlreadyExists);
      }
      var approved := registry.IsApproved(merchant);
      if !approved.Ok? {
        return Trap;
      }
      if !approved.value {
        return Err(MerchantNotApproved);
      }
      WritePayment(Payment(id, payer, merchant, asset, paise, qr, reward, 0, 0, 0, 0, Created, env.ledger, env.ledger));
      return Ok(0);
    }

    method QuotePayment(env: Env, operator: Address, id: Bytes32, assetAmount: i128, usdcAmount: i128, networkFeePaise: i128)
      returns (r: Reply<i128, PaymentError>)
      requires Keyed(State())
      modifies this
      ensures r == Check(old(State()), env, Quote(operator, id, assetAmount, usdcAmount, networkFeePaise), NOBODY_ASKED)
      ensures State() == Step(old(State()), env, Quote(operator, id, assetAmount, usdcAmount, networkFeePaise), NOBODY_ASKED)
      ensures r.Ok? ==> id in old(payments) && payments == old(payments)[id := old(payments)[id].(
                assetAmount := assetAmount, usdcAmount := usdcAmount, networkFeePaise := networkFeePaise,
                status := Quoted, updatedLedger := env.ledger)]
    {
      var _ :- RequireOperator(env, operator);
      if assetAmount <= 0 || usdcAmount <= 0 || networkFeePaise < 0 {
        return Err(InvalidAmount);
      }
      var payment :- ReadPayment(id);
      if payment.status != Created {
        return Err(InvalidStatus);
      }
      payment := payment.(assetAmount := assetAmount, usdcAmount := usdcAmount, networkFeePaise := networkFeePaise);
      payment := payment.(status := Quoted, updatedLedger := env.ledger);
      WritePayment(payment);
      return Ok(0);
    }

    /** The helper behind mark_converted, mark_settled and complete_payment. */
    method TransitionOperator(env: Env, operator: Address, id: Bytes32, from: Status, to: Status, ghost call: Call)
      returns (r: Reply<i128, PaymentError>)
      requires Keyed(State())
      requires call.MarkConverted? || call.MarkSettled? || call.Complete?
      requires call.operator == operator && call.paymentId == id && Target(call) == to
      requires forall s :: Starts(call, s) <==> s == from
      modifies this
      ensures r == Check(old(State()), env, call, NOBODY_ASKED)
      ensures State() == Step(old(State()), env, call, NOBODY_ASKED)
    {
      var _ :- RequireOperator(env, operator);
      var payment :- ReadPayment(id);
      if payment.status != from {
        return Err(InvalidStatus);
      }
      payment := payment.(status := to, updatedLedger := env.ledger);
      WritePayment(payment);
      return Ok(0);
    }

    /** The payment moves on whether or not the reward engine answers. */
    method IssueReward(env: Env, operator: Address, id: Bytes32) returns (r: Reply<i128, PaymentError>)
      requires Valid()
      modifies this, rewardEngine, rewardEngine.token
      ensures rewardEngine.token.Valid()
      ensures var call := Call.IssueReward(operator, id);
              && r == Check(old(State()), env, call, PayEra.Asked(old(World()), env, call))
              && World() == PayEra.Exec(old(World()), PayEra.Tx(env, PayEra.OnPayments(call)))
    {
      var _ :- RequireOperator(env, operator);
      var payment :- ReadPayment(id);
      if payment.status != Settled {
        return Err(InvalidStatus);
      }
      var answer := rewardEngine.Invoke(
        env.CalledBy(self),
        RewardEngine.IssueSpend(self, payment.rewardId, payment.payer, payment.paymentId, payment.paise));
      var amount: i128 := if answer.Ok? then answer.value else 0;
      payment := payment.(starReward := amount, status := Rewarded, updatedLedger := env.ledger);
      WritePayment(payment);
      return Ok(amount);
    }

    method CancelPayment(env: Env, payer: Address, id: Bytes32) returns (r: Reply<i128, PaymentError>)
      requires Keyed(State())
      modifies this
      ensures r == Check(old(State()), env, Cancel(payer, id), NOBODY_ASKED)
      ensures State() == Step(old(State()), env, Cancel(payer, id), NOBODY_ASKED)
    {
      var _ :- RequireNotPaused();
      var _ :- RequireAuth(env, payer);
      var payment :- ReadPayment(id);
      if payment.payer != payer {
        return Err(Unauthorized);
      }
      if payment.status != Created && payment.status != Quoted {
        return Err(InvalidStatus);
      }
      payment := payment.(status := Cancelled, updatedLedger := env.ledger);
      WritePayment(payment);
      return Ok(0);
    }

    method FailPayment(env: Env, operator: Address, id: Bytes32) returns (r: Reply<i128, PaymentError>)
      requires Keyed(State())
      modifies this
      ensures r == Check(old(State()), env, Fail(operator, id), NOBODY_ASKED)
      ensures State() == Step(old(State()), env, Fail(operator, id), NOBODY_ASKED)
    {
      var _ :- RequireOperator(env, operator);
      var payment :- ReadPayment(id);
      if payment.status == Completed || payment.status == Cancelled {
        return Err(InvalidStatus);
      }
      payment := payment.(status := Failed, updatedLedger := env.ledger);
      WritePayment(payment);
      return Ok(0);
    }
  }
}
