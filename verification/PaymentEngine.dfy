/** The payment engine as a state machine. What the merchant registry and the reward
    engine answer during a call is an input here. */
module PaymentEngine {
  import opened Host
  import MerchantRegistry
  import RewardEngine

  datatype PaymentError =
    | Paused
    | Unauthorized
    | InvalidAmount
    | MerchantNotApproved
    | PaymentAlreadyExists
    | PaymentNotFound
    | InvalidStatus
    | NoPendingAdmin

  datatype AssetCode = ETH | BTC | SOL | XLM | USDC

  datatype Status = Created | Quoted | Converted | Settled | Rewarded | Completed | Failed | Cancelled

  datatype Payment = Payment(
    paymentId: Bytes32, payer: Address, merchantId: Bytes32, asset: AssetCode, paise: i128,
    qrHash: Bytes32, rewardId: Bytes32, assetAmount: i128, usdcAmount: i128, networkFeePaise: i128,
    starReward: i128, status: Status, createdLedger: u32, updatedLedger: u32)

  datatype Payments = Payments(
    admin: Address, pendingAdmin: Option<Address>, paused: bool,
    operators: map<Address, bool>, payments: map<Bytes32, Payment>)

  datatype Call =
    | SetAdmin(newAdmin: Address)
    | AcceptAdmin
    | Pause
    | Unpause
    | SetOperator(who: Address, on: bool)
    | Create(operator: Address, payer: Address, paymentId: Bytes32, merchantId: Bytes32, asset: AssetCode,
             paise: i128, qrHash: Bytes32, rewardId: Bytes32)
    | Quote(operator: Address, paymentId: Bytes32, assetAmount: i128, usdcAmount: i128, networkFeePaise: i128)
    | MarkConverted(operator: Address, paymentId: Bytes32)
    | MarkSettled(operator: Address, paymentId: Bytes32)
    | IssueReward(operator: Address, paymentId: Bytes32)
    | Complete(operator: Address, paymentId: Bytes32)
    | Cancel(payer: Address, paymentId: Bytes32)
    | Fail(operator: Address, paymentId: Bytes32)

  /** What the other two contracts answer if the engine asks them. */
  datatype Answers = Answers(
    approved: Reply<bool, MerchantRegistry.RegistryError>,
    reward: Reply<i128, RewardEngine.RewardError>)

  function Deploy(admin: Address): Payments {
    Payments(admin, None, false, map[admin := true], map[])
  }

  predicate IsOperator(s: Payments, a: Address) { Flag(s.operators, a, false) }

  function NotPaused(s: Payments): Reply<(), PaymentError> { Require(!s.paused, Paused) }

  function RequireOperator(s: Payments, env: Env, operator: Address): Reply<(), PaymentError> {
    var _ :- NotPaused(s);
    var _ :- RequireAuth<PaymentError>(env, operator);
    Require(IsOperator(s, operator), Unauthorized)
  }

  function Find(s: Payments, id: Bytes32): Reply<Payment, PaymentError> {
    if id in s.payments then Ok(s.payments[id]) else Err(PaymentNotFound)
  }

  /** The calls that push one payment along, and the statuses they start from. */
  predicate Starts(call: Call, status: Status) {
    match call
    case Quote(_, _, _, _, _) => status == Created
    case MarkConverted(_, _) => status == Quoted
    case MarkSettled(_, _) => status == Converted
    case IssueReward(_, _) => status == Settled
    case Complete(_, _) => status == Rewarded
    case Cancel(_, _) => status == Created || status == Quoted
    case Fail(_, _) => status != Completed && status != Cancelled
    case _ => false
  }

  predicate Advances(call: Call) {
    call.Quote? || call.MarkConverted? || call.MarkSettled? || call.IssueReward? || call.Complete? || call.Cancel? || call.Fail?
  }

  predicate QuotesSensibly(call: Call) {
    match call
    case Quote(_, _, asset, usdc, fee) => 0 < asset && 0 < usdc && 0 <= fee
    case _ => true
  }

  function Target(call: Call): Status
    requires Advances(call)
  {
    match call
    case Quote(_, _, _, _, _) => Quoted
    case MarkConverted(_, _) => Converted
    case MarkSettled(_, _) => Settled
    case IssueReward(_, _) => Rewarded
    case Complete(_, _) => Completed
    case Cancel(_, _) => Cancelled
    case Fail(_, _) => Failed
  }

  /** The reward the payment records: what the reward engine answered, or 0 when the
      `try_` call came back with an error or a trap. */
  function RewardOf(answers: Answers): i128 {
    if answers.reward.Ok? then answers.reward.value else 0
  }

  /** The checks of the calls by which an operator pushes a payment along. */
  function CheckAdvance(s: Payments, env: Env, call: Call, answers: Answers): Reply<i128, PaymentError>
    requires Advances(call) && !call.Cancel?
  {
    var _ :- RequireOperator(s, env, call.operator);
    var _ :- Require<PaymentError>(QuotesSensibly(call), InvalidAmount);
    var p :- Find(s, call.paymentId);
    var _ :- Require<PaymentError>(Starts(call, p.status), InvalidStatus);
    Ok(if call.IssueReward? then RewardOf(answers) else 0)
  }

  function Check(s: Payments, env: Env, call: Call, answers: Answers): Reply<i128, PaymentError> {
    match call
    case SetAdmin(_) =>
      var _ :- NotPaused(s);
      var _ :- RequireAuth<PaymentError>(env, s.admin);
      Ok(0)
    case AcceptAdmin =>
      var _ :- NotPaused(s);
      var _ :- Require<PaymentError>(s.pendingAdmin.Some?, NoPendingAdmin);
      var _ :- RequireAuth<PaymentError>(env, s.pendingAdmin.value);
      Ok(0)
    case Pause =>
      var _ :- RequireAuth<PaymentError>(env, s.admin);
      Ok(0)
    case Unpause =>
      var _ :- RequireAuth<PaymentError>(env, s.admin);
      Ok(0)
    case SetOperator(_, _) =>
      var _ :- NotPaused(s);
      var _ :- RequireAuth<PaymentError>(env, s.admin);
      Ok(0)
    case Create(operator, _, id, _, _, paise, _, _) =>
      var _ :- RequireOperator(s, env, operator);
      var _ :- Require<PaymentError>(0 < paise, InvalidAmount);
      var _ :- Require<PaymentError>(id !in s.payments, PaymentAlreadyExists);
      if !answers.approved.Ok? then Trap else
      var _ :- Require<PaymentError>(answers.approved.value, MerchantNotApproved);
      Ok(0)
    case Cancel(payer, id) =>
      var _ :- NotPaused(s);
      var _ :- RequireAuth<PaymentError>(env, payer);
      var p :- Find(s, id);
      var _ :- Require<PaymentError>(p.payer == payer, Unauthorized);
      var _ :- Require<PaymentError>(Starts(call, p.status), InvalidStatus);
      Ok(0)
    case _ =>
      CheckAdvance(s, env, call, answers)
  }

  /** The payment after `call` has pushed it along. */
  function Advanced(p: Payment, env: Env, call: Call, answers: Answers): Payment
    requires Advances(call)
  {
    var q := p.(status := Target(call), updatedLedger := env.ledger);
    match call
    case Quote(_, _, asset, usdc, fee) => q.(assetAmount := asset, usdcAmount := usdc, networkFeePaise := fee)
    case IssueReward(_, _) => q.(starReward := RewardOf(answers))
    case _ => q
  }

  function Apply(s: Payments, env: Env, call: Call, answers: Answers): Payments
    requires Check(s, env, call, answers).Ok?
  {
    match call
    case SetAdmin(newAdmin) => s.(pendingAdmin := Some(newAdmin))
    case AcceptAdmin =>
      var pending := s.pendingAdmin.value;
      s.(admin := pending,
         pendingAdmin := None,
         operators := (if s.admin != pending then s.operators[s.admin := false] else s.operators)[pending := true])
    case Pause => s.(paused := true)
    case Unpause => s.(paused := false)
    case SetOperator(who, on) => s.(operators := s.operators[who := on])
    case Create(_, payer, id, merchant, asset, paise, qr, reward) =>
      s.(payments := s.payments[id :=
        Payment(id, payer, merchant, asset, paise, qr, reward, 0, 0, 0, 0, Created, env.ledger, env.ledger)])
    case _ =>
      s.(payments := s.payments[call.paymentId := Advanced(s.payments[call.paymentId], env, call, answers)])
  }

  function Step(s: Payments, env: Env, call: Call, answers: Answers): Payments {
    if Check(s, env, call, answers).Ok? then Apply(s, env, call, answers) else s
  }

  /** Every payment is stored under its own id. */
  predicate Keyed(s: Payments) {
    forall id | id in s.payments :: s.payments[id].paymentId == id
  }

  lemma StepKeyed(s: Payments, env: Env, call: Call, answers: Answers)
    requires Keyed(s)
    ensures Keyed(Step(s, env, call, answers))
  {
  }

  // ---------------------------------------------------------------- no trapped payment

  /** The reward step depends on the engine's own state alone, never on the reward engine. */
  lemma RewardStepIff(s: Payments, env: Env, operator: Address, id: Bytes32, answers: Answers)
    ensures Check(s, env, IssueReward(operator, id), answers).Ok? <==>
            && !s.paused && env.Authorises(operator) && IsOperator(s, operator)
            && id in s.payments && s.payments[id].status == Settled
  {
  }

  /** Whatever the reward engine does — answer, fail or trap — an operator of an unpaused
      engine brings a settled payment to Completed with these two calls. */
  lemma NoTrappedPayment(s: Payments, env1: Env, env2: Env, operator: Address, id: Bytes32, a1: Answers, a2: Answers)
    requires !s.paused && IsOperator(s, operator) && env1.Authorises(operator) && env2.Authorises(operator)
    requires id in s.payments && s.payments[id].status == Settled
    ensures var s1 := Step(s, env1, IssueReward(operator, id), a1);
            var s2 := Step(s1, env2, Complete(operator, id), a2);
            && Check(s, env1, IssueReward(operator, id), a1) == Ok(RewardOf(a1))
            && Check(s1, env2, Complete(operator, id), a2).Ok?
            && s2.payments.Keys == s.payments.Keys
            && s2.payments[id].status == Completed
            && s2.payments[id].starReward == RewardOf(a1)
            && (!a1.reward.Ok? ==> s2.payments[id].starReward == 0)
  {
  }
}
