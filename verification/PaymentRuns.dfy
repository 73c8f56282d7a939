/** What holds of every payment over every run of the payment engine, whatever the other
    contracts answer. */
module PaymentRuns {
  import opened Host
  import opened PaymentEngine

  datatype Tx = Tx(env: Env, call: Call, answers: Answers)

  function After(s: Payments, txs: seq<Tx>): Payments {
    if txs == [] then s
    else
      var tx := txs[|txs| - 1];
      Step(After(s, txs[..|txs| - 1]), tx.env, tx.call, tx.answers)
  }

  /** A history with the payment's present status noted, unless it is the last one already. */
  function Extended(h: seq<Status>, s: Payments, id: Bytes32): seq<Status> {
    if id in s.payments && (h == [] || h[|h| - 1] != s.payments[id].status) then h + [s.payments[id].status] else h
  }

  /** The statuses a payment goes through in a run, each change noted once. */
  function History(s: Payments, txs: seq<Tx>, id: Bytes32): seq<Status> {
    Extended(if txs == [] then [] else History(s, txs[..|txs| - 1], id), After(s, txs), id)
  }

  const PATH: seq<Status> := [Created, Quoted, Converted, Settled, Rewarded, Completed]

  /** A prefix of the path, or a live prefix that ends in Failed, or one not yet converted
      that ends in Cancelled. */
  predicate Lifecycle(h: seq<Status>) {
    || h <= PATH
    || (1 < |h| <= 6 && h[..|h| - 1] <= PATH && h[|h| - 1] == Failed)
    || (1 < |h| <= 3 && h[..|h| - 1] <= PATH && h[|h| - 1] == Cancelled)
  }

  /** What a payment's history says about the amounts it carries. */
  predicate AmountsMatch(h: seq<Status>, p: Payment) {
    && 0 < p.paise
    && (if Quoted in h then 0 < p.assetAmount && 0 < p.usdcAmount && 0 <= p.networkFeePaise
        else p.assetAmount == p.usdcAmount == p.networkFeePaise == 0)
    && (Rewarded !in h ==> p.starReward == 0)
  }

  ghost predicate Tracked(s: Payments, h: seq<Status>, id: Bytes32) {
    && Lifecycle(h)
    && (id in s.payments <==> h != [])
    && (id in s.payments ==>
          && s.payments[id].status == h[|h| - 1]
          && s.payments[id].paymentId == id
          && AmountsMatch(h, s.payments[id]))
  }

  /** In every reachable state every payment has followed the life cycle, ends where its
      record says, carries a positive quote exactly when it has been quoted and no reward
      before it was rewarded. */
  lemma {:induction false} LifecycleKept(admin: Address, txs: seq<Tx>, id: Bytes32)
    ensures Tracked(After(Deploy(admin), txs), History(Deploy(admin), txs, id), id)
  {
    if txs != [] {
      var n := |txs| - 1;
      LifecycleKept(admin, txs[..n], id);
      TrackedStep(After(Deploy(admin), txs[..n]), txs[n], History(Deploy(admin), txs[..n], id), id);
    }
  }

  lemma TrackedStep(s: Payments, tx: Tx, h: seq<Status>, id: Bytes32)
    requires Tracked(s, h, id)
    ensures var s' := Step(s, tx.env, tx.call, tx.answers); Tracked(s', Extended(h, s', id), id)
  {
    var s' := Step(s, tx.env, tx.call, tx.answers);
    StepChanges(s, tx, id);
    if id in s.payments && s'.payments[id] != s.payments[id] {
      LifecycleGrows(h, Target(tx.call), tx.call);
      AmountsGrow(s.payments[id], tx, h);
    }
  }

  /** Pushing a payment along keeps its amounts in step with its history. */
  lemma AmountsGrow(p: Payment, tx: Tx, h: seq<Status>)
    requires h != [] && p.status == h[|h| - 1] && AmountsMatch(h, p)
    requires Advances(tx.call) && Starts(tx.call, p.status) && QuotesSensibly(tx.call)
    ensures var to := Target(tx.call);
            AmountsMatch(if p.status == to then h else h + [to], Advanced(p, tx.env, tx.call, tx.answers))
  {
    var to := Target(tx.call);
    var h' := if p.status == to then h else h + [to];
    assert forall x :: x in h' <==> x in h || x == to;
  }

  /** What one call does to one payment: nothing, create it, or push it along. */
  lemma StepChanges(s: Payments, tx: Tx, id: Bytes32)
    ensures var s' := Step(s, tx.env, tx.call, tx.answers);
            if id !in s.payments then
              id in s'.payments ==>
                && tx.call.Create?
                && s'.payments[id] == Payment(id, tx.call.payer, tx.call.merchantId, tx.call.asset, tx.call.paise,
                                              tx.call.qrHash, tx.call.rewardId, 0, 0, 0, 0, Created, tx.env.ledger, tx.env.ledger)
                && 0 < tx.call.paise
            else
              && id in s'.payments
              && (s'.payments[id] != s.payments[id] ==>
                    && Advances(tx.call)
                    && Starts(tx.call, s.payments[id].status)
                    && QuotesSensibly(tx.call)
                    && s'.payments[id] == Advanced(s.payments[id], tx.env, tx.call, tx.answers))
  {
  }

  lemma LifecycleGrows(h: seq<Status>, to: Status, call: Call)
    requires Lifecycle(h) && h != [] && Advances(call) && to == Target(call) && Starts(call, h[|h| - 1])
    ensures Lifecycle(if h[|h| - 1] == to then h else h + [to])
  {
    if h[|h| - 1] != to {
      assert (h + [to])[..|h|] == h;
      var n := |h|;
      assert n <= 6;
      if h <= PATH {
        assert h == PATH[..n];
      }
    }
  }

  /** A payment changes status at most five times, and never again once it is Completed,
      Cancelled or Failed. */
  lemma {:induction false} AtMostFiveChanges(admin: Address, txs: seq<Tx>, id: Bytes32)
    ensures var h := History(Deploy(admin), txs, id);
            && |h| <= 6
            && forall i | 0 <= i < |h| :: h[i] in {Completed, Cancelled, Failed} ==> i == |h| - 1
  {
    LifecycleKept(admin, txs, id);
    LifecycleEnds(History(Deploy(admin), txs, id));
  }

  lemma LifecycleEnds(h: seq<Status>)
    requires Lifecycle(h)
    ensures |h| <= 6
    ensures forall i | 0 <= i < |h| :: h[i] in {Completed, Cancelled, Failed} ==> i == |h| - 1
  {
    if !(h <= PATH) {
      assert forall i | 0 <= i < |h| - 1 :: h[i] == h[..|h| - 1][i] == PATH[i];
    }
  }

  /** Who the payment is for never changes, a quote is written once, and neither a quote
      nor a reward is ever taken back. */
  predicate Preserves(p: Payment, q: Payment) {
    && q == p.(assetAmount := q.assetAmount, usdcAmount := q.usdcAmount, networkFeePaise := q.networkFeePaise,
               starReward := q.starReward, status := q.status, updatedLedger := q.updatedLedger)
    && (p.assetAmount != 0 ==>
          && q.assetAmount == p.assetAmount
          && q.usdcAmount == p.usdcAmount
          && q.networkFeePaise == p.networkFeePaise)
    && (p.starReward != 0 ==> q.starReward == p.starReward)
  }

  lemma {:induction false} IdentityFixed(admin: Address, txs: seq<Tx>, id: Bytes32, i: nat, j: nat)
    requires i <= j <= |txs|
    requires id in After(Deploy(admin), txs[..i]).payments
    ensures id in After(Deploy(admin), txs[..j]).payments
    ensures Preserves(After(Deploy(admin), txs[..i]).payments[id], After(Deploy(admin), txs[..j]).payments[id])
    decreases j
  {
    if i < j {
      var n := j - 1;
      IdentityFixed(admin, txs, id, i, n);
      assert txs[..j][..n] == txs[..n];
      var s := After(Deploy(admin), txs[..n]);
      LifecycleKept(admin, txs[..n], id);
      PreservedStep(s, txs[n], History(Deploy(admin), txs[..n], id), id);
    }
  }

  lemma PreservedStep(s: Payments, tx: Tx, h: seq<Status>, id: Bytes32)
    requires Tracked(s, h, id) && id in s.payments
    ensures var s' := Step(s, tx.env, tx.call, tx.answers);
            id in s'.payments && Preserves(s.payments[id], s'.payments[id])
  {
    StepChanges(s, tx, id);
    if Starts(tx.call, h[|h| - 1]) && (tx.call.Quote? || tx.call.IssueReward?) {
      assert h <= PATH;
      assert Rewarded !in h;
      assert tx.call.Quote? ==> Quoted !in h;
    }
  }

  predicate Ended(p: Payment, q: Payment) {
    && (p.status in {Completed, Cancelled} ==> q == p)
    && (p.status == Failed ==> q == p.(updatedLedger := q.updatedLedger))
  }

  /** Once a payment is Completed or Cancelled its record is the same at every later moment;
      a Failed one can only be failed again, which renews the ledger of its last update. */
  lemma {:induction false} EndedFixed(s: Payments, txs: seq<Tx>, id: Bytes32, i: nat, j: nat)
    requires i <= j <= |txs|
    requires id in After(s, txs[..i]).payments
    ensures id in After(s, txs[..j]).payments
    ensures Ended(After(s, txs[..i]).payments[id], After(s, txs[..j]).payments[id])
    decreases j
  {
    if i < j {
      var n := j - 1;
      EndedFixed(s, txs, id, i, n);
      assert txs[..j][..n] == txs[..n];
      StepChanges(After(s, txs[..n]), txs[n], id);
    }
  }

  // ---------------------------------------------------------------- who moves a payment

  predicate OperatorEdge(from: Status, to: Status) {
    || (from, to) in {(Created, Quoted), (Quoted, Converted), (Converted, Settled), (Settled, Rewarded), (Rewarded, Completed)}
    || (to == Failed && from in {Created, Quoted, Converted, Settled, Rewarded})
  }

  predicate PayerEdge(from: Status, to: Status) {
    to == Cancelled && from in {Created, Quoted}
  }

  ghost predicate SomeOperatorSigns(s: Payments, env: Env) {
    exists a :: IsOperator(s, a) && env.Authorises(a)
  }

  /** Exactly who can take a payment where in one call: an enabled operator along the path
      or from a live status to Failed, the payer to Cancelled before the conversion, and
      nobody while the engine is paused. */
  lemma StatusMoves(s: Payments, env: Env, answers: Answers, id: Bytes32, to: Status)
    requires id in s.payments && s.payments[id].status != to
    ensures (exists call :: id in Step(s, env, call, answers).payments && Step(s, env, call, answers).payments[id].status == to) <==>
            && !s.paused
            && ((OperatorEdge(s.payments[id].status, to) && SomeOperatorSigns(s, env)) ||
                (PayerEdge(s.payments[id].status, to) && env.Authorises(s.payments[id].payer)))
  {
    var p := s.payments[id];
    forall call | id in Step(s, env, call, answers).payments && Step(s, env, call, answers).payments[id].status == to
      ensures !s.paused
      ensures (OperatorEdge(p.status, to) && SomeOperatorSigns(s, env)) || (PayerEdge(p.status, to) && env.Authorises(p.payer))
    {
      MoveAuthorised(s, env, call, answers, id);
    }
    if !s.paused && PayerEdge(p.status, to) && env.Authorises(p.payer) {
      assert Step(s, env, Cancel(p.payer, id), answers).payments[id].status == to;
    } else if !s.paused && OperatorEdge(p.status, to) && SomeOperatorSigns(s, env) {
      var a :| IsOperator(s, a) && env.Authorises(a);
      OperatorMoves(s, env, answers, id, to, a);
    }
  }

  /** The call with which an operator takes a payment to the next status. */
  function MoveTo(operator: Address, id: Bytes32, to: Status): Call {
    match to
    case Quoted => Quote(operator, id, 1, 1, 0)
    case Converted => MarkConverted(operator, id)
    case Settled => MarkSettled(operator, id)
    case Rewarded => IssueReward(operator, id)
    case Completed => Complete(operator, id)
    case _ => Fail(operator, id)
  }

  lemma OperatorMoves(s: Payments, env: Env, answers: Answers, id: Bytes32, to: Status, a: Address)
    requires id in s.payments && !s.paused && OperatorEdge(s.payments[id].status, to)
    requires IsOperator(s, a) && env.Authorises(a)
    ensures var s' := Step(s, env, MoveTo(a, id, to), answers); id in s'.payments && s'.payments[id].status == to
  {
  }

  lemma MoveAuthorised(s: Payments, env: Env, call: Call, answers: Answers, id: Bytes32)
    requires id in s.payments && id in Step(s, env, call, answers).payments
    requires Step(s, env, call, answers).payments[id].status != s.payments[id].status
    ensures !s.paused
    ensures var from, to := s.payments[id].status, Step(s, env, call, answers).payments[id].status;
            || (OperatorEdge(from, to) && SomeOperatorSigns(s, env))
            || (PayerEdge(from, to) && env.Authorises(s.payments[id].payer))
  {
    if Advances(call) && !call.Cancel? {
      assert IsOperator(s, call.operator) && env.Authorises(call.operator);
    }
  }

  // ---------------------------------------------------------------- the rules, one aspect at a time

  /** The address whose authority a call needs: an operator for a payment, its payer for a
      cancellation, the invited address for an office and the admin for the rest. */
  function Signer(s: Payments, call: Call): Option<Address> {
    match call
    case AcceptAdmin => s.pendingAdmin
    case Cancel(payer, _) => Some(payer)
    case Create(operator, _, _, _, _, _, _, _) => Some(operator)
    case _ => Some(if Advances(call) then call.operator else s.admin)
  }

  predicate Admissible(s: Payments, env: Env, call: Call, answers: Answers) {
    && (s.paused ==> call.Pause? || call.Unpause?)
    && Signer(s, call).Some? && env.Authorises(Signer(s, call).value)
    && (call.Create? || (Advances(call) && !call.Cancel?) ==> IsOperator(s, call.operator))
    && (call.Create? ==> 0 < call.paise && call.paymentId !in s.payments && answers.approved == Ok(true))
    && (call.Quote? ==> 0 < call.assetAmount && 0 < call.usdcAmount && 0 <= call.networkFeePaise)
    && (Advances(call) ==> call.paymentId in s.payments && s.payments[call.paymentId].status in From(call))
    && (call.Cancel? ==> s.payments[call.paymentId].payer == call.payer)
  }

  /** The statuses from which a call takes a payment on. */
  function From(call: Call): set<Status> {
    match call
    case Quote(_, _, _, _, _) => {Created}
    case MarkConverted(_, _) => {Quoted}
    case MarkSettled(_, _) => {Converted}
    case IssueReward(_, _) => {Settled}
    case Complete(_, _) => {Rewarded}
    case Cancel(_, _) => {Created, Quoted}
    case Fail(_, _) => {Created, Quoted, Converted, Settled, Rewarded, Failed}
    case _ => {}
  }

  /** Exactly which calls are accepted. */
  lemma AcceptedIff(s: Payments, env: Env, call: Call, answers: Answers)
    ensures Check(s, env, call, answers).Ok? <==> Admissible(s, env, call, answers)
  {
  }

  /** Only a reward call answers anything. A refusal names a reason that is there; a payment is refused for its merchant exactly
      when everything else is in order and the registry answers no. */
  lemma RefusedForReason(s: Payments, env: Env, call: Call, answers: Answers)
    ensures match Check(s, env, call, answers)
            case Ok(answer) => answer == if call.IssueReward? && answers.reward.Ok? then answers.reward.value else 0
            case Trap => Signer(s, call).Some? &&
                         (env.Authorises(Signer(s, call).value) ==> call.Create? && !answers.approved.Ok?)
            case Err(Paused) => s.paused
            case Err(NoPendingAdmin) => call.AcceptAdmin? && s.pendingAdmin.None?
            case Err(Unauthorized) =>
              if call.Cancel? then call.paymentId in s.payments && s.payments[call.paymentId].payer != call.payer
              else (call.Create? || Advances(call)) && !IsOperator(s, call.operator)
            case Err(InvalidAmount) =>
              || (call.Create? && call.paise <= 0)
              || (call.Quote? && (call.assetAmount <= 0 || call.usdcAmount <= 0 || call.networkFeePaise < 0))
            case Err(PaymentAlreadyExists) => call.Create? && call.paymentId in s.payments
            case Err(MerchantNotApproved) => call.Create? && answers.approved == Ok(false)
            case Err(PaymentNotFound) => Advances(call) && call.paymentId !in s.payments
            case Err(InvalidStatus) =>
              Advances(call) && call.paymentId in s.payments && s.payments[call.paymentId].status !in From(call)
  {
  }

  /** Only the admin pauses and unpauses, at any time; a paused engine changes nothing but
      the pause flag. */
  lemma PauseIff(s: Payments, env: Env, call: Call, answers: Answers)
    ensures var s' := Step(s, env, call, answers);
            && s'.paused == (if env.Authorises(s.admin) && call.Pause? then true
                             else if env.Authorises(s.admin) && call.Unpause? then false
                             else s.paused)
            && (s.paused ==> s' == s.(paused := s'.paused))
  {
  }

  /** What one call makes of a stored payment, column by column: only an accepted call about
      this payment writes it, a quote the three amounts it names, a reward the amount the
      reward engine answered, and each of them the ledger. */
  lemma PaymentAfter(s: Payments, env: Env, call: Call, answers: Answers, id: Bytes32)
    requires id in s.payments
    ensures var s' := Step(s, env, call, answers);
            var about := Admissible(s, env, call, answers) && Advances(call) && call.paymentId == id;
            id in s'.payments &&
            var p, p' := s.payments[id], s'.payments[id];
            && p'.assetAmount == (if about && call.Quote? then call.assetAmount else p.assetAmount)
            && p'.usdcAmount == (if about && call.Quote? then call.usdcAmount else p.usdcAmount)
            && p'.networkFeePaise == (if about && call.Quote? then call.networkFeePaise else p.networkFeePaise)
            && p'.starReward == (if about && call.IssueReward? then if answers.reward.Ok? then answers.reward.value else 0
                                 else p.starReward)
            && p'.updatedLedger == (if about then env.ledger else p.updatedLedger)
            && p' == p.(assetAmount := p'.assetAmount, usdcAmount := p'.usdcAmount, networkFeePaise := p'.networkFeePaise,
                        starReward := p'.starReward, status := p'.status, updatedLedger := p'.updatedLedger)
  {
    AcceptedIff(s, env, call, answers);
  }

  /** Call number `i` of a run is an accepted quote of payment `id`. */
  predicate Quotes(s: Payments, txs: seq<Tx>, i: nat, id: Bytes32)
    requires i < |txs|
  {
    var tx := txs[i];
    tx.call.Quote? && tx.call.paymentId == id && Check(After(s, txs[..i]), tx.env, tx.call, tx.answers).Ok?
  }

  predicate Carries(p: Payment, quote: Call)
    requires quote.Quote?
  {
    p.assetAmount == quote.assetAmount && p.usdcAmount == quote.usdcAmount && p.networkFeePaise == quote.networkFeePaise
  }

  /** A payment that has been quoted carries, at every later moment, the amounts of the one
      quote that was accepted for it. */
  lemma {:induction false} AmountsAreQuoted(admin: Address, txs: seq<Tx>, id: Bytes32, i: nat)
    requires i < |txs| && Quotes(Deploy(admin), txs, i, id)
    ensures id in After(Deploy(admin), txs).payments && Carries(After(Deploy(admin), txs).payments[id], txs[i].call)
    ensures forall j | 0 <= j < |txs| && Quotes(Deploy(admin), txs, j, id) :: j == i
  {
    var s := Deploy(admin);
    QuoteStored(s, txs, i, id);
    IdentityFixed(admin, txs, id, i + 1, |txs|);
    assert txs[..|txs|] == txs;
    forall j | 0 <= j < |txs| && Quotes(s, txs, j, id) ensures j == i {
      QuoteStored(s, txs, j, id);
      if j < i {
        QuotedOnce(admin, txs, id, j, i);
      } else if i < j {
        QuotedOnce(admin, txs, id, i, j);
      }
    }
  }

  lemma QuoteStored(s: Payments, txs: seq<Tx>, i: nat, id: Bytes32)
    requires i < |txs| && Quotes(s, txs, i, id)
    ensures id in After(s, txs[..i]).payments && After(s, txs[..i]).payments[id].status == Created
    ensures var s' := After(s, txs[..i + 1]);
            && id in s'.payments && Carries(s'.payments[id], txs[i].call)
            && 0 < s'.payments[id].assetAmount && s'.payments[id].status == Quoted
  {
    assert txs[..i + 1][..i] == txs[..i];
    AcceptedIff(After(s, txs[..i]), txs[i].env, txs[i].call, txs[i].answers);
    PaymentAfter(After(s, txs[..i]), txs[i].env, txs[i].call, txs[i].answers, id);
  }

  lemma QuotedOnce(admin: Address, txs: seq<Tx>, id: Bytes32, i: nat, j: nat)
    requires i < j < |txs| && Quotes(Deploy(admin), txs, i, id)
    ensures !Quotes(Deploy(admin), txs, j, id)
  {
    var s := Deploy(admin);
    QuoteStored(s, txs, i, id);
    IdentityFixed(admin, txs, id, i + 1, j);
    LifecycleKept(admin, txs[..j], id);
    if Quotes(s, txs, j, id) {
      QuoteStored(s, txs, j, id);
      CreatedUnquoted(After(s, txs[..j]), History(s, txs[..j], id), id);
    }
  }

  lemma CreatedUnquoted(s: Payments, h: seq<Status>, id: Bytes32)
    requires Tracked(s, h, id) && id in s.payments && s.payments[id].status == Created
    ensures s.payments[id].assetAmount == 0
  {
    assert h <= PATH;
  }

  /** Whenever a history has a payment quoted, a quote was accepted for it. */
  lemma {:induction false} QuotedByCall(admin: Address, txs: seq<Tx>, id: Bytes32) returns (i: nat)
    requires Quoted in History(Deploy(admin), txs, id)
    ensures i < |txs| && Quotes(Deploy(admin), txs, i, id)
    decreases |txs|
  {
    var s, n := Deploy(admin), |txs| - 1;
    assert txs != [];
    if Quoted in History(s, txs[..n], id) {
      i := QuotedByCall(admin, txs[..n], id);
      assert txs[..n][..i] == txs[..i];
    } else {
      i := n;
      LifecycleKept(admin, txs[..n], id);
      BecomesQuoted(After(s, txs[..n]), txs[n], History(s, txs[..n], id), id);
    }
  }

  lemma BecomesQuoted(s: Payments, tx: Tx, h: seq<Status>, id: Bytes32)
    requires Tracked(s, h, id) && Quoted !in h
    requires Quoted in Extended(h, Step(s, tx.env, tx.call, tx.answers), id)
    ensures tx.call.Quote? && tx.call.paymentId == id && Check(s, tx.env, tx.call, tx.answers).Ok?
  {
    StepChanges(s, tx, id);
  }
}
