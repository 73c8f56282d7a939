/** The four contracts as one system. The addresses a contract calls are fixed when it is
    deployed. */
module PayEra {
  import opened Host
  import T = StarToken
  import R = RewardEngine
  import P = PaymentEngine
  import M = MerchantRegistry
  import RT = RewardsOnToken
  import PR = PaymentRuns

  /** The contract addresses of the payment and the reward engine, and the four contracts. */
  datatype World = World(
    payAddr: Address, rewAddr: Address,
    token: T.Token, rewards: R.Rewards, payments: P.Payments, registry: M.Registry)
  {
    function Engines(): RT.Engines { RT.Engines(rewards, token) }
  }

  datatype Call = OnToken(t: T.Call) | OnRewards(r: R.Call) | OnPayments(p: P.Call) | OnRegistry(m: M.Call)

  datatype Tx = Tx(env: Env, call: Call)

  datatype Config = Config(
    payAddr: Address, rewAddr: Address, maxSupply: i128,
    tokenAdmin: Address, rewardAdmin: Address, paymentAdmin: Address, registryAdmin: Address)

  function Genesis(c: Config): World {
    World(c.payAddr, c.rewAddr, T.Deploy(c.tokenAdmin, c.maxSupply), R.Deploy(c.rewardAdmin),
          P.Deploy(c.paymentAdmin), M.Deploy(c.registryAdmin))
  }

  predicate Deployable(c: Config) { 0 < c.maxSupply && c.payAddr != c.rewAddr }

  /** The call by which the payment engine asks for the reward of payment `id`. */
  function SpendCall(w: World, id: Bytes32): R.Call
    requires id in w.payments.payments
  {
    var p := w.payments.payments[id];
    R.IssueSpend(w.payAddr, p.rewardId, p.payer, p.paymentId, p.paise)
  }

  /** What the registry and the reward engine answer when the payment engine asks them. */
  function Asked(w: World, env: Env, call: P.Call): P.Answers {
    P.Answers(
      if call.Create? then M.IsApproved(w.registry, call.merchantId) else Trap,
      if call.IssueReward? && call.paymentId in w.payments.payments
      then RT.Answer(w.Engines(), w.rewAddr, env.CalledBy(w.payAddr), SpendCall(w, call.paymentId))
      else Trap)
  }

  /** The reward engine and the token after a call to the payment engine. */
  function EnginesAfter(w: World, env: Env, call: P.Call): RT.Engines {
    if call.IssueReward? && P.Check(w.payments, env, call, Asked(w, env, call)).Ok?
    then RT.Exec(w.Engines(), w.rewAddr, env.CalledBy(w.payAddr), SpendCall(w, call.paymentId))
    else w.Engines()
  }

  /** One transaction. */
  function Exec(w: World, tx: Tx): World {
    match tx.call
    case OnToken(c) => w.(token := T.Step(w.token, tx.env, c))
    case OnRewards(c) =>
      var e := RT.Exec(w.Engines(), w.rewAddr, tx.env, c);
      w.(rewards := e.rewards, token := e.token)
    case OnPayments(c) =>
      var e := EnginesAfter(w, tx.env, c);
      w.(payments := P.Step(w.payments, tx.env, c, Asked(w, tx.env, c)), rewards := e.rewards, token := e.token)
    case OnRegistry(c) => w.(registry := M.Step(w.registry, tx.env, c))
  }

  function After(w: World, txs: seq<Tx>): World {
    if txs == [] then w else Exec(After(w, txs[..|txs| - 1]), txs[|txs| - 1])
  }

  /** A contract address is authorised only in the calls that contract makes, so no
      transaction that comes from outside carries the authority of either engine. */
  predicate Outside(c: Config, tx: Tx) {
    !tx.env.Authorises(c.payAddr) && !tx.env.Authorises(c.rewAddr)
  }

  ghost predicate FromOutside(c: Config, txs: seq<Tx>) {
    forall i | 0 <= i < |txs| :: Outside(c, txs[i])
  }

  // ---------------------------------------------------------------- the invariant

  predicate Rewarded(p: P.Payment) { p.starReward != 0 }

  /** The reward record that belongs to a rewarded payment. */
  ghost predicate Matches(w: World, p: P.Payment, r: R.Record) {
    && r.rewardId == p.rewardId
    && r.sourceId == p.paymentId
    && r.recipient == p.payer
    && r.issuer == w.payAddr
    && r.kind == R.Spend
    && r.amount == p.starReward == p.paise / 10000 * 10
    && 0 < p.starReward
  }

  ghost predicate PaymentsLinked(w: World) {
    forall id | id in w.payments.payments ::
      var p := w.payments.payments[id];
      && p.paymentId == id
      && (p.status in {P.Created, P.Quoted, P.Converted, P.Settled} ==> !Rewarded(p))
      && (Rewarded(p) ==> p.rewardId in w.rewards.records && Matches(w, p, w.rewards.records[p.rewardId]))
  }

  ghost predicate RecordsLinked(w: World) {
    forall id | id in w.rewards.records ::
      var r := w.rewards.records[id];
      && r.rewardId == id
      && 0 < r.amount
      && (r.issuer == w.payAddr ==>
            && r.sourceId in w.payments.payments
            && Rewarded(w.payments.payments[r.sourceId])
            && w.payments.payments[r.sourceId].rewardId == id)
  }

  ghost predicate MerchantsApproved(w: World) {
    forall id | id in w.payments.payments :: M.EverApproved(w.registry, w.payments.payments[id].merchantId)
  }

  ghost predicate Inv(w: World) {
    T.Sound(w.token) && PaymentsLinked(w) && RecordsLinked(w) && MerchantsApproved(w)
  }

  lemma EngineCallKeeps(w: World, env: Env, call: R.Call)
    requires Inv(w) && !env.Authorises(w.payAddr)
    ensures Inv(Exec(w, Tx(env, OnRewards(call))))
  {
    RT.MintWithRecord(w.Engines(), w.rewAddr, env, call);
    TokenKept(w.Engines(), w.rewAddr, env, call);
    if R.Issues(call) && RT.Answer(w.Engines(), w.rewAddr, env, call).Ok? {
      assert call.issuer != w.payAddr;
    }
  }

  /** The token side of an engine call is a token call like any other. */
  lemma TokenKept(e: RT.Engines, self: Address, env: Env, call: R.Call)
    requires T.Sound(e.token)
    ensures T.Sound(RT.Exec(e, self, env, call).token)
  {
    if R.Issues(call) && RT.Answer(e, self, env, call).Ok? {
      var mint := RT.MintCall(self, call, R.CheckIssue(e.rewards, env, call).value);
      T.StepSound(e.token, env.CalledBy(self), mint);
    }
  }

  lemma PaymentCallKeeps(w: World, env: Env, call: P.Call)
    requires Inv(w)
    ensures Inv(Exec(w, Tx(env, OnPayments(call))))
  {
    if call.IssueReward? {
      RewardCallKeeps(w, env, call);
    } else {
      PlainPaymentCallKeeps(w, env, call);
    }
  }

  lemma PlainPaymentCallKeeps(w: World, env: Env, call: P.Call)
    requires Inv(w) && !call.IssueReward?
    ensures Inv(Exec(w, Tx(env, OnPayments(call))))
  {
    var tx := PR.Tx(env, call, Asked(w, env, call));
    var s' := P.Step(w.payments, env, call, Asked(w, env, call));
    forall id | id in s'.payments
      ensures s'.payments[id].paymentId == id
      ensures id !in w.payments.payments ==> s'.payments[id].starReward == 0 && M.EverApproved(w.registry, s'.payments[id].merchantId)
      ensures id in w.payments.payments ==>
        && s'.payments[id].starReward == w.payments.payments[id].starReward
        && (s'.payments[id].status in {P.Created, P.Quoted, P.Converted, P.Settled} ==> w.payments.payments[id].status in {P.Created, P.Quoted, P.Converted, P.Settled})
        && s'.payments[id].rewardId == w.payments.payments[id].rewardId
        && s'.payments[id].payer == w.payments.payments[id].payer
        && s'.payments[id].paise == w.payments.payments[id].paise
        && s'.payments[id].merchantId == w.payments.payments[id].merchantId
    {
      PR.StepChanges(w.payments, tx, id);
    }
    forall id | id in w.payments.payments ensures id in s'.payments { PR.StepChanges(w.payments, tx, id); }
  }

  lemma RewardCallKeeps(w: World, env: Env, call: P.Call)
    requires Inv(w) && call.IssueReward?
    ensures Inv(Exec(w, Tx(env, OnPayments(call))))
  {
    var answers := Asked(w, env, call);
    if P.Check(w.payments, env, call, answers).Ok? {
      var id := call.paymentId;
      var spend := SpendCall(w, id);
      var e := RT.Exec(w.Engines(), w.rewAddr, env.CalledBy(w.payAddr), spend);
      var p := w.payments.payments[id].(status := P.Rewarded, updatedLedger := env.ledger, starReward := P.RewardOf(answers));
      var w' := w.(payments := w.payments.(payments := w.payments.payments[id := p]), rewards := e.rewards, token := e.token);
      assert Exec(w, Tx(env, OnPayments(call))) == w';
      RT.MintWithRecord(w.Engines(), w.rewAddr, env.CalledBy(w.payAddr), spend);
      TokenKept(w.Engines(), w.rewAddr, env.CalledBy(w.payAddr), spend);
      if answers.reward.Ok? {
        R.FormulasAgree(spend.paise);
        LinkKept(w, id, p, e.rewards.records, w');
      } else {
        assert p.starReward == 0;
      }
    }
  }

  /** Giving one payment its reward together with the record of it keeps the invariant. */
  lemma LinkKept(w: World, id: Bytes32, p: P.Payment, records: map<Bytes32, R.Record>, w': World)
    requires Inv(w) && id in w.payments.payments && T.Sound(w'.token)
    requires w'.payAddr == w.payAddr && w'.registry == w.registry
    requires w'.payments.payments == w.payments.payments[id := p] && w'.rewards.records == records
    requires p == w.payments.payments[id].(status := P.Rewarded, updatedLedger := p.updatedLedger, starReward := p.starReward)
    requires !Rewarded(w.payments.payments[id])
    requires p.rewardId !in w.rewards.records && p.rewardId in records && Matches(w, p, records[p.rewardId])
    requires records == w.rewards.records[p.rewardId := records[p.rewardId]]
    ensures Inv(w')
  {
  }

  lemma RegistryCallKeeps(w: World, env: Env, call: M.Call)
    requires Inv(w)
    ensures Inv(Exec(w, Tx(env, OnRegistry(call))))
  {
    forall id | id in w.payments.payments
      ensures M.EverApproved(M.Step(w.registry, env, call), w.payments.payments[id].merchantId)
    {
      M.StatusClosed(w.registry, env, call, w.payments.payments[id].merchantId);
    }
  }

  lemma ExecKeeps(w: World, tx: Tx)
    requires Inv(w) && !tx.env.Authorises(w.payAddr)
    ensures Inv(Exec(w, tx))
  {
    match tx.call
    case OnToken(c) => T.StepSound(w.token, tx.env, c);
    case OnRewards(c) => EngineCallKeeps(w, tx.env, c);
    case OnPayments(c) => PaymentCallKeeps(w, tx.env, c);
    case OnRegistry(c) => RegistryCallKeeps(w, tx.env, c);
  }

  lemma {:induction false} Reachable(c: Config, txs: seq<Tx>)
    requires Deployable(c) && FromOutside(c, txs)
    ensures var w := After(Genesis(c), txs);
            Inv(w) && w.payAddr == c.payAddr && w.rewAddr == c.rewAddr
  {
    if txs != [] {
      var n := |txs| - 1;
      Reachable(c, txs[..n]);
      ExecKeeps(After(Genesis(c), txs[..n]), txs[n]);
    }
  }
}
