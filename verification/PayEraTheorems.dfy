/** What the four contracts guarantee together, in every state they can reach. */
module PayEraTheorems {
  import opened Host
  import opened Sums
  import opened PayEra
  import T = StarToken
  import R = RewardEngine
  import P = PaymentEngine
  import M = MerchantRegistry
  import RT = RewardsOnToken
  import TR = StarTokenRuns
  import TRules = StarTokenRules
  import PR = PaymentRuns

  // ---------------------------------------------------------------- payments and records

  function PaymentRewards(w: World): map<Bytes32, int> {
    map id | id in w.payments.payments && Rewarded(w.payments.payments[id]) :: w.payments.payments[id].starReward
  }

  function RecordAmounts(w: World): map<Bytes32, int> {
    map id | id in w.rewards.records :: w.rewards.records[id].amount
  }

  /** The records the payment engine asked for. */
  function EngineRecords(w: World): map<Bytes32, int> {
    map id | id in w.rewards.records && w.rewards.records[id].issuer == w.payAddr :: w.rewards.records[id].amount
  }

  /** Rewarded payments and the reward records issued by the payment engine correspond
      one-to-one, so what the payments say was rewarded is what the records say. */
  lemma {:induction false} RewardsMatchPayments(c: Config, txs: seq<Tx>)
    requires Deployable(c) && FromOutside(c, txs)
    ensures var w := After(Genesis(c), txs);
            var ps, rs := w.payments.payments, w.rewards.records;
            && (forall id | id in PaymentRewards(w) ::
                  && ps[id].rewardId in EngineRecords(w)
                  && Matches(w, ps[id], rs[ps[id].rewardId]))
            && (forall id | id in EngineRecords(w) ::
                  && rs[id].sourceId in PaymentRewards(w)
                  && ps[rs[id].sourceId].rewardId == id)
            && Total(PaymentRewards(w)) == Total(EngineRecords(w))
  {
    var w := After(Genesis(c), txs);
    Reachable(c, txs);
    var rewardOf := map id | id in PaymentRewards(w) :: w.payments.payments[id].rewardId;
    forall k | k in EngineRecords(w) ensures exists j :: j in rewardOf && rewardOf[j] == k {
      assert w.rewards.records[k].sourceId in rewardOf;
    }
    TotalMatched(PaymentRewards(w), EngineRecords(w), rewardOf);
  }

  /** No payment belongs to a rejected or unknown merchant: every payment's merchant is
      approved or suspended. */
  lemma {:induction false} NoPaymentForRejectedMerchant(c: Config, txs: seq<Tx>, id: Bytes32)
    requires Deployable(c) && FromOutside(c, txs)
    requires id in After(Genesis(c), txs).payments.payments
    ensures var w := After(Genesis(c), txs);
            var merchant := w.payments.payments[id].merchantId;
            merchant in w.registry.merchants && w.registry.merchants[merchant].status in {M.Approved, M.Suspended}
  {
    Reachable(c, txs);
  }

  // ---------------------------------------------------------------- the token inside the system

  /** The call the token receives during one transaction, if any, leaving out what the
      host rolls back with a failing caller. */
  function TokenCalls(w: World, tx: Tx): seq<TR.Tx> {
    match tx.call
    case OnToken(c) => [TR.Tx(tx.env, c)]
    case OnRewards(c) => Mints(w, tx.env, c)
    case OnPayments(c) =>
      if c.IssueReward? && P.Check(w.payments, tx.env, c, Asked(w, tx.env, c)).Ok?
      then Mints(w, tx.env.CalledBy(w.payAddr), SpendCall(w, c.paymentId)) else []
    case OnRegistry(_) => []
  }

  function Mints(w: World, env: Env, call: R.Call): seq<TR.Tx> {
    if R.Issues(call) && RT.Answer(w.Engines(), w.rewAddr, env, call).Ok?
    then [TR.Tx(env.CalledBy(w.rewAddr), RT.MintCall(w.rewAddr, call, R.CheckIssue(w.rewards, env, call).value))]
    else []
  }

  function TokenRun(w: World, txs: seq<Tx>): seq<TR.Tx> {
    if txs == [] then []
    else TokenRun(w, txs[..|txs| - 1]) + TokenCalls(After(w, txs[..|txs| - 1]), txs[|txs| - 1])
  }

  lemma AfterAppend(t: T.Token, run: seq<TR.Tx>, more: seq<TR.Tx>)
    requires |more| <= 1
    ensures TR.After(t, run + more) == if more == [] then TR.After(t, run)
                                       else T.Step(TR.After(t, run), more[0].env, more[0].call)
  {
    if more == [] {
      assert run + more == run;
    } else {
      assert (run + more)[..|run|] == run;
    }
  }

  /** Inside the system the token goes through a run of its own, so everything proved of
      token runs holds there: conservation, the log, allowances, freezing, pausing. */
  lemma {:induction false} TokenIsATokenRun(w: World, txs: seq<Tx>)
    ensures After(w, txs).token == TR.After(w.token, TokenRun(w, txs))
  {
    if txs != [] {
      var n := |txs| - 1;
      TokenIsATokenRun(w, txs[..n]);
      TokenRunGoesOn(w.token, TokenRun(w, txs[..n]), After(w, txs[..n]), txs[n]);
    }
  }

  lemma TokenRunGoesOn(t: T.Token, run: seq<TR.Tx>, w: World, tx: Tx)
    requires w.token == TR.After(t, run)
    ensures Exec(w, tx).token == TR.After(t, run + TokenCalls(w, tx))
  {
    TokenStepIsCalls(w, tx);
    AfterAppend(t, run, TokenCalls(w, tx));
  }

  lemma TokenStepIsCalls(w: World, tx: Tx)
    ensures var calls := TokenCalls(w, tx);
            |calls| <= 1 && Exec(w, tx).token == if calls == [] then w.token else T.Step(w.token, calls[0].env, calls[0].call)
  {
  }

  /** The payment engine, too, goes through a run of its own. */
  function PaymentRun(w: World, txs: seq<Tx>): seq<PR.Tx> {
    if txs == [] then []
    else
      var p := After(w, txs[..|txs| - 1]);
      var tx := txs[|txs| - 1];
      PaymentRun(w, txs[..|txs| - 1]) +
      if tx.call.OnPayments? then [PR.Tx(tx.env, tx.call.p, Asked(p, tx.env, tx.call.p))] else []
  }

  lemma {:induction false} PaymentsAreAPaymentRun(w: World, txs: seq<Tx>)
    ensures After(w, txs).payments == PR.After(w.payments, PaymentRun(w, txs))
  {
    if txs != [] {
      var n := |txs| - 1;
      PaymentsAreAPaymentRun(w, txs[..n]);
      var run := PaymentRun(w, txs[..n]);
      if txs[n].call.OnPayments? {
        assert PaymentRun(w, txs)[..|run|] == run;
      } else {
        assert PaymentRun(w, txs) == run;
      }
    }
  }

  // ---------------------------------------------------------------- mints and records

  /** Over every run, the STAR minted in the reward engine's name is exactly the sum of
      its records: no mint without a record, no record without a mint. */
  lemma {:induction false} MintsMatchRecords(c: Config, txs: seq<Tx>)
    requires Deployable(c) && FromOutside(c, txs)
    ensures var w := Genesis(c);
            TR.MintedBy(w.token, TokenRun(w, txs), c.rewAddr) == Total(RecordAmounts(After(w, txs)))
  {
    var w0 := Genesis(c);
    if txs == [] {
      assert RecordAmounts(w0) == map[];
    } else {
      var n := |txs| - 1;
      MintsMatchRecords(c, txs[..n]);
      Reachable(c, txs[..n]);
      TokenIsATokenRun(w0, txs[..n]);
      MintsGoOn(w0.token, TokenRun(w0, txs[..n]), After(w0, txs[..n]), txs[n]);
    }
  }

  lemma {:induction false} MintsGoOn(t: T.Token, run: seq<TR.Tx>, w: World, tx: Tx)
    requires w.token == TR.After(t, run) && !tx.env.Authorises(w.rewAddr)
    ensures TR.MintedBy(t, run + TokenCalls(w, tx), w.rewAddr) - TR.MintedBy(t, run, w.rewAddr) ==
            Total(RecordAmounts(Exec(w, tx))) - Total(RecordAmounts(w))
  {
    var calls := TokenCalls(w, tx);
    StepMintsRecord(w, tx);
    if calls == [] {
      assert run + calls == run;
    } else {
      assert calls == [calls[0]];
      TR.MintedByAppend(t, run, calls[0], w.rewAddr);
    }
  }

  /** What one transaction mints in the reward engine's name. */
  function StepMinted(w: World, tx: Tx): int {
    var calls := TokenCalls(w, tx);
    if calls != [] && T.Check(w.token, calls[0].env, calls[0].call).Ok? && calls[0].call.MintFromMinter? && calls[0].call.minter == w.rewAddr
    then calls[0].call.amount else 0
  }

  lemma StepMintsRecord(w: World, tx: Tx)
    requires !tx.env.Authorises(w.rewAddr)
    ensures |TokenCalls(w, tx)| <= 1
    ensures Total(RecordAmounts(Exec(w, tx))) == Total(RecordAmounts(w)) + StepMinted(w, tx)
  {
    match tx.call
    case OnToken(_) => assert RecordAmounts(Exec(w, tx)) == RecordAmounts(w);
    case OnRewards(r) => EngineMintsRecord(w, tx.env, r, Exec(w, tx));
    case OnPayments(p) =>
      if p.IssueReward? && P.Check(w.payments, tx.env, p, Asked(w, tx.env, p)).Ok? {
        EngineMintsRecord(w, tx.env.CalledBy(w.payAddr), SpendCall(w, p.paymentId), Exec(w, tx));
      } else {
        assert RecordAmounts(Exec(w, tx)) == RecordAmounts(w);
      }
    case OnRegistry(_) => assert RecordAmounts(Exec(w, tx)) == RecordAmounts(w);
  }

  lemma EngineMintsRecord(w: World, env: Env, call: R.Call, w': World)
    requires w'.Engines() == RT.Exec(w.Engines(), w.rewAddr, env, call)
    ensures var mints := Mints(w, env, call);
            Total(RecordAmounts(w')) == Total(RecordAmounts(w)) + if mints == [] then 0 else mints[0].call.amount
  {
    RT.MintWithRecord(w.Engines(), w.rewAddr, env, call);
    if Mints(w, env, call) == [] {
      assert RecordAmounts(w') == RecordAmounts(w);
    } else {
      var star := w'.rewards.records[call.rewardId].amount;
      assert RecordAmounts(w') == RecordAmounts(w)[call.rewardId := star];
      TotalPut(RecordAmounts(w), call.rewardId, star);
    }
  }

  /** A reward record never changes once it is written. */
  lemma {:induction false} RecordsFixed(w: World, txs: seq<Tx>, id: Bytes32, i: nat, j: nat)
    requires i <= j <= |txs| && id in After(w, txs[..i]).rewards.records
    ensures id in After(w, txs[..j]).rewards.records
    ensures After(w, txs[..j]).rewards.records[id] == After(w, txs[..i]).rewards.records[id]
    decreases j
  {
    if i < j {
      var n := j - 1;
      RecordsFixed(w, txs, id, i, n);
      assert txs[..j][..n] == txs[..n];
      RecordStep(After(w, txs[..n]), txs[n], id);
    }
  }

  lemma RecordStep(w: World, tx: Tx, id: Bytes32)
    requires id in w.rewards.records
    ensures id in Exec(w, tx).rewards.records && Exec(w, tx).rewards.records[id] == w.rewards.records[id]
  {
    match tx.call
    case OnRewards(r) => RT.MintWithRecord(w.Engines(), w.rewAddr, tx.env, r);
    case OnPayments(p) =>
      if p.IssueReward? && P.Check(w.payments, tx.env, p, Asked(w, tx.env, p)).Ok? {
        RT.MintWithRecord(w.Engines(), w.rewAddr, tx.env.CalledBy(w.payAddr), SpendCall(w, p.paymentId));
      }
    case _ =>
  }

  // ---------------------------------------------------------------- no trapped payment

  /** From any state a settled payment of an unpaused engine reaches Completed in two calls
      by an operator. Either the inner call went through, and the payment carries the reward
      of a new record, or it failed, the reward engine and the token are untouched and the
      payment carries no reward. */
  lemma SettledPaymentCompletes(w: World, env1: Env, env2: Env, operator: Address, id: Bytes32)
    requires !w.payments.paused && P.IsOperator(w.payments, operator)
    requires id in w.payments.payments && w.payments.payments[id].status == P.Settled
    requires env1.Authorises(operator) && env2.Authorises(operator)
    ensures var w1 := Exec(w, Tx(env1, OnPayments(P.IssueReward(operator, id))));
            var w2 := Exec(w1, Tx(env2, OnPayments(P.Complete(operator, id))));
            && id in w2.payments.payments
            && w2.payments.payments[id].status == P.Completed
            && w2.Engines() == w1.Engines()
            && (if RT.Answer(w.Engines(), w.rewAddr, env1.CalledBy(w.payAddr), SpendCall(w, id)).Ok? then
                  && w2.payments.payments[id].rewardId !in w.rewards.records
                  && w2.payments.payments[id].rewardId in w2.rewards.records
                  && Matches(w2, w2.payments.payments[id], w2.rewards.records[w2.payments.payments[id].rewardId])
                else w2.Engines() == w.Engines() && w2.payments.payments[id].starReward == 0)
  {
    var call1 := P.IssueReward(operator, id);
    var w1 := Exec(w, Tx(env1, OnPayments(call1)));
    var call2 := P.Complete(operator, id);
    P.NoTrappedPayment(w.payments, env1, env2, operator, id, Asked(w, env1, call1), Asked(w1, env2, call2));
    RT.MintWithRecord(w.Engines(), w.rewAddr, env1.CalledBy(w.payAddr), SpendCall(w, id));
    R.FormulasAgree(w.payments.payments[id].paise);
  }

  // ---------------------------------------------------------------- who may issue, for whom

  /** Transaction `i` of a run writes the record `id`. */
  ghost predicate Writes(w: World, txs: seq<Tx>, i: nat, id: Bytes32)
    requires i < |txs|
  {
    id !in After(w, txs[..i]).rewards.records && id in After(w, txs[..i + 1]).rewards.records
  }

  /** Every reward record was written at one moment of the run, in a reward engine that was
      not paused, by an issuer who was enabled at that moment. The issuer authorised it: by a
      signature in an issue call, or, for the payment engine, in a call of an operator. */
  lemma {:induction false} RecordsByEnabledIssuers(w: World, txs: seq<Tx>, id: Bytes32) returns (i: nat)
    requires id !in w.rewards.records && id in After(w, txs).rewards.records
    ensures i < |txs| && Writes(w, txs, i, id)
    ensures var before, r := After(w, txs[..i]), After(w, txs).rewards.records[id];
            && !before.rewards.paused && R.IsIssuer(before.rewards, r.issuer)
            && r.createdLedger == txs[i].env.ledger
            && (|| txs[i].env.Authorises(r.issuer)
                || (&& r.issuer == before.payAddr && txs[i].call.OnPayments? && txs[i].call.p.IssueReward?
                    && !before.payments.paused && P.IsOperator(before.payments, txs[i].call.p.operator)
                    && txs[i].env.Authorises(txs[i].call.p.operator)))
    decreases |txs|
  {
    var n := |txs| - 1;
    assert txs != [];
    assert txs[..n + 1] == txs;
    if id in After(w, txs[..n]).rewards.records {
      i := RecordsByEnabledIssuers(w, txs[..n], id);
      assert txs[..n][..i] == txs[..i] && txs[..n][..i + 1] == txs[..i + 1];
      RecordStep(After(w, txs[..n]), txs[n], id);
    } else {
      i := n;
      RecordWritten(After(w, txs[..n]), txs[n], id);
    }
  }

  lemma RecordWritten(w: World, tx: Tx, id: Bytes32)
    requires id !in w.rewards.records && id in Exec(w, tx).rewards.records
    ensures var r := Exec(w, tx).rewards.records[id];
            && !w.rewards.paused && R.IsIssuer(w.rewards, r.issuer)
            && r.createdLedger == tx.env.ledger
            && (|| tx.env.Authorises(r.issuer)
                || (&& r.issuer == w.payAddr && tx.call.OnPayments? && tx.call.p.IssueReward?
                    && !w.payments.paused && P.IsOperator(w.payments, tx.call.p.operator)
                    && tx.env.Authorises(tx.call.p.operator)))
  {
    match tx.call
    case OnRewards(r) => RT.NewRecord(w.Engines(), w.rewAddr, tx.env, r, id);
    case OnPayments(p) =>
      if p.IssueReward? && P.Check(w.payments, tx.env, p, Asked(w, tx.env, p)).Ok? {
        PR.AcceptedIff(w.payments, tx.env, p, Asked(w, tx.env, p));
        RT.NewRecord(w.Engines(), w.rewAddr, tx.env.CalledBy(w.payAddr), SpendCall(w, p.paymentId), id);
      }
    case _ =>
  }

  /** An address that is no enabled issuer gets no record in its name. */
  lemma {:induction false} DisabledIssuersIssueNothing(w: World, txs: seq<Tx>, a: Address, id: Bytes32)
    requires forall i | 0 <= i < |txs| :: !R.IsIssuer(After(w, txs[..i]).rewards, a)
    requires id in After(w, txs).rewards.records && After(w, txs).rewards.records[id].issuer == a
    ensures id in w.rewards.records
  {
    if id !in w.rewards.records {
      var i := RecordsByEnabledIssuers(w, txs, id);
    }
  }

  /** A payment is created only for a merchant that is approved at that moment, by an enabled
      operator who authorises it. */
  lemma CreatedForApproved(w: World, tx: Tx, id: Bytes32)
    requires id !in w.payments.payments && id in Exec(w, tx).payments.payments
    ensures var merchant := Exec(w, tx).payments.payments[id].merchantId;
            && M.StatusOf(w.registry, merchant) == Some(M.Approved)
            && tx.call.OnPayments? && tx.call.p.Create?
            && !w.payments.paused && P.IsOperator(w.payments, tx.call.p.operator) && tx.env.Authorises(tx.call.p.operator)
  {
    if tx.call.OnPayments? {
      var answers := Asked(w, tx.env, tx.call.p);
      PR.StepChanges(w.payments, PR.Tx(tx.env, tx.call.p, answers), id);
      PR.AcceptedIff(w.payments, tx.env, tx.call.p, answers);
      if tx.call.p.Create? {
        M.IsApprovedIff(w.registry, tx.call.p.merchantId);
      }
    }
  }

  /** Every payment was created at one moment of the run at which its merchant was approved. */
  lemma {:induction false} MerchantWasApproved(w: World, txs: seq<Tx>, id: Bytes32) returns (i: nat)
    requires id !in w.payments.payments && id in After(w, txs).payments.payments
    ensures i < |txs|
    ensures id !in After(w, txs[..i]).payments.payments && id in After(w, txs[..i + 1]).payments.payments
    ensures M.StatusOf(After(w, txs[..i]).registry, After(w, txs).payments.payments[id].merchantId) == Some(M.Approved)
    decreases |txs|
  {
    var n := |txs| - 1;
    assert txs != [];
    assert txs[..n + 1] == txs;
    if id in After(w, txs[..n]).payments.payments {
      i := MerchantWasApproved(w, txs[..n], id);
      assert txs[..n][..i] == txs[..i] && txs[..n][..i + 1] == txs[..i + 1];
      MerchantStays(After(w, txs[..n]), txs[n], id);
    } else {
      i := n;
      CreatedForApproved(After(w, txs[..n]), txs[n], id);
    }
  }

  lemma MerchantStays(w: World, tx: Tx, id: Bytes32)
    requires id in w.payments.payments
    ensures id in Exec(w, tx).payments.payments
    ensures Exec(w, tx).payments.payments[id].merchantId == w.payments.payments[id].merchantId
  {
    if tx.call.OnPayments? {
      PR.StepChanges(w.payments, PR.Tx(tx.env, tx.call.p, Asked(w, tx.env, tx.call.p)), id);
    }
  }

  /** Suspension works: as long as a merchant is not approved, no payment is created for it. */
  lemma {:induction false} SuspendedGetsNoPayment(w: World, txs: seq<Tx>, merchant: Bytes32, id: Bytes32)
    requires forall i | 0 <= i < |txs| :: M.StatusOf(After(w, txs[..i]).registry, merchant) != Some(M.Approved)
    requires id in After(w, txs).payments.payments && After(w, txs).payments.payments[id].merchantId == merchant
    ensures id in w.payments.payments
  {
    if id !in w.payments.payments {
      var i := MerchantWasApproved(w, txs, id);
    }
  }

  // ---------------------------------------------------------------- who pauses

  datatype Member = Token | Rewards | Payments | Registry

  function PausedOf(w: World, m: Member): bool {
    match m
    case Token => w.token.paused
    case Rewards => w.rewards.paused
    case Payments => w.payments.paused
    case Registry => w.registry.paused
  }

  /** What a transaction does to the pause flag of a contract when its admin authorises it. */
  function Toggle(w: World, tx: Tx, m: Member): Option<bool> {
    match m
    case Token =>
      if !tx.call.OnToken? || !tx.env.Authorises(w.token.admin) then None
      else if tx.call.t.Pause? then Some(true) else if tx.call.t.Unpause? then Some(false) else None
    case Rewards =>
      if !tx.call.OnRewards? || !tx.env.Authorises(w.rewards.admin) then None
      else if tx.call.r.Pause? then Some(true) else if tx.call.r.Unpause? then Some(false) else None
    case Payments =>
      if !tx.call.OnPayments? || !tx.env.Authorises(w.payments.admin) then None
      else if tx.call.p.Pause? then Some(true) else if tx.call.p.Unpause? then Some(false) else None
    case Registry =>
      if !tx.call.OnRegistry? || !tx.env.Authorises(w.registry.admin) then None
      else if tx.call.m.Pause? then Some(true) else if tx.call.m.Unpause? then Some(false) else None
  }

  function LastToggle(w: World, txs: seq<Tx>, m: Member): bool {
    if txs == [] then false
    else
      var toggle := Toggle(After(w, txs[..|txs| - 1]), txs[|txs| - 1], m);
      if toggle.Some? then toggle.value else LastToggle(w, txs[..|txs| - 1], m)
  }

  /** Each contract is paused exactly when the last word of its admins was to pause it; at
      deployment it is not. */
  lemma {:induction false} PausedByAdmin(c: Config, txs: seq<Tx>, m: Member)
    ensures PausedOf(After(Genesis(c), txs), m) == LastToggle(Genesis(c), txs, m)
  {
    if txs != [] {
      var n := |txs| - 1;
      PausedByAdmin(c, txs[..n], m);
      ToggleStep(After(Genesis(c), txs[..n]), txs[n], m);
    }
  }

  lemma ToggleStep(w: World, tx: Tx, m: Member)
    ensures var toggle := Toggle(w, tx, m);
            PausedOf(Exec(w, tx), m) == if toggle.Some? then toggle.value else PausedOf(w, m)
  {
    match m
    case Token => TokenToggle(w, tx);
    case Rewards => RewardsToggle(w, tx);
    case Payments => if tx.call.OnPayments? { PR.PauseIff(w.payments, tx.env, tx.call.p, Asked(w, tx.env, tx.call.p)); }
    case Registry => if tx.call.OnRegistry? { M.PauseIff(w.registry, tx.env, tx.call.m); }
  }

  lemma TokenToggle(w: World, tx: Tx)
    ensures var toggle := Toggle(w, tx, Token);
            Exec(w, tx).token.paused == if toggle.Some? then toggle.value else w.token.paused
  {
    if tx.call.OnToken? {
      TRules.PauseIff(w.token, tx.env, tx.call.t);
    } else {
      TokenStepIsCalls(w, tx);
      var calls := TokenCalls(w, tx);
      if calls != [] {
        TRules.PauseIff(w.token, calls[0].env, calls[0].call);
      }
    }
  }

  lemma RewardsToggle(w: World, tx: Tx)
    ensures var toggle := Toggle(w, tx, Rewards);
            Exec(w, tx).rewards.paused == if toggle.Some? then toggle.value else w.rewards.paused
  {
    if tx.call.OnRewards? {
      var r := tx.call.r;
      R.PauseIff(w.rewards, tx.env, r, RT.MintAccepted(w.Engines(), w.rewAddr, tx.env, r));
    } else if tx.call.OnPayments? && tx.call.p.IssueReward? && tx.call.p.paymentId in w.payments.payments {
      var env, r := tx.env.CalledBy(w.payAddr), SpendCall(w, tx.call.p.paymentId);
      R.PauseIff(w.rewards, env, r, RT.MintAccepted(w.Engines(), w.rewAddr, env, r));
    }
  }

  // ---------------------------------------------------------------- when a payment is rewarded

  /** Exactly when an accepted issue_reward pays: the reward engine is not paused, has the
      payment engine as an issuer and no record under the payment's reward id, the payment is
      of 100 rupees at least, and the token mints for the engine. Then the payment carries 10
      STAR per full 100 rupees, otherwise none. */
  lemma RewardPaidIff(w: World, env: Env, operator: Address, id: Bytes32)
    requires P.Check(w.payments, env, P.IssueReward(operator, id), Asked(w, env, P.IssueReward(operator, id))).Ok?
    ensures id in w.payments.payments
    ensures var p, w' := w.payments.payments[id], Exec(w, Tx(env, OnPayments(P.IssueReward(operator, id))));
            var star := p.paise / 10000 * 10;
            && id in w'.payments.payments
            && w'.payments.payments[id].starReward ==
               if && !w.rewards.paused && R.IsIssuer(w.rewards, w.payAddr)
                  && p.rewardId !in w.rewards.records
                  && 10000 <= p.paise
                  && RT.TokenMints(w.token, w.rewAddr, p.payer, star)
               then star else 0
  {
    var call := P.IssueReward(operator, id);
    PR.AcceptedIff(w.payments, env, call, Asked(w, env, call));
    PR.PaymentAfter(w.payments, env, call, Asked(w, env, call), id);
    RT.RewardIssuedIff(w.Engines(), w.rewAddr, env.CalledBy(w.payAddr), SpendCall(w, id));
  }
}
