/** What holds of the STAR token over every run: any number of calls, by anyone, in any
    order. */
module StarTokenRuns {
  import opened Host
  import opened Sums
  import opened StarToken

  datatype Tx = Tx(env: Env, call: Call)

  function After(t: Token, txs: seq<Tx>): Token {
    if txs == [] then t
    else
      var tx := txs[|txs| - 1];
      Step(After(t, txs[..|txs| - 1]), tx.env, tx.call)
  }

  /** Whether call number `i` of a run is accepted. */
  predicate Accepted(t: Token, txs: seq<Tx>, i: nat)
    requires i < |txs|
  {
    Check(After(t, txs[..i]), txs[i].env, txs[i].call).Ok?
  }

  lemma {:induction false} RunSound(t: Token, txs: seq<Tx>)
    requires Sound(t)
    ensures Sound(After(t, txs))
  {
    if txs != [] {
      var n := |txs| - 1;
      RunSound(t, txs[..n]);
      StepSound(After(t, txs[..n]), txs[n].env, txs[n].call);
    }
  }

  /** In every reachable state the balances add up to the supply, none is negative, and
      the supply is between zero and the cap set at deployment. */
  lemma {:induction false} SupplyConserved(admin: Address, maxSupply: i128, txs: seq<Tx>)
    requires 0 < maxSupply
    ensures var t := After(Deploy(admin, maxSupply), txs);
            && Total(t.balances) == t.supply
            && 0 <= t.supply <= t.maxSupply == maxSupply
            && forall a :: 0 <= Get(t.balances, a) <= t.supply
  {
    var t := After(Deploy(admin, maxSupply), txs);
    RunSound(Deploy(admin, maxSupply), txs);
    CapFixed(Deploy(admin, maxSupply), txs);
    forall a ensures 0 <= Get(t.balances, a) <= t.supply {
      BalancesWithinSupply(t.balances, t.supply, t.maxSupply, a, a);
    }
  }

  lemma {:induction false} CapFixed(t: Token, txs: seq<Tx>)
    ensures After(t, txs).maxSupply == t.maxSupply
  {
    if txs != [] {
      var n := |txs| - 1;
      CapFixed(t, txs[..n]);
      StepKeepsCap(After(t, txs[..n]), txs[n].env, txs[n].call);
    }
  }

  lemma StepKeepsCap(t: Token, env: Env, call: Call)
    ensures Step(t, env, call).maxSupply == t.maxSupply
  {
  }

  // ---------------------------------------------------------------- the event log

  datatype Ledger = Ledger(balances: map<Address, int>, supply: int)

  /** What a reader of the log books for one event. The recipient of a mint is the
      counterparty, whether the admin or a minter minted. */
  function Book(l: Ledger, e: StarEvent): Ledger {
    match e.action
    case Minted => Ledger(Credit(l.balances, e.counterparty, e.amount), l.supply + e.amount)
    case Transferred => Ledger(Credit(Credit(l.balances, e.account, -e.amount), e.counterparty, e.amount), l.supply)
    case Burned => Ledger(Credit(l.balances, e.account, -e.amount), l.supply - e.amount)
    case FeeBurned => Ledger(Credit(l.balances, e.account, -e.amount), l.supply - e.amount)
    case _ => l
  }

  function Replay(events: seq<StarEvent>): Ledger {
    if events == [] then Ledger(map[], 0)
    else Book(Replay(events[..|events| - 1]), events[|events| - 1])
  }

  lemma ReplayAppend(events: seq<StarEvent>, e: StarEvent)
    ensures Replay(events + [e]) == Book(Replay(events), e)
  {
    assert (events + [e])[..|events|] == events;
  }

  /** The log is complete for money: folding it from nothing rebuilds every balance and
      the supply of any reachable state. */
  lemma {:induction false} LogRebuildsMoney(admin: Address, maxSupply: i128, txs: seq<Tx>)
    ensures var t := After(Deploy(admin, maxSupply), txs);
            Replay(t.events) == Ledger(t.balances, t.supply)
  {
    if txs == [] {
      ReplayAppend([], Deploy(admin, maxSupply).events[0]);
      assert [] + [Deploy(admin, maxSupply).events[0]] == Deploy(admin, maxSupply).events;
    } else {
      var n := |txs| - 1;
      LogRebuildsMoney(admin, maxSupply, txs[..n]);
      StepLogged(After(Deploy(admin, maxSupply), txs[..n]), txs[n].env, txs[n].call);
    }
  }

  lemma StepLogged(t: Token, env: Env, call: Call)
    requires Replay(t.events) == Ledger(t.balances, t.supply)
    ensures var t' := Step(t, env, call); Replay(t'.events) == Ledger(t'.balances, t'.supply)
  {
    var t' := Step(t, env, call);
    OneEvent(t, env, call);
    if t'.events != t.events {
      ReplayAppend(t.events, t'.events[|t.events|]);
      StepBooked(t, env, call);
    }
  }

  /** A call adds at most one event; only a refused call and a fee of zero add none. */
  lemma OneEvent(t: Token, env: Env, call: Call)
    ensures var t' := Step(t, env, call);
            if t' == t then t'.events == t.events
            else |t'.events| == |t.events| + 1 && t'.events == t.events + [t'.events[|t.events|]]
  {
    var t' := Step(t, env, call);
    if Check(t, env, call).Ok? && !(call.BurnFee? && FeeOf(t, call.amount) == 0) {
      assert |t'.events| == |t.events| + 1;
    }
  }

  lemma StepBooked(t: Token, env: Env, call: Call)
    requires Step(t, env, call).events != t.events
    ensures |Step(t, env, call).events| == |t.events| + 1
    ensures var t' := Step(t, env, call);
            Ledger(t'.balances, t'.supply) == Book(Ledger(t.balances, t.supply), t'.events[|t.events|])
  {
    if Mints(call) || Moves(call) {
      TransferBooked(t, env, call);
    } else if Burns(call) {
      BurnBooked(t, env, call);
    }
  }

  lemma TransferBooked(t: Token, env: Env, call: Call)
    requires Check(t, env, call).Ok? && (Mints(call) || Moves(call))
    ensures var t' := Step(t, env, call);
            && |t'.events| == |t.events| + 1
            && Ledger(t'.balances, t'.supply) == Book(Ledger(t.balances, t.supply), t'.events[|t.events|])
  {
  }

  lemma BurnBooked(t: Token, env: Env, call: Call)
    requires Step(t, env, call).events != t.events && Burns(call)
    ensures var t' := Step(t, env, call);
            && |t'.events| == |t.events| + 1
            && Ledger(t'.balances, t'.supply) == Book(Ledger(t.balances, t.supply), t'.events[|t.events|])
  {
  }

  /** The log cannot always tell an admin's mint from a minter's: of two accepted calls that
      mint the same, it reads the same exactly when the minter mints to itself. */
  lemma MintOriginInvisible(t: Token, env: Env, minter: Address, to: Address, amount: i128)
    requires Check(t, env, Mint(to, amount)).Ok? && Check(t, env, MintFromMinter(minter, to, amount)).Ok?
    ensures Step(t, env, Mint(to, amount)) == Step(t, env, MintFromMinter(minter, to, amount)) <==> minter == to
  {
    var e, e' := Step(t, env, Mint(to, amount)).events, Step(t, env, MintFromMinter(minter, to, amount)).events;
    assert e[|t.events|].account == to && e'[|t.events|].account == minter;
  }

  /** What a run mints with `minter` as the minter. */
  function MintedBy(t: Token, txs: seq<Tx>, minter: Address): int {
    if txs == [] then 0
    else
      var n := |txs| - 1;
      var call := txs[n].call;
      MintedBy(t, txs[..n], minter) +
      if Accepted(t, txs, n) && call.MintFromMinter? && call.minter == minter then call.amount else 0
  }

  lemma MintedByAppend(t: Token, txs: seq<Tx>, tx: Tx, minter: Address)
    ensures MintedBy(t, txs + [tx], minter) == MintedBy(t, txs, minter) +
            if Check(After(t, txs), tx.env, tx.call).Ok? && tx.call.MintFromMinter? && tx.call.minter == minter
            then tx.call.amount else 0
  {
    assert (txs + [tx])[..|txs|] == txs;
  }

  /** Call number `i` of a run is an accepted mint by the admin to `a`. */
  predicate AdminMints(t: Token, txs: seq<Tx>, i: nat, a: Address)
    requires i < |txs|
  {
    Accepted(t, txs, i) && txs[i].call.Mint? && txs[i].call.to == a
  }

  /** What a run mints to `a` by the admin's own mints. */
  function AdminMinted(t: Token, txs: seq<Tx>, a: Address): int {
    if txs == [] then 0
    else
      var n := |txs| - 1;
      AdminMinted(t, txs[..n], a) + if AdminMints(t, txs, n, a) then txs[n].call.amount else 0
  }

  /** The mints a reader of the log finds under the name of `a`. */
  function LoggedMints(events: seq<StarEvent>, a: Address): int {
    if events == [] then 0
    else
      var n := |events| - 1;
      LoggedMints(events[..n], a) + if events[n].action == Minted && events[n].account == a then events[n].amount else 0
  }

  /** Over every run, what the log says `a` minted is what `a` minted and what the admin
      minted to `a` together. */
  lemma {:induction false} LoggedMintsSplit(admin: Address, maxSupply: i128, txs: seq<Tx>, a: Address)
    ensures var t := Deploy(admin, maxSupply);
            LoggedMints(After(t, txs).events, a) == MintedBy(t, txs, a) + AdminMinted(t, txs, a)
  {
    var t := Deploy(admin, maxSupply);
    if txs == [] {
      assert LoggedMints(t.events[..0], a) == 0;
    } else {
      var n := |txs| - 1;
      LoggedMintsSplit(admin, maxSupply, txs[..n], a);
      StepLogsMint(After(t, txs[..n]), txs[n].env, txs[n].call, a);
    }
  }

  lemma StepLogsMint(t: Token, env: Env, call: Call, a: Address)
    ensures LoggedMints(Step(t, env, call).events, a) == LoggedMints(t.events, a) +
            if Check(t, env, call).Ok? && ((call.Mint? && call.to == a) || (call.MintFromMinter? && call.minter == a))
            then call.amount else 0
  {
    OneEvent(t, env, call);
    var t' := Step(t, env, call);
    if t' != t {
      assert t'.events[..|t.events|] == t.events;
    }
  }

  /** So the log gives a minter's total exactly when the admin never minted to it. */
  lemma LogGivesMinterIff(admin: Address, maxSupply: i128, txs: seq<Tx>, a: Address)
    ensures var t := Deploy(admin, maxSupply);
            LoggedMints(After(t, txs).events, a) == MintedBy(t, txs, a) <==>
            forall i | 0 <= i < |txs| :: !AdminMints(t, txs, i, a)
  {
    LoggedMintsSplit(admin, maxSupply, txs, a);
    AdminMintedPositive(Deploy(admin, maxSupply), txs, a);
  }

  lemma {:induction false} AdminMintedPositive(t: Token, txs: seq<Tx>, a: Address)
    ensures 0 <= AdminMinted(t, txs, a)
    ensures AdminMinted(t, txs, a) == 0 <==> forall i | 0 <= i < |txs| :: !AdminMints(t, txs, i, a)
  {
    if txs != [] {
      var n := |txs| - 1;
      AdminMintedPositive(t, txs[..n], a);
      forall i | 0 <= i < n ensures AdminMints(t, txs[..n], i, a) == AdminMints(t, txs, i, a) {
        assert txs[..n][..i] == txs[..i];
      }
    }
  }

  /** Right after deployment the admin mints to itself, in one of two ways. The states are
      the same, log and all, and yet in the one run it has minted as a minter and in the
      other it has not. */
  lemma SameLogExample(env: Env, admin: Address, maxSupply: i128, amount: i128)
    requires env.Authorises(admin) && 0 < amount <= maxSupply
    ensures var t := Deploy(admin, maxSupply);
            var asAdmin, asMinter := [Tx(env, Mint(admin, amount))], [Tx(env, MintFromMinter(admin, admin, amount))];
            && After(t, asAdmin) == After(t, asMinter)
            && LoggedMints(After(t, asAdmin).events, admin) == amount
            && MintedBy(t, asAdmin, admin) == 0
            && MintedBy(t, asMinter, admin) == amount
  {
    var t := Deploy(admin, maxSupply);
    MintOriginInvisible(t, env, admin, admin, amount);
    OneCall(t, Tx(env, Mint(admin, amount)), admin);
    OneCall(t, Tx(env, MintFromMinter(admin, admin, amount)), admin);
    StepLogsMint(t, env, Mint(admin, amount), admin);
    assert LoggedMints(t.events[..0], admin) == 0;
  }

  lemma OneCall(t: Token, tx: Tx, a: Address)
    ensures After(t, [tx]) == Step(t, tx.env, tx.call)
    ensures MintedBy(t, [tx], a) ==
            if Check(t, tx.env, tx.call).Ok? && tx.call.MintFromMinter? && tx.call.minter == a then tx.call.amount else 0
  {
    assert [] + [tx] == [tx] && [tx][..0] == [];
    MintedByAppend(t, [], tx, a);
  }

  // ---------------------------------------------------------------- authority

  /** What a call takes from an account, in its owner's name or in a spender's. */
  function Loss(t: Token, env: Env, call: Call, a: Address): int {
    Get(t.balances, a) - Get(Step(t, env, call).balances, a)
  }

  /** Nobody loses STAR without consenting: a balance goes down only in an unpaused token,
      for an account that is not frozen, and by no more than its owner authorises now or has
      allowed an authorising spender. */
  lemma LossNeedsConsent(t: Token, env: Env, call: Call, a: Address)
    requires Sound(t) && 0 < Loss(t, env, call, a)
    ensures !t.paused && IsAuthorized(t, a)
    ensures env.Authorises(a) ||
            ((call.TransferFrom? || call.BurnFrom?) && env.Authorises(call.spender) &&
             Loss(t, env, call, a) <= ReadAllowance(t, a, call.spender, env.ledger))
  {
    if Burns(call) {
      BurnLoss(t, env, call, a);
    } else {
      MoveLoss(t, env, call, a);
    }
  }

  lemma BurnLoss(t: Token, env: Env, call: Call, a: Address)
    requires Sound(t) && Burns(call) && 0 < Loss(t, env, call, a)
    ensures !t.paused && IsAuthorized(t, a) && call.from == a
    ensures env.Authorises(a) ||
            (call.BurnFrom? && env.Authorises(call.spender) &&
             Loss(t, env, call, a) <= ReadAllowance(t, a, call.spender, env.ledger))
  {
    if call.BurnFee? && 0 < call.amount {
      FeeWithin(t, call.amount);
    }
  }

  lemma MoveLoss(t: Token, env: Env, call: Call, a: Address)
    requires !Burns(call) && 0 < Loss(t, env, call, a)
    ensures Moves(call) && !t.paused && IsAuthorized(t, a) && call.from == a
    ensures env.Authorises(a) ||
            (call.TransferFrom? && env.Authorises(call.spender) &&
             Loss(t, env, call, a) <= ReadAllowance(t, a, call.spender, env.ledger))
  {
  }

  /** The supply grows only by a call of the admin, or of a minter in its own name. */
  lemma MintNeedsAuthority(t: Token, env: Env, call: Call)
    requires Sound(t) && t.supply < Step(t, env, call).supply
    ensures !t.paused
    ensures (call.Mint? && env.Authorises(t.admin)) ||
            (call.MintFromMinter? && env.Authorises(call.minter) && IsMinter(t, call.minter))
  {
    if call.BurnFee? && 0 < call.amount {
      FeeWithin(t, call.amount);
    }
  }

  /** An accepted fee call takes exactly the fee it answers from the payer and from the
      supply: the share of the amount set by the basis points, rounded down, and nothing
      when fees are off. */
  lemma FeeTakenExactly(t: Token, env: Env, from: Address, amount: i128)
    requires Sound(t) && Check(t, env, BurnFee(from, amount)).Ok?
    ensures var fee, t' := Check(t, env, BurnFee(from, amount)).value, Step(t, env, BurnFee(from, amount));
            && 0 <= fee <= amount
            && Get(t'.balances, from) == Get(t.balances, from) - fee
            && t'.supply == t.supply - fee
            && (ChargesFees(t) ==> 10000 * fee <= amount * t.feeConfig.value.basisPoints < 10000 * fee + 10000)
            && (!ChargesFees(t) ==> fee == 0)
            && (fee == 0 ==> t' == t)
  {
    FeeWithin(t, amount);
  }

  /** A transfer burns nothing, whatever the fee configuration says: the recipient gets the
      whole amount and the supply stays. */
  lemma TransferChargesNoFee(t: Token, env: Env, call: Call)
    requires Moves(call) && Check(t, env, call).Ok?
    ensures var t' := Step(t, env, call);
            && t'.supply == t.supply
            && (call.from != call.to ==>
                  && Get(t'.balances, call.to) == Get(t.balances, call.to) + call.amount
                  && Get(t'.balances, call.from) == Get(t.balances, call.from) - call.amount)
            && (call.from == call.to ==> Get(t'.balances, call.to) == Get(t.balances, call.to))
            && (forall a | a != call.from && a != call.to :: Get(t'.balances, a) == Get(t.balances, a))
  {
  }

  // ---------------------------------------------------------------- allowances

  datatype Spending = Spending(amount: int, ledger: u32)

  /** The last approval of a spender, and what the spender has used of it since. */
  datatype Grant = Grant(approved: i128, expiry: u32, spent: seq<Spending>)

  function Spent(spendings: seq<Spending>): int {
    if spendings == [] then 0
    else Spent(spendings[..|spendings| - 1]) + spendings[|spendings| - 1].amount
  }

  predicate Approves(call: Call, from: Address, spender: Address) {
    call.Approve? && call.from == from && call.spender == spender
  }

  predicate Spends(call: Call, from: Address, spender: Address) {
    (call.TransferFrom? || call.BurnFrom?) && call.from == from && call.spender == spender
  }

  /** The grant in force after one more call: an accepted approval starts a new one, an
      accepted spending is added to the one in force. */
  function Granted(t: Token, tx: Tx, grant: Option<Grant>, from: Address, spender: Address): Option<Grant> {
    if !Check(t, tx.env, tx.call).Ok? then grant
    else if Approves(tx.call, from, spender) then Some(Grant(tx.call.amount, tx.call.expiry, []))
    else if Spends(tx.call, from, spender) && grant.Some? then
      Some(grant.value.(spent := grant.value.spent + [Spending(tx.call.amount, tx.env.ledger)]))
    else grant
  }

  /** Read off a run which grant is in force. */
  function GrantAfter(t: Token, txs: seq<Tx>, from: Address, spender: Address): Option<Grant> {
    if txs == [] then None
    else
      var n := |txs| - 1;
      Granted(After(t, txs[..n]), txs[n], GrantAfter(t, txs[..n], from, spender), from, spender)
  }

  ghost predicate GrantKept(t: Token, from: Address, spender: Address, grant: Option<Grant>) {
    match grant
    case None => (from, spender) !in t.allowances
    case Some(g) =>
      && (from, spender) in t.allowances
      && t.allowances[(from, spender)].amount + Spent(g.spent) == g.approved
      && t.allowances[(from, spender)].expiry == g.expiry
      && forall s | s in g.spent :: 0 < s.amount && s.ledger <= g.expiry
  }

  /** What is left of an allowance and everything the spender moved or burned since the
      last approval add up to the approved amount, and all of that spending happened no
      later than the expiry. Without an approval there is no allowance. */
  lemma {:induction false} AllowanceAccounted(admin: Address, maxSupply: i128, txs: seq<Tx>, from: Address, spender: Address)
    ensures GrantKept(After(Deploy(admin, maxSupply), txs), from, spender,
                      GrantAfter(Deploy(admin, maxSupply), txs, from, spender))
  {
    if txs != [] {
      var t0, n := Deploy(admin, maxSupply), |txs| - 1;
      AllowanceAccounted(admin, maxSupply, txs[..n], from, spender);
      GrantStep(After(t0, txs[..n]), txs[n], GrantAfter(t0, txs[..n], from, spender), from, spender);
    }
  }

  lemma GrantStep(t: Token, tx: Tx, grant: Option<Grant>, from: Address, spender: Address)
    requires GrantKept(t, from, spender, grant)
    ensures GrantKept(Step(t, tx.env, tx.call), from, spender, Granted(t, tx, grant, from, spender))
  {
    if Spends(tx.call, from, spender) {
      SpendingKept(t, tx, grant, from, spender);
    } else if !Approves(tx.call, from, spender) {
      OthersKeepAllowance(t, tx.env, tx.call, from, spender);
    } else {
      ApprovalKept(t, tx, grant, from, spender);
    }
  }

  lemma ApprovalKept(t: Token, tx: Tx, grant: Option<Grant>, from: Address, spender: Address)
    requires GrantKept(t, from, spender, grant) && Approves(tx.call, from, spender)
    ensures GrantKept(Step(t, tx.env, tx.call), from, spender, Granted(t, tx, grant, from, spender))
  {
  }

  lemma SpendingKept(t: Token, tx: Tx, grant: Option<Grant>, from: Address, spender: Address)
    requires GrantKept(t, from, spender, grant) && Spends(tx.call, from, spender)
    ensures GrantKept(Step(t, tx.env, tx.call), from, spender, Granted(t, tx, grant, from, spender))
  {
    if Check(t, tx.env, tx.call).Ok? {
      SpendingTaken(t, tx.env, tx.call, from, spender);
      SpendingAdded(t, Step(t, tx.env, tx.call), grant.value, Spending(tx.call.amount, tx.env.ledger), from, spender);
    }
  }

  lemma SpendingAdded(t: Token, t': Token, grant: Grant, s: Spending, from: Address, spender: Address)
    requires GrantKept(t, from, spender, Some(grant))
    requires 0 < s.amount && s.ledger <= grant.expiry
    requires (from, spender) in t'.allowances
    requires t'.allowances[(from, spender)].amount == t.allowances[(from, spender)].amount - s.amount
    requires t'.allowances[(from, spender)].expiry == grant.expiry
    ensures GrantKept(t', from, spender, Some(grant.(spent := grant.spent + [s])))
  {
    SpentAppend(grant.spent, s);
  }

  lemma SpentAppend(spendings: seq<Spending>, s: Spending)
    ensures Spent(spendings + [s]) == Spent(spendings) + s.amount
  {
    assert (spendings + [s])[..|spendings|] == spendings;
  }

  /** An accepted spending fits into the allowance, is not late and is taken off it. */
  lemma SpendingTaken(t: Token, env: Env, call: Call, from: Address, spender: Address)
    requires Spends(call, from, spender) && Check(t, env, call).Ok?
    ensures (from, spender) in t.allowances && (from, spender) in Step(t, env, call).allowances
    ensures var a := t.allowances[(from, spender)];
            && 0 < call.amount <= a.amount
            && env.ledger <= a.expiry
            && Step(t, env, call).allowances[(from, spender)] == Allowance(a.amount - call.amount, a.expiry)
  {
  }

  /** Only an approval by the owner and a spending by the spender touch an allowance. */
  lemma OthersKeepAllowance(t: Token, env: Env, call: Call, from: Address, spender: Address)
    requires !Approves(call, from, spender) && !Spends(call, from, spender)
    ensures var t' := Step(t, env, call);
            && ((from, spender) in t'.allowances <==> (from, spender) in t.allowances)
            && ((from, spender) in t.allowances ==> t'.allowances[(from, spender)] == t.allowances[(from, spender)])
  {
  }

  /** The allowance check passes exactly for a positive amount that does not exceed the
      allowance anyone can read. */
  lemma SpendIffAllowed(t: Token, env: Env, from: Address, spender: Address, amount: i128)
    ensures CanSpend(t, env, from, spender, amount).Ok? <==>
            0 < amount <= ReadAllowance(t, from, spender, env.ledger)
  {
  }

  /** Exactly when a delegated transfer goes through. */
  lemma TransferFromIff(t: Token, env: Env, spender: Address, from: Address, to: Address, amount: i128)
    ensures Check(t, env, TransferFrom(spender, from, to, amount)).Ok? <==>
            && !t.paused
            && env.Authorises(spender)
            && 0 < amount <= ReadAllowance(t, from, spender, env.ledger)
            && IsAuthorized(t, from) && IsAuthorized(t, to)
            && amount <= Get(t.balances, from)
  {
  }

  predicate Expired(t: Token, from: Address, spender: Address, now: u32) {
    (from, spender) in t.allowances ==> t.allowances[(from, spender)].expiry < now
  }

  /** A stretch of a run from ledger `now` on without an accepted approval of the spender. */
  ghost predicate NoApproval(t: Token, txs: seq<Tx>, from: Address, spender: Address, now: u32) {
    forall i | 0 <= i < |txs| ::
      now <= txs[i].env.ledger && (Approves(txs[i].call, from, spender) ==> !Accepted(t, txs, i))
  }

  /** An allowance that has expired reads zero, and nothing is spent from it, until the
      owner approves again. */
  lemma {:induction false} ExpiredUntilApproved(t: Token, txs: seq<Tx>, from: Address, spender: Address, now: u32, i: nat)
    requires Expired(t, from, spender, now) && NoApproval(t, txs, from, spender, now)
    ensures forall later: u32 | now <= later :: ReadAllowance(After(t, txs), from, spender, later) == 0
    ensures i < |txs| && Spends(txs[i].call, from, spender) ==> !Accepted(t, txs, i)
  {
    StaysExpired(t, txs, from, spender, now, |txs|);
    assert txs[..|txs|] == txs;
    if i < |txs| {
      StaysExpired(t, txs, from, spender, now, i);
      ExpiredStep(After(t, txs[..i]), txs[i].env, txs[i].call, from, spender, now);
    }
  }

  lemma {:induction false} StaysExpired(t: Token, txs: seq<Tx>, from: Address, spender: Address, now: u32, i: nat)
    requires Expired(t, from, spender, now) && NoApproval(t, txs, from, spender, now)
    requires i <= |txs|
    ensures Expired(After(t, txs[..i]), from, spender, now)
  {
    if i > 0 {
      var n := i - 1;
      StaysExpired(t, txs, from, spender, now, n);
      assert txs[..i][..n] == txs[..n];
      assert Approves(txs[n].call, from, spender) ==> !Accepted(t, txs, n);
      ExpiredStep(After(t, txs[..n]), txs[n].env, txs[n].call, from, spender, now);
    }
  }

  lemma ExpiredStep(t: Token, env: Env, call: Call, from: Address, spender: Address, now: u32)
    requires Expired(t, from, spender, now) && now <= env.ledger
    requires Approves(call, from, spender) ==> !Check(t, env, call).Ok?
    ensures Expired(Step(t, env, call), from, spender, now)
    ensures Spends(call, from, spender) ==> !Check(t, env, call).Ok?
  {
    if Spends(call, from, spender) {
      SpendIffAllowed(t, env, from, spender, call.amount);
    } else if !Approves(call, from, spender) {
      OthersKeepAllowance(t, env, call, from, spender);
    }
  }

  // ---------------------------------------------------------------- freezing and pausing

  /** As long as an account stays frozen, neither its balance nor any allowance it has
      granted changes. */
  lemma {:induction false} FrozenAccountConstant(t: Token, txs: seq<Tx>, a: Address, spender: Address)
    requires Sound(t)
    requires forall k | 0 <= k < |txs| :: !IsAuthorized(After(t, txs[..k]), a)
    ensures Get(After(t, txs).balances, a) == Get(t.balances, a)
    ensures (a, spender) in After(t, txs).allowances <==> (a, spender) in t.allowances
    ensures (a, spender) in t.allowances ==> After(t, txs).allowances[(a, spender)] == t.allowances[(a, spender)]
  {
    if txs != [] {
      var n := |txs| - 1;
      assert forall k | 0 <= k < n :: txs[..n][..k] == txs[..k];
      FrozenAccountConstant(t, txs[..n], a, spender);
      RunSound(t, txs[..n]);
      FrozenStep(After(t, txs[..n]), txs[n].env, txs[n].call, a, spender);
    }
  }

  lemma FrozenStep(t: Token, env: Env, call: Call, a: Address, spender: Address)
    requires Sound(t) && !IsAuthorized(t, a)
    ensures var t' := Step(t, env, call);
            && Get(t'.balances, a) == Get(t.balances, a)
            && ((a, spender) in t'.allowances <==> (a, spender) in t.allowances)
            && ((a, spender) in t.allowances ==> t'.allowances[(a, spender)] == t.allowances[(a, spender)])
  {
    FrozenBalance(t, env, call, a);
    if Approves(call, a, spender) || Spends(call, a, spender) {
      assert !Check(t, env, call).Ok?;
    } else {
      OthersKeepAllowance(t, env, call, a, spender);
    }
  }

  lemma FrozenBalance(t: Token, env: Env, call: Call, a: Address)
    requires Sound(t) && !IsAuthorized(t, a)
    ensures Get(Step(t, env, call).balances, a) == Get(t.balances, a)
  {
    if call.BurnFee? && 0 < call.amount {
      FeeWithin(t, call.amount);
    }
  }

  /** As long as the token stays paused, nothing but the pause flag and the log changes:
      balances, supply, allowances, roles, freezes, fees and the admin are constant. */
  lemma {:induction false} PausedTokenConstant(t: Token, txs: seq<Tx>)
    requires forall k | 0 <= k < |txs| :: After(t, txs[..k]).paused
    ensures var t' := After(t, txs); t' == t.(paused := t'.paused, events := t'.events)
  {
    if txs != [] {
      var n := |txs| - 1;
      assert forall k | 0 <= k < n :: txs[..n][..k] == txs[..k];
      PausedTokenConstant(t, txs[..n]);
      PausedStep(After(t, txs[..n]), txs[n].env, txs[n].call);
    }
  }

  lemma PausedStep(t: Token, env: Env, call: Call)
    requires t.paused
    ensures var t' := Step(t, env, call); t' == t.(paused := t'.paused, events := t'.events)
  {
  }
}
