/** The rules of the STAR token, one aspect at a time: who must authorise a call, what it
    must satisfy, whose money it moves, and what the log tells about the token's government. */
module StarTokenRules {
  import opened Host
  import opened Sums
  import opened StarToken
  import opened StarTokenRuns

  // ---------------------------------------------------------------- which calls are accepted

  /** The address whose authority a call needs. Nobody can accept an office not offered. */
  function Signer(t: Token, call: Call): Option<Address> {
    match call
    case AcceptAdmin => t.pendingAdmin
    case BurnFee(from, _) => Some(from)
    case MintFromMinter(minter, _, _) => Some(minter)
    case Approve(from, _, _, _) => Some(from)
    case Transfer(from, _, _) => Some(from)
    case TransferFrom(spender, _, _, _) => Some(spender)
    case Burn(from, _) => Some(from)
    case BurnFrom(spender, _, _) => Some(spender)
    case _ => Some(t.admin)
  }

  /** The accounts that must not be frozen. */
  function Involved(t: Token, call: Call): set<Address> {
    if Mints(call) then {call.to}
    else if Moves(call) then {call.from, call.to}
    else if call.Approve? then {call.from, call.spender}
    else if Burns(call) && (call.BurnFee? ==> FeeOf(t, call.amount) != 0) then {call.from}
    else {}
  }

  /** What a call takes out of the account `from`. */
  function Taken(t: Token, call: Call): int {
    if call.BurnFee? then FeeOf(t, call.amount)
    else if Moves(call) || Burns(call) then call.amount
    else 0
  }

  /** The amounts, rates and dates a call may name. */
  predicate Sensible(t: Token, env: Env, call: Call) {
    && (Mints(call) || Moves(call) || Burns(call) ==> 0 < call.amount)
    && (call.BurnFee? && ChargesFees(t) ==> call.amount * t.feeConfig.value.basisPoints <= I128_MAX)
    && (call.SetFeeBurnConfig? ==> call.basisPoints <= 10000)
    && (call.Approve? ==> call.amount == 0 || (0 < call.amount && env.ledger <= call.expiry))
  }

  /** What the accounts, the allowance and the cap must bear. */
  predicate Covered(t: Token, env: Env, call: Call) {
    && (Taken(t, call) != 0 ==> Taken(t, call) <= Get(t.balances, call.from))
    && (call.TransferFrom? || call.BurnFrom? ==> call.amount <= ReadAllowance(t, call.from, call.spender, env.ledger))
    && (Mints(call) ==> t.supply + call.amount <= t.maxSupply)
    && (call.MintFromMinter? ==> IsMinter(t, call.minter))
  }

  predicate Admissible(t: Token, env: Env, call: Call) {
    && (t.paused ==> call.Pause? || call.Unpause?)
    && Signer(t, call).Some? && env.Authorises(Signer(t, call).value)
    && (forall a | a in Involved(t, call) :: IsAuthorized(t, a))
    && Sensible(t, env, call)
    && Covered(t, env, call)
  }

  /** Exactly which calls are accepted. */
  lemma AcceptedIff(t: Token, env: Env, call: Call)
    ensures Check(t, env, call).Ok? <==> Admissible(t, env, call)
  {
    if Mints(call) || Moves(call) || call.Approve? {
      MoveAcceptedIff(t, env, call);
    } else if Burns(call) {
      BurnAcceptedIff(t, env, call);
    } else {
      QuietAcceptedIff(t, env, call);
    }
  }

  lemma MoveAcceptedIff(t: Token, env: Env, call: Call)
    requires Mints(call) || Moves(call) || call.Approve?
    ensures Check(t, env, call).Ok? <==> Admissible(t, env, call)
  {
    if Mints(call) {
      assert call.to in Involved(t, call);
    } else {
      assert call.from in Involved(t, call) && (if Moves(call) then call.to else call.spender) in Involved(t, call);
    }
  }

  lemma BurnAcceptedIff(t: Token, env: Env, call: Call)
    requires Burns(call)
    ensures Check(t, env, call).Ok? <==> Admissible(t, env, call)
  {
    assert Taken(t, call) != 0 ==> call.from in Involved(t, call);
    if call.BurnFee? && 0 < call.amount && ChargesFees(t) {
      assert 0 <= call.amount * t.feeConfig.value.basisPoints;
    }
  }

  lemma QuietAcceptedIff(t: Token, env: Env, call: Call)
    requires !Mints(call) && !Moves(call) && !Burns(call) && !call.Approve?
    ensures Check(t, env, call).Ok? <==> Admissible(t, env, call)
  {
  }

  /** Only a fee call answers anything, the fee. A refusal names a reason that is there: the token is paused, an amount, rate or date is
      out of range, an account is frozen or no minter, money, allowance or cap do not suffice,
      nobody is invited to office; it traps only when the authority is missing. */
  predicate TrueReason(t: Token, env: Env, call: Call, r: Reply<int, TokenError>) {
    match r
    case Ok(answer) => Admissible(t, env, call) && answer == if call.BurnFee? then FeeOf(t, call.amount) else 0
    case Trap => Signer(t, call).Some? && !env.Authorises(Signer(t, call).value)
    case Err(Paused) => t.paused
    case Err(NoPendingAdmin) => call.AcceptAdmin? && t.pendingAdmin.None?
    case Err(InvalidAmount) => !Sensible(t, env, call)
    case Err(AccountNotAuthorized) =>
      (exists a :: a in Involved(t, call) && !IsAuthorized(t, a)) || (call.MintFromMinter? && !IsMinter(t, call.minter))
    case Err(InsufficientBalance) => Taken(t, call) != 0 && Get(t.balances, call.from) < Taken(t, call)
    case Err(SupplyCapExceeded) => Mints(call) && t.maxSupply < t.supply + call.amount
    case Err(InsufficientAllowance) =>
      (call.TransferFrom? || call.BurnFrom?) && ReadAllowance(t, call.from, call.spender, env.ledger) < call.amount
    case Err(AllowanceExpired) =>
      if call.Approve? then call.expiry < env.ledger
      else (call.TransferFrom? || call.BurnFrom?) && (call.from, call.spender) in t.allowances &&
           t.allowances[(call.from, call.spender)].expiry < env.ledger
  }

  lemma RefusedForReason(t: Token, env: Env, call: Call)
    ensures TrueReason(t, env, call, Check(t, env, call))
  {
    AcceptedIff(t, env, call);
    if Mints(call) {
      MintReason(t, env, call);
    } else if Moves(call) {
      MoveReason(t, env, call);
    } else if Burns(call) {
      BurnReason(t, env, call);
    } else if call.Approve? {
      ApproveReason(t, env, call);
    }
  }

  lemma MintReason(t: Token, env: Env, call: Call)
    requires Mints(call)
    ensures !Check(t, env, call).Ok? ==> TrueReason(t, env, call, Check(t, env, call))
  {
    assert call.to in Involved(t, call);
  }

  lemma MoveReason(t: Token, env: Env, call: Call)
    requires Moves(call)
    ensures !Check(t, env, call).Ok? ==> TrueReason(t, env, call, Check(t, env, call))
  {
    assert call.from in Involved(t, call) && call.to in Involved(t, call);
  }

  lemma BurnReason(t: Token, env: Env, call: Call)
    requires Burns(call)
    ensures !Check(t, env, call).Ok? ==> TrueReason(t, env, call, Check(t, env, call))
  {
    assert (call.BurnFee? ==> FeeOf(t, call.amount) != 0) ==> call.from in Involved(t, call);
  }

  lemma ApproveReason(t: Token, env: Env, call: Call)
    requires call.Approve?
    ensures !Check(t, env, call).Ok? ==> TrueReason(t, env, call, Check(t, env, call))
  {
    assert call.from in Involved(t, call) && call.spender in Involved(t, call);
  }

  // ---------------------------------------------------------------- whose money moves

  /** Every accepted call moves exactly this much: what it takes leaves `from`, what it mints
      or moves arrives at `to`, and the supply changes by what is minted or burned. */
  lemma MoneyMoves(t: Token, env: Env, call: Call, a: Address)
    requires Check(t, env, call).Ok?
    ensures var t' := Step(t, env, call);
            && Get(t'.balances, a) == Get(t.balances, a)
                 + (if (Mints(call) || Moves(call)) && call.to == a then call.amount else 0)
                 - (if (Moves(call) || Burns(call)) && call.from == a then Taken(t, call) else 0)
            && t'.supply == t.supply + (if Mints(call) then call.amount else 0) - (if Burns(call) then Taken(t, call) else 0)
  {
    if Moves(call) {
      MoveMovesMoney(t, env, call, a);
    } else if Burns(call) {
      BurnTakesMoney(t, env, call, a);
    } else {
      MintGivesMoney(t, env, call, a);
    }
  }

  lemma MoveMovesMoney(t: Token, env: Env, call: Call, a: Address)
    requires Check(t, env, call).Ok? && Moves(call)
    ensures var t' := Step(t, env, call);
            && t'.supply == t.supply
            && Get(t'.balances, a) == Get(t.balances, a)
                 + (if call.to == a then call.amount else 0) - (if call.from == a then call.amount else 0)
  {
  }

  lemma BurnTakesMoney(t: Token, env: Env, call: Call, a: Address)
    requires Check(t, env, call).Ok? && Burns(call)
    ensures var t' := Step(t, env, call);
            && t'.supply == t.supply - Taken(t, call)
            && Get(t'.balances, a) == Get(t.balances, a) - if call.from == a then Taken(t, call) else 0
  {
  }

  lemma MintGivesMoney(t: Token, env: Env, call: Call, a: Address)
    requires Check(t, env, call).Ok? && !Moves(call) && !Burns(call)
    ensures var t', minted := Step(t, env, call), if Mints(call) then call.amount else 0;
            && t'.supply == t.supply + minted
            && Get(t'.balances, a) == Get(t.balances, a) + if Mints(call) && call.to == a then minted else 0
  {
  }

  /** An allowance anyone can read grows only with its owner's authority, while the token is
      not paused. */
  lemma AllowanceNeedsOwner(t: Token, env: Env, call: Call, from: Address, spender: Address, later: u32)
    requires Sound(t)
    requires ReadAllowance(t, from, spender, later) < ReadAllowance(Step(t, env, call), from, spender, later)
    ensures Approves(call, from, spender) && env.Authorises(from) && !t.paused && IsAuthorized(t, from)
  {
    if Spends(call, from, spender) {
      SpentReadsLess(t, env, call, from, spender, later);
    } else if !Approves(call, from, spender) {
      OthersKeepAllowance(t, env, call, from, spender);
    }
  }

  lemma SpentReadsLess(t: Token, env: Env, call: Call, from: Address, spender: Address, later: u32)
    requires Spends(call, from, spender)
    ensures ReadAllowance(Step(t, env, call), from, spender, later) <= ReadAllowance(t, from, spender, later)
  {
    if Check(t, env, call).Ok? {
      SpendingTaken(t, env, call, from, spender);
    }
  }

  ghost predicate Silent(txs: seq<Tx>, a: Address) {
    forall i | 0 <= i < |txs| :: !txs[i].env.Authorises(a)
  }

  ghost predicate NoGrants(t: Token, a: Address) {
    forall spender :: (a, spender) !in t.allowances
  }

  /** Whoever never authorises a call never loses STAR: at no later moment of a run is the
      balance smaller, and nobody is ever allowed to spend from the account. */
  lemma {:induction false} SilentNeverLoses(admin: Address, maxSupply: i128, txs: seq<Tx>, a: Address, i: nat, j: nat)
    requires 0 < maxSupply && Silent(txs, a) && i <= j <= |txs|
    ensures var t := Deploy(admin, maxSupply);
            Get(After(t, txs[..i]).balances, a) <= Get(After(t, txs[..j]).balances, a) && NoGrants(After(t, txs[..j]), a)
    decreases j
  {
    var t := Deploy(admin, maxSupply);
    if j > 0 {
      var n := j - 1;
      assert txs[..j][..n] == txs[..n];
      SilentNeverLoses(admin, maxSupply, txs, a, if i < j then i else n, n);
      RunSound(t, txs[..n]);
      SilentStep(After(t, txs[..n]), txs[n].env, txs[n].call, a);
    }
  }

  lemma SilentStep(t: Token, env: Env, call: Call, a: Address)
    requires Sound(t) && NoGrants(t, a) && !env.Authorises(a)
    ensures Get(t.balances, a) <= Get(Step(t, env, call).balances, a) && NoGrants(Step(t, env, call), a)
  {
    if 0 < Loss(t, env, call, a) {
      LossNeedsConsent(t, env, call, a);
    }
    forall spender ensures (a, spender) !in Step(t, env, call).allowances {
      if Approves(call, a, spender) {
        AcceptedIff(t, env, call);
      } else if Spends(call, a, spender) {
        SpendIffAllowed(t, env, a, spender, call.amount);
      } else {
        OthersKeepAllowance(t, env, call, a, spender);
      }
    }
  }

  // ---------------------------------------------------------------- pausing and fees

  /** Only the admin pauses and unpauses, at any time, and nothing else moves the flag. */
  lemma PauseIff(t: Token, env: Env, call: Call)
    ensures Step(t, env, call).paused == if env.Authorises(t.admin) && call.Pause? then true
                                         else if env.Authorises(t.admin) && call.Unpause? then false
                                         else t.paused
  {
  }

  /** The fee configuration a run ends with: the last one the contract accepted. */
  function LastConfig(t: Token, txs: seq<Tx>): Option<Call> {
    if txs == [] then None
    else
      var n := |txs| - 1;
      if Accepted(t, txs, n) && txs[n].call.SetFeeBurnConfig? then Some(txs[n].call) else LastConfig(t, txs[..n])
  }

  /** The fee on any amount is the share set last, and nothing before the first setting or
      when the last one switched fees off. */
  lemma {:induction false} FeeFollowsConfig(admin: Address, maxSupply: i128, txs: seq<Tx>, amount: int)
    ensures var config := LastConfig(Deploy(admin, maxSupply), txs);
            && (config.Some? ==> config.value.SetFeeBurnConfig? && config.value.basisPoints <= 10000)
            && FeeOf(After(Deploy(admin, maxSupply), txs), amount) ==
               if config.Some? && config.value.enabled then amount * config.value.basisPoints / 10000 else 0
  {
    var t := Deploy(admin, maxSupply);
    if txs != [] {
      var n := |txs| - 1;
      FeeFollowsConfig(admin, maxSupply, txs[..n], amount);
      ConfigStep(After(t, txs[..n]), txs[n].env, txs[n].call, amount);
    }
  }

  lemma ConfigStep(t: Token, env: Env, call: Call, amount: int)
    ensures var t' := Step(t, env, call);
            if Check(t, env, call).Ok? && call.SetFeeBurnConfig?
            then call.basisPoints <= 10000 && FeeOf(t', amount) == if call.enabled then amount * call.basisPoints / 10000 else 0
            else FeeOf(t', amount) == FeeOf(t, amount)
  {
    if Check(t, env, call).Ok? && call.SetFeeBurnConfig? {
      assert amount * 0 == 0;
    }
  }

  // ---------------------------------------------------------------- the government in the log

  datatype Government = Government(
    admin: Address, pendingAdmin: Option<Address>, paused: bool, minters: map<Address, bool>,
    authorized: map<Address, bool>, feeConfig: Option<FeeBurnConfig>)

  function GovernmentOf(t: Token): Government {
    Government(t.admin, t.pendingAdmin, t.paused, t.minters, t.authorized, t.feeConfig)
  }

  function HandedOver(flags: map<Address, bool>, from: Address, to: Address): map<Address, bool> {
    flags[from := false][to := true]
  }

  /** What a reader of the log notes for one event. */
  function Noted(g: Government, e: StarEvent): Government {
    match e.action
    case Initialised =>
      Government(e.account, None, false, map[e.account := true], map[e.account := true], None)
    case AdminProposed => g.(pendingAdmin := Some(e.counterparty))
    case AdminChanged =>
      g.(admin := e.counterparty, pendingAdmin := None,
         minters := HandedOver(g.minters, e.account, e.counterparty),
         authorized := HandedOver(g.authorized, e.account, e.counterparty))
    case FeeConfigured =>
      if 0 <= e.amount <= 10000 then g.(feeConfig := Some(FeeBurnConfig(e.flag, e.amount, e.counterparty))) else g
    case TokenPaused => g.(paused := true)
    case TokenUnpaused => g.(paused := false)
    case MinterSet =>
      g.(minters := g.minters[e.account := e.flag],
         authorized := if e.flag then g.authorized[e.account := true] else g.authorized)
    case AuthorizedSet => g.(authorized := g.authorized[e.account := e.flag])
    case _ => g
  }

  function Chronicle(events: seq<StarEvent>): Government {
    if events == [] then Government(Account(0), None, false, map[], map[], None)
    else Noted(Chronicle(events[..|events| - 1]), events[|events| - 1])
  }

  /** The log is complete for the government, too: reading it from the start tells admin,
      proposed admin, pause flag, minters, freeze list and fee configuration of any
      reachable state. */
  lemma {:induction false} LogRebuildsGovernment(admin: Address, maxSupply: i128, txs: seq<Tx>)
    ensures var t := After(Deploy(admin, maxSupply), txs);
            Chronicle(t.events) == GovernmentOf(t)
  {
    var t := Deploy(admin, maxSupply);
    if txs == [] {
      assert t.events[..0] == [] && |t.events| == 1;
      assert Chronicle(t.events) == Noted(Chronicle([]), t.events[0]);
    } else {
      var n := |txs| - 1;
      LogRebuildsGovernment(admin, maxSupply, txs[..n]);
      ChronicleStep(After(t, txs[..n]), txs[n].env, txs[n].call);
    }
  }

  lemma ChronicleStep(t: Token, env: Env, call: Call)
    requires Chronicle(t.events) == GovernmentOf(t)
    ensures Chronicle(Step(t, env, call).events) == GovernmentOf(Step(t, env, call))
  {
    OneEvent(t, env, call);
    var t' := Step(t, env, call);
    if t' != t {
      var e := t'.events[|t.events|];
      assert t'.events[..|t.events|] == t.events;
      assert Chronicle(t'.events) == Noted(Chronicle(t.events), e);
      if Mints(call) || Moves(call) || Burns(call) || call.Approve? {
        QuietNoted(t, env, call);
      } else {
        GovernmentNoted(t, env, call);
      }
    }
  }

  lemma QuietNoted(t: Token, env: Env, call: Call)
    requires Mints(call) || Moves(call) || Burns(call) || call.Approve?
    requires Step(t, env, call) != t && |Step(t, env, call).events| == |t.events| + 1
    ensures Noted(GovernmentOf(t), Step(t, env, call).events[|t.events|]) == GovernmentOf(Step(t, env, call))
  {
  }

  lemma GovernmentNoted(t: Token, env: Env, call: Call)
    requires !(Mints(call) || Moves(call) || Burns(call) || call.Approve?)
    requires Step(t, env, call) != t && |Step(t, env, call).events| == |t.events| + 1
    ensures Noted(GovernmentOf(t), Step(t, env, call).events[|t.events|]) == GovernmentOf(Step(t, env, call))
  {
    if call.AcceptAdmin? {
      var p := t.pendingAdmin.value;
      assert t.admin == p ==> t.minters[t.admin := false][p := true] == t.minters[p := true];
      assert t.admin == p ==> t.authorized[t.admin := false][p := true] == t.authorized[p := true];
    }
  }

  /** The amount of the last approval the log holds for an owner and a spender. */
  function LoggedApproval(events: seq<StarEvent>, from: Address, spender: Address): Option<int> {
    if events == [] then None
    else
      var e := events[|events| - 1];
      if e.action == Approved && e.account == from && e.counterparty == spender then Some(e.amount)
      else LoggedApproval(events[..|events| - 1], from, spender)
  }

  /** The log shows every allowance as it was last approved. */
  lemma {:induction false} ApprovalsLogged(admin: Address, maxSupply: i128, txs: seq<Tx>, from: Address, spender: Address)
    ensures var t := Deploy(admin, maxSupply);
            var grant := GrantAfter(t, txs, from, spender);
            LoggedApproval(After(t, txs).events, from, spender) == if grant.Some? then Some(grant.value.approved) else None
  {
    var t := Deploy(admin, maxSupply);
    if txs == [] {
      assert t.events[..0] == [];
    } else {
      var n := |txs| - 1;
      ApprovalsLogged(admin, maxSupply, txs[..n], from, spender);
      ApprovalStep(After(t, txs[..n]), txs[n].env, txs[n].call, from, spender);
    }
  }

  lemma ApprovalStep(t: Token, env: Env, call: Call, from: Address, spender: Address)
    ensures LoggedApproval(Step(t, env, call).events, from, spender) ==
            if Check(t, env, call).Ok? && Approves(call, from, spender) then Some(call.amount)
            else LoggedApproval(t.events, from, spender)
  {
    OneEvent(t, env, call);
    var t' := Step(t, env, call);
    if t' != t {
      assert t'.events[..|t.events|] == t.events;
    }
  }

  // ---------------------------------------------------------------- what an event tells

  /** Whose event it is: the account concerned, or the admin of that moment. */
  function Concerned(t: Token, call: Call): Address {
    match call
    case SetMinter(minter, _) => minter
    case SetAuthorized(id, _) => id
    case Mint(to, _) => to
    case MintFromMinter(minter, _, _) => minter
    case _ => if Moves(call) || Burns(call) || call.Approve? then call.from else t.admin
  }

  function OtherSide(t: Token, call: Call): Option<Address> {
    match call
    case SetAdmin(next) => Some(next)
    case AcceptAdmin => t.pendingAdmin
    case SetFeeBurnConfig(_, _, recipient) => Some(recipient)
    case BurnFee(_, _) => if t.feeConfig.Some? then Some(t.feeConfig.value.recipient) else None
    case Approve(_, spender, _, _) => Some(spender)
    case _ => if Mints(call) || Moves(call) then Some(call.to) else Some(Concerned(t, call))
  }

  predicate SwitchesOff(call: Call) {
    match call
    case Unpause => true
    case SetMinter(_, on) => !on
    case SetAuthorized(_, on) => !on
    case SetFeeBurnConfig(enabled, _, _) => !enabled
    case _ => false
  }

  function ActionOf(call: Call): Action {
    match call
    case SetAdmin(_) => AdminProposed
    case AcceptAdmin => AdminChanged
    case SetFeeBurnConfig(_, _, _) => FeeConfigured
    case BurnFee(_, _) => FeeBurned
    case Pause => TokenPaused
    case Unpause => TokenUnpaused
    case SetMinter(_, _) => MinterSet
    case SetAuthorized(_, _) => AuthorizedSet
    case Approve(_, _, _, _) => Approved
    case _ => if Mints(call) then Minted else if Moves(call) then Transferred else Burned
  }

  /** The event of an accepted call tells what was done, whom it concerns, who is on the other
      side, the amount or rate, and whether something was switched off. */
  lemma EventTells(t: Token, env: Env, call: Call)
    requires Step(t, env, call) != t
    ensures |Step(t, env, call).events| == |t.events| + 1
    ensures var e := Step(t, env, call).events[|t.events|];
            && e.action == ActionOf(call)
            && e.account == Concerned(t, call)
            && OtherSide(t, call) == Some(e.counterparty)
            && e.flag == !SwitchesOff(call)
            && e.amount == (if call.SetFeeBurnConfig? then call.basisPoints
                            else if Mints(call) || call.Approve? then call.amount else Taken(t, call))
  {
    OneEvent(t, env, call);
    if Mints(call) || Moves(call) || Burns(call) || call.Approve? {
      MoneyEventTells(t, env, call);
    } else {
      QuietEventTells(t, env, call);
    }
  }

  lemma MoneyEventTells(t: Token, env: Env, call: Call)
    requires Mints(call) || Moves(call) || Burns(call) || call.Approve?
    requires Step(t, env, call) != t && |Step(t, env, call).events| == |t.events| + 1
    ensures var e := Step(t, env, call).events[|t.events|];
            && e.action == ActionOf(call)
            && e.account == Concerned(t, call) && OtherSide(t, call) == Some(e.counterparty) && e.flag
            && e.amount == if Mints(call) || call.Approve? then call.amount else Taken(t, call)
  {
  }

  lemma QuietEventTells(t: Token, env: Env, call: Call)
    requires !(Mints(call) || Moves(call) || Burns(call) || call.Approve?)
    requires Step(t, env, call) != t && |Step(t, env, call).events| == |t.events| + 1
    ensures var e := Step(t, env, call).events[|t.events|];
            && e.action == ActionOf(call)
            && e.account == Concerned(t, call) && OtherSide(t, call) == Some(e.counterparty)
            && e.flag == !SwitchesOff(call)
            && e.amount == if call.SetFeeBurnConfig? then call.basisPoints else 0
  {
  }

  /** Events are never taken back, and the first one names the first admin and the cap. */
  lemma {:induction false} LogGrows(admin: Address, maxSupply: i128, txs: seq<Tx>, i: nat)
    requires i <= |txs|
    ensures var t := Deploy(admin, maxSupply);
            && After(t, txs[..i]).events <= After(t, txs).events
            && After(t, txs[..i]).events != []
            && After(t, txs).events[0] == StarEvent(Initialised, admin, admin, maxSupply, true)
  {
    var t, n := Deploy(admin, maxSupply), |txs| - 1;
    if txs != [] {
      LogGrows(admin, maxSupply, txs[..n], if i <= n then i else n);
      OneEvent(After(t, txs[..n]), txs[n].env, txs[n].call);
      if i <= n {
        assert txs[..n][..i] == txs[..i];
      } else {
        assert txs[..i] == txs;
      }
    } else {
      assert txs[..i] == txs;
    }
  }
}
