/** The STAR token as a state machine: which calls the contract accepts, what an
    accepted call answers, and the state it leaves. */
module StarToken {
  import opened Host
  import opened Sums

  datatype TokenError =
    | InvalidAmount
    | InsufficientBalance
    | InsufficientAllowance
    | AllowanceExpired
    | SupplyCapExceeded
    | Paused
    | AccountNotAuthorized
    | NoPendingAdmin

  datatype FeeBurnConfig = FeeBurnConfig(enabled: bool, basisPoints: u32, recipient: Address)

  datatype Allowance = Allowance(amount: i128, expiry: u32)

  datatype Action =
    | Initialised | AdminProposed | AdminChanged | FeeConfigured | FeeBurned | TokenPaused
    | TokenUnpaused | MinterSet | AuthorizedSet | Minted | Approved | Transferred | Burned

  datatype StarEvent = StarEvent(
    action: Action, account: Address, counterparty: Address, amount: int, flag: bool)

  datatype Token = Token(
    admin: Address,
    pendingAdmin: Option<Address>,
    paused: bool,
    maxSupply: i128,
    supply: int,
    balances: map<Address, int>,
    allowances: map<(Address, Address), Allowance>,
    minters: map<Address, bool>,
    authorized: map<Address, bool>,
    feeConfig: Option<FeeBurnConfig>,
    events: seq<StarEvent>)

  datatype Call =
    | SetAdmin(newAdmin: Address)
    | AcceptAdmin
    | SetFeeBurnConfig(enabled: bool, basisPoints: u32, recipient: Address)
    | BurnFee(from: Address, amount: i128)
    | Pause
    | Unpause
    | SetMinter(minter: Address, on: bool)
    | SetAuthorized(id: Address, on: bool)
    | Mint(to: Address, amount: i128)
    | MintFromMinter(minter: Address, to: Address, amount: i128)
    | Approve(from: Address, spender: Address, amount: i128, expiry: u32)
    | Transfer(from: Address, to: Address, amount: i128)
    | TransferFrom(spender: Address, from: Address, to: Address, amount: i128)
    | Burn(from: Address, amount: i128)
    | BurnFrom(spender: Address, from: Address, amount: i128)

  /** The state right after the contract is created. */
  function Deploy(admin: Address, maxSupply: i128): Token {
    Token(admin, None, false, maxSupply, 0, map[], map[], map[admin := true], map[admin := true],
          None, [StarEvent(Initialised, admin, admin, maxSupply, true)])
  }

  predicate IsMinter(t: Token, a: Address) { Flag(t.minters, a, false) }

  /** The token keeps a freeze list: an address nobody has ruled on is authorised. */
  predicate IsAuthorized(t: Token, a: Address) { Flag(t.authorized, a, true) }

  function ReadAllowance(t: Token, from: Address, spender: Address, ledger: u32): int {
    if (from, spender) !in t.allowances || t.allowances[(from, spender)].expiry < ledger then 0
    else t.allowances[(from, spender)].amount
  }

  function NotPaused(t: Token): Reply<(), TokenError> { Require(!t.paused, Paused) }

  function Positive(amount: int): Reply<(), TokenError> { Require(0 < amount, InvalidAmount) }

  function Unfrozen(authorized: map<Address, bool>, a: Address): Reply<(), TokenError> {
    Require(Flag(authorized, a, true), AccountNotAuthorized)
  }

  function CanMint(t: Token, amount: int): Reply<(), TokenError> {
    Require(t.supply + amount <= t.maxSupply, SupplyCapExceeded)
  }

  function CanDebit(balances: map<Address, int>, from: Address, amount: int): Reply<(), TokenError> {
    Require(amount <= Get(balances, from), InsufficientBalance)
  }

  function CanSpend(t: Token, env: Env, from: Address, spender: Address, amount: int): Reply<(), TokenError> {
    var _ :- Positive(amount);
    var _ :- Require<TokenError>((from, spender) in t.allowances, InsufficientAllowance);
    var _ :- Require<TokenError>(env.ledger <= t.allowances[(from, spender)].expiry, AllowanceExpired);
    Require(amount <= t.allowances[(from, spender)].amount, InsufficientAllowance)
  }

  function CanTransfer(balances: map<Address, int>, authorized: map<Address, bool>, from: Address, to: Address, amount: int): Reply<(), TokenError> {
    var _ :- Positive(amount);
    var _ :- Unfrozen(authorized, from);
    var _ :- Unfrozen(authorized, to);
    CanDebit(balances, from, amount)
  }

  function CanBurn(balances: map<Address, int>, authorized: map<Address, bool>, from: Address, amount: int): Reply<(), TokenError> {
    var _ :- Positive(amount);
    var _ :- Unfrozen(authorized, from);
    CanDebit(balances, from, amount)
  }

  /** The fee on `amount`, rounded down to whole STAR. */
  function FeeOn(amount: int, basisPoints: int): int {
    amount * basisPoints / 10000
  }

  predicate ChargesFees(t: Token) {
    t.feeConfig.Some? && t.feeConfig.value.enabled && t.feeConfig.value.basisPoints != 0
  }

  function FeeOf(t: Token, amount: int): int {
    if ChargesFees(t) then FeeOn(amount, t.feeConfig.value.basisPoints) else 0
  }

  /** What the contract answers to a call. Calls without a result answer 0. */
  function Check(t: Token, env: Env, call: Call): Reply<int, TokenError> {
    match call
    case SetAdmin(_) =>
      var _ :- NotPaused(t);
      var _ :- RequireAuth<TokenError>(env, t.admin);
      Ok(0)
    case AcceptAdmin =>
      var _ :- NotPaused(t);
      var _ :- Require<TokenError>(t.pendingAdmin.Some?, NoPendingAdmin);
      var _ :- RequireAuth<TokenError>(env, t.pendingAdmin.value);
      Ok(0)
    case SetFeeBurnConfig(_, basisPoints, _) =>
      var _ :- NotPaused(t);
      var _ :- RequireAuth<TokenError>(env, t.admin);
      var _ :- Require<TokenError>(basisPoints <= 10000, InvalidAmount);
      Ok(0)
    case BurnFee(from, amount) =>
      var _ :- NotPaused(t);
      var _ :- Positive(amount);
      var _ :- RequireAuth<TokenError>(env, from);
      if !ChargesFees(t) then Ok(0) else
      var _ :- Require<TokenError>(amount * t.feeConfig.value.basisPoints <= I128_MAX, InvalidAmount);
      if FeeOf(t, amount) == 0 then Ok(0) else
      var _ :- CanBurn(t.balances, t.authorized, from, FeeOf(t, amount));
      Ok(FeeOf(t, amount))
    case Pause =>
      var _ :- RequireAuth<TokenError>(env, t.admin);
      Ok(0)
    case Unpause =>
      var _ :- RequireAuth<TokenError>(env, t.admin);
      Ok(0)
    case SetMinter(_, _) =>
      var _ :- NotPaused(t);
      var _ :- RequireAuth<TokenError>(env, t.admin);
      Ok(0)
    case SetAuthorized(_, _) =>
      var _ :- NotPaused(t);
      var _ :- RequireAuth<TokenError>(env, t.admin);
      Ok(0)
    case Mint(to, amount) =>
      var _ :- NotPaused(t);
      var _ :- Positive(amount);
      var _ :- Unfrozen(t.authorized, to);
      var _ :- RequireAuth<TokenError>(env, t.admin);
      var _ :- CanMint(t, amount);
      Ok(0)
    case MintFromMinter(minter, to, amount) =>
      var _ :- NotPaused(t);
      var _ :- Positive(amount);
      var _ :- Unfrozen(t.authorized, to);
      var _ :- RequireAuth<TokenError>(env, minter);
      var _ :- Require<TokenError>(IsMinter(t, minter), AccountNotAuthorized);
      var _ :- CanMint(t, amount);
      Ok(0)
    case Approve(from, spender, amount, expiry) =>
      var _ :- NotPaused(t);
      var _ :- Require<TokenError>(0 <= amount, InvalidAmount);
      var _ :- RequireAuth<TokenError>(env, from);
      var _ :- Unfrozen(t.authorized, from);
      var _ :- Unfrozen(t.authorized, spender);
      var _ :- Require<TokenError>(0 < amount ==> env.ledger <= expiry, AllowanceExpired);
      Ok(0)
    case Transfer(from, to, amount) =>
      var _ :- NotPaused(t);
      var _ :- RequireAuth<TokenError>(env, from);
      var _ :- CanTransfer(t.balances, t.authorized, from, to, amount);
      Ok(0)
    case TransferFrom(spender, from, to, amount) =>
      var _ :- NotPaused(t);
      var _ :- RequireAuth<TokenError>(env, spender);
      var _ :- CanSpend(t, env, from, spender, amount);
      var _ :- CanTransfer(t.balances, t.authorized, from, to, amount);
      Ok(0)
    case Burn(from, amount) =>
      var _ :- NotPaused(t);
      var _ :- RequireAuth<TokenError>(env, from);
      var _ :- CanBurn(t.balances, t.authorized, from, amount);
      Ok(0)
    case BurnFrom(spender, from, amount) =>
      var _ :- NotPaused(t);
      var _ :- RequireAuth<TokenError>(env, spender);
      var _ :- CanSpend(t, env, from, spender, amount);
      var _ :- CanBurn(t.balances, t.authorized, from, amount);
      Ok(0)
  }

  function Credit(balances: map<Address, int>, a: Address, amount: int): map<Address, int> {
    balances[a := Get(balances, a) + amount]
  }

  function Spend(t: Token, from: Address, spender: Address, amount: int): map<(Address, Address), Allowance>
    requires (from, spender) in t.allowances
    requires 0 <= amount <= t.allowances[(from, spender)].amount
  {
    var a := t.allowances[(from, spender)];
    t.allowances[(from, spender) := Allowance(a.amount - amount, a.expiry)]
  }

  function Log(t: Token, action: Action, account: Address, counterparty: Address, amount: int, flag: bool): seq<StarEvent> {
    t.events + [StarEvent(action, account, counterparty, amount, flag)]
  }

  /** The state an accepted call leaves behind. */
  function Apply(t: Token, env: Env, call: Call): Token
    requires Check(t, env, call).Ok?
  {
    match call
    case SetAdmin(newAdmin) =>
      t.(pendingAdmin := Some(newAdmin), events := Log(t, AdminProposed, t.admin, newAdmin, 0, true))
    case AcceptAdmin =>
      var pending := t.pendingAdmin.value;
      t.(admin := pending,
         pendingAdmin := None,
         minters := (if t.admin != pending then t.minters[t.admin := false] else t.minters)[pending := true],
         authorized := (if t.admin != pending then t.authorized[t.admin := false] else t.authorized)[pending := true],
         events := Log(t, AdminChanged, t.admin, pending, 0, true))
    case SetFeeBurnConfig(enabled, basisPoints, recipient) =>
      t.(feeConfig := Some(FeeBurnConfig(enabled, basisPoints, recipient)),
         events := Log(t, FeeConfigured, t.admin, recipient, basisPoints, enabled))
    case BurnFee(from, amount) =>
      var fee := FeeOf(t, amount);
      if fee == 0 then t else
      t.(balances := Credit(t.balances, from, -fee), supply := t.supply - fee,
         events := Log(t, FeeBurned, from, t.feeConfig.value.recipient, fee, true))
    case Pause => t.(paused := true, events := Log(t, TokenPaused, t.admin, t.admin, 0, true))
    case Unpause => t.(paused := false, events := Log(t, TokenUnpaused, t.admin, t.admin, 0, false))
    case SetMinter(minter, on) =>
      t.(minters := t.minters[minter := on],
         authorized := if on then t.authorized[minter := true] else t.authorized,
         events := Log(t, MinterSet, minter, minter, 0, on))
    case SetAuthorized(id, on) =>
      t.(authorized := t.authorized[id := on], events := Log(t, AuthorizedSet, id, id, 0, on))
    case Mint(to, amount) =>
      t.(balances := Credit(t.balances, to, amount), supply := t.supply + amount,
         events := Log(t, Minted, to, to, amount, true))
    case MintFromMinter(minter, to, amount) =>
      t.(balances := Credit(t.balances, to, amount), supply := t.supply + amount,
         events := Log(t, Minted, minter, to, amount, true))
    case Approve(from, spender, amount, expiry) =>
      t.(allowances := t.allowances[(from, spender) := Allowance(amount, expiry)],
         events := Log(t, Approved, from, spender, amount, true))
    case Transfer(from, to, amount) =>
      t.(balances := Credit(Credit(t.balances, from, -amount), to, amount),
         events := Log(t, Transferred, from, to, amount, true))
    case TransferFrom(spender, from, to, amount) =>
      t.(allowances := Spend(t, from, spender, amount),
         balances := Credit(Credit(t.balances, from, -amount), to, amount),
         events := Log(t, Transferred, from, to, amount, true))
    case Burn(from, amount) =>
      t.(balances := Credit(t.balances, from, -amount), supply := t.supply - amount,
         events := Log(t, Burned, from, from, amount, true))
    case BurnFrom(spender, from, amount) =>
      t.(allowances := Spend(t, from, spender, amount),
         balances := Credit(t.balances, from, -amount), supply := t.supply - amount,
         events := Log(t, Burned, from, from, amount, true))
  }

  /** One call as the host runs it: a call that is not accepted changes nothing. */
  function Step(t: Token, env: Env, call: Call): Token {
    if Check(t, env, call).Ok? then Apply(t, env, call) else t
  }

  ghost predicate Conserved(balances: map<Address, int>, supply: int, maxSupply: i128) {
    && (forall a | a in balances :: 0 <= balances[a])
    && Total(balances) == supply
    && 0 <= supply <= maxSupply
  }

  /** Money is conserved and stays within its bounds, and nobody is allowed a negative amount. */
  ghost predicate Sound(t: Token) {
    && Conserved(t.balances, t.supply, t.maxSupply)
    && (forall k | k in t.allowances :: 0 <= t.allowances[k].amount)
    && (t.feeConfig.Some? ==> t.feeConfig.value.basisPoints <= 10000)
  }

  /** No account holds more than the supply, which is below the cap, and two different
      accounts together do not either. */
  lemma BalancesWithinSupply(b: map<Address, int>, supply: int, maxSupply: i128, from: Address, to: Address)
    requires Conserved(b, supply, maxSupply)
    ensures 0 <= Get(b, from) <= supply <= maxSupply <= I128_MAX
    ensures from != to ==> Get(b, from) + Get(b, to) <= supply
  {
    TotalBounds(b, from);
    TotalBounds(b, to);
    if from != to && from in b {
      TotalRemove(b, from);
      TotalBounds(b - {from}, to);
    }
  }

  lemma CreditTotal(b: map<Address, int>, a: Address, amount: int)
    ensures Total(Credit(b, a, amount)) == Total(b) + amount
  {
    TotalPut(b, a, Get(b, a) + amount);
  }

  lemma CreditConserved(b: map<Address, int>, supply: int, maxSupply: i128, to: Address, amount: int)
    requires Conserved(b, supply, maxSupply) && 0 <= amount && supply + amount <= maxSupply
    ensures Conserved(Credit(b, to, amount), supply + amount, maxSupply)
  {
    CreditTotal(b, to, amount);
  }

  lemma DebitConserved(b: map<Address, int>, supply: int, maxSupply: i128, from: Address, amount: int)
    requires Conserved(b, supply, maxSupply) && 0 <= amount <= Get(b, from)
    ensures Conserved(Credit(b, from, -amount), supply - amount, maxSupply)
  {
    CreditTotal(b, from, -amount);
    BalancesWithinSupply(b, supply, maxSupply, from, from);
  }

  lemma MoveConserved(b: map<Address, int>, supply: int, maxSupply: i128, from: Address, to: Address, amount: int)
    requires Conserved(b, supply, maxSupply) && 0 <= amount <= Get(b, from)
    ensures Conserved(Credit(Credit(b, from, -amount), to, amount), supply, maxSupply)
  {
    DebitConserved(b, supply, maxSupply, from, amount);
    CreditConserved(Credit(b, from, -amount), supply - amount, maxSupply, to, amount);
  }

  predicate Mints(call: Call) { call.Mint? || call.MintFromMinter? }

  predicate Moves(call: Call) { call.Transfer? || call.TransferFrom? }

  predicate Burns(call: Call) { call.Burn? || call.BurnFrom? || call.BurnFee? }

  /** Every call keeps the supply equal to the sum of the balances, keeps balances and
      allowances non-negative and the supply under its cap. */
  lemma StepSound(t: Token, env: Env, call: Call)
    requires Sound(t)
    ensures Sound(Step(t, env, call))
  {
    if Mints(call) {
      MintSound(t, env, call);
    } else if Moves(call) {
      MoveSound(t, env, call);
    } else if Burns(call) {
      BurnSound(t, env, call);
    } else {
      QuietSound(t, env, call);
    }
  }

  lemma MintSound(t: Token, env: Env, call: Call)
    requires Sound(t) && Mints(call)
    ensures Sound(Step(t, env, call))
  {
    if Check(t, env, call).Ok? {
      CreditConserved(t.balances, t.supply, t.maxSupply, call.to, call.amount);
    }
  }

  lemma MoveSound(t: Token, env: Env, call: Call)
    requires Sound(t) && Moves(call)
    ensures Sound(Step(t, env, call))
  {
    if call.Transfer? {
      TransferSound(t, env, call.from, call.to, call.amount);
    } else {
      TransferFromSound(t, env, call.spender, call.from, call.to, call.amount);
    }
  }

  lemma TransferSound(t: Token, env: Env, from: Address, to: Address, amount: i128)
    requires Sound(t)
    ensures Sound(Step(t, env, Transfer(from, to, amount)))
  {
    if Check(t, env, Transfer(from, to, amount)).Ok? {
      MoveConserved(t.balances, t.supply, t.maxSupply, from, to, amount);
    }
  }

  lemma TransferFromSound(t: Token, env: Env, spender: Address, from: Address, to: Address, amount: i128)
    requires Sound(t)
    ensures Sound(Step(t, env, TransferFrom(spender, from, to, amount)))
  {
    if Check(t, env, TransferFrom(spender, from, to, amount)).Ok? {
      MoveConserved(t.balances, t.supply, t.maxSupply, from, to, amount);
    }
  }

  lemma BurnSound(t: Token, env: Env, call: Call)
    requires Sound(t) && Burns(call)
    ensures Sound(Step(t, env, call))
  {
    if Check(t, env, call).Ok? {
      if !call.BurnFee? {
        DebitConserved(t.balances, t.supply, t.maxSupply, call.from, call.amount);
      } else if FeeOf(t, call.amount) != 0 {
        FeeWithin(t, call.amount);
        DebitConserved(t.balances, t.supply, t.maxSupply, call.from, FeeOf(t, call.amount));
      }
    }
  }

  lemma QuietSound(t: Token, env: Env, call: Call)
    requires Sound(t) && !Mints(call) && !Moves(call) && !Burns(call)
    ensures Sound(Step(t, env, call))
  {
  }

  /** A fee is never negative and never more than the amount it is charged on. */
  lemma FeeWithin(t: Token, amount: int)
    requires Sound(t) && 0 < amount
    ensures 0 <= FeeOf(t, amount) <= amount
  {
    if ChargesFees(t) {
      FeeBounds(amount, t.feeConfig.value.basisPoints);
    }
  }

  lemma FeeBounds(amount: int, basisPoints: int)
    requires 0 <= amount && 0 <= basisPoints <= 10000
    ensures 0 <= FeeOn(amount, basisPoints) <= amount
  {
    assert amount * basisPoints <= amount * 10000;
  }

  /** Charging two amounts apart costs at most one STAR less than charging their sum. */
  lemma FeeSplit(a: int, b: int, basisPoints: int)
    ensures FeeOn(a, basisPoints) + FeeOn(b, basisPoints) <= FeeOn(a + b, basisPoints)
    ensures FeeOn(a + b, basisPoints) <= FeeOn(a, basisPoints) + FeeOn(b, basisPoints) + 1
  {
    var x, y := a * basisPoints, b * basisPoints;
    assert (a + b) * basisPoints == x + y;
    assert x / 10000 + y / 10000 <= (x + y) / 10000 <= x / 10000 + y / 10000 + 1;
  }
}
