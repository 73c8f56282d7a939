/** The STAR token contract: one field per storage key, entry points that read,
    check and overwrite them step by step, and the host's rollback around a call. */
module StarTokenContract {
  import opened Host
  import opened Sums
  import opened StarToken

  class Contract {
    var admin: Address
    var pendingAdmin: Option<Address>
    var paused: bool
    const maxSupply: i128
    var totalSupply: i128
    var balances: map<Address, i128>
    var allowances: map<(Address, Address), Allowance>
    var minters: map<Address, bool>
    var authorized: map<Address, bool>
    var feeConfig: Option<FeeBurnConfig>
    var events: seq<StarEvent>

    ghost function State(): Token
      reads this
    {
      Token(admin, pendingAdmin, paused, maxSupply, totalSupply, balances, allowances,
            minters, authorized, feeConfig, events)
    }

    ghost predicate Valid()
      reads this
    {
      Sound(State())
    }

    /** A deployment with a cap that is not positive aborts, so there is no such contract. */
    constructor (admin: Address, maxSupply: i128)
      requires 0 < maxSupply
      ensures Valid() && State() == Deploy(admin, maxSupply)
    {
      this.admin := admin;
      this.pendingAdmin := None;
      this.paused := false;
      this.maxSupply := maxSupply;
      this.totalSupply := 0;
      this.balances := map[];
      this.allowances := map[];
      this.minters := map[admin := true];
      this.authorized := map[admin := true];
      this.feeConfig := None;
      this.events := [StarEvent(Initialised, admin, admin, maxSupply, true)];
    }

    /** A call as the host runs it: when the entry point fails, everything it has
        written so far is put back. */
    method Invoke(env: Env, call: Call) returns (r: Reply<int, TokenError>)
      requires Valid()
      modifies this
      ensures r == Check(old(State()), env, call)
      ensures Valid() && State() == Step(old(State()), env, call)
    {
      StepSound(State(), env, call);
      var admin0, pending0, paused0, supply0 := admin, pendingAdmin, paused, totalSupply;
      var balances0, allowances0, minters0 := balances, allowances, minters;
      var authorized0, feeConfig0, events0 := authorized, feeConfig, events;
      r := Enter(env, call);
      if !r.Ok? {
        admin, pendingAdmin, paused, totalSupply := admin0, pending0, paused0, supply0;
        balances, allowances, minters := balances0, allowances0, minters0;
        authorized, feeConfig, events := authorized0, feeConfig0, events0;
      }
    }

    method Enter(env: Env, call: Call) returns (r: Reply<int, TokenError>)
      requires Valid()
      modifies this
      ensures r == Check(old(State()), env, call)
      ensures r.Ok? ==> State() == Apply(old(State()), env, call)
    {
      match call
      case SetAdmin(newAdmin) => r := SetAdmin(env, newAdmin);
      case AcceptAdmin => r := AcceptAdmin(env);
      case SetFeeBurnConfig(enabled, basisPoints, recipient) => r := SetFeeBurnConfig(env, enabled, basisPoints, recipient);
      case BurnFee(from, amount) => r := BurnFee(env, from, amount);
      case Pause => r := Pause(env);
      case Unpause => r := Unpause(env);
      case SetMinter(minter, on) => r := SetMinter(env, minter, on);
      case SetAuthorized(id, on) => r := SetAuthorized(env, id, on);
      case Mint(to, amount) => r := Mint(env, to, amount);
      case MintFromMinter(minter, to, amount) => r := MintFromMinter(env, minter, to, amount);
      case Approve(from, spender, amount, expiry) => r := Approve(env, from, spender, amount, expiry);
      case Transfer(from, to, amount) => r := Transfer(env, from, to, amount);
      case TransferFrom(spender, from, to, amount) => r := TransferFrom(env, spender, from, to, amount);
      case Burn(from, amount) => r := Burn(env, from, amount);
      case BurnFrom(spender, from, amount) => r := BurnFrom(env, spender, from, amount);
    }

    method SetAdmin(env: Env, newAdmin: Address) returns (r: Reply<int, TokenError>)
      modifies this
      ensures r == Check(old(State()), env, Call.SetAdmin(newAdmin))
      ensures r.Ok? ==> State() == Apply(old(State()), env, Call.SetAdmin(newAdmin))
    {
      var _ :- RequireNotPaused();
      var _ :- RequireAuth(env, admin);
      pendingAdmin := Some(newAdmin);
      Publish(AdminProposed, admin, newAdmin, 0, true);
      return Ok(0);
    }

    method AcceptAdmin(env: Env) returns (r: Reply<int, TokenError>)
      modifies this
      ensures r == Check(old(State()), env, Call.AcceptAdmin)
      ensures r.Ok? ==> State() == Apply(old(State()), env, Call.AcceptAdmin)
    {
      var _ :- RequireNotPaused();
      if pendingAdmin.None? {
        return Err(NoPendingAdmin);
      }
      var pending := pendingAdmin.value;
      var _ :- RequireAuth(env, pending);
      var oldAdmin := admin;
      if oldAdmin != pending {
        minters := minters[oldAdmin := false];
        authorized := authorized[oldAdmin := false];
      }
      admin := pending;
      pendingAdmin := None;
      authorized := authorized[pending := true];
      minters := minters[pending := true];
      Publish(AdminChanged, oldAdmin, pending, 0, true);
      return Ok(0);
    }

    method SetFeeBurnConfig(env: Env, enabled: bool, basisPoints: u32, recipient: Address)
      returns (r: Reply<int, TokenError>)
      modifies this
      ensures r == Check(old(State()), env, Call.SetFeeBurnConfig(enabled, basisPoints, recipient))
      ensures r.Ok? ==> State() == Apply(old(State()), env, Call.SetFeeBurnConfig(enabled, basisPoints, recipient))
    {
      var _ :- RequireNotPaused();
      var _ :- RequireAuth(env, admin);
      if 10000 < basisPoints {
        return Err(InvalidAmount);
      }
      feeConfig := Some(FeeBurnConfig(enabled, basisPoints, recipient));
      Publish(FeeConfigured, admin, recipient, basisPoints, enabled);
      return Ok(0);
    }

    method BurnFee(env: Env, from: Address, amount: i128) returns (r: Reply<int, TokenError>)
      requires Valid()
      modifies this
      ensures r == Check(old(State()), env, Call.BurnFee(from, amount))
      ensures r.Ok? ==> State() == Apply(old(State()), env, Call.BurnFee(from, amount))
    {
      var _ :- RequireNotPaused();
      var _ :- RequirePositive(amount);
      var _ :- RequireAuth(env, from);
      if feeConfig.None? || !feeConfig.value.enabled || feeConfig.value.basisPoints == 0 {
        return Ok(0);
      }
      assert 0 <= amount * feeConfig.value.basisPoints;
      var product := CheckedMul(amount, feeConfig.value.basisPoints);
      if product.None? {
        return Err(InvalidAmount);
      }
      var fee: i128 := product.value / 10000;
      if fee == 0 {
        return Ok(0);
      }
      var _ :- BurnInternal(from, fee);
      Publish(FeeBurned, from, feeConfig.value.recipient, fee, true);
      return Ok(fee);
    }

    method Pause(env: Env) returns (r: Reply<int, TokenError>)
      modifies this
      ensures r == Check(old(State()), env, Call.Pause)
      ensures r.Ok? ==> State() == Apply(old(State()), env, Call.Pause)
    {
      var _ :- RequireAuth(env, admin);
      paused := true;
      Publish(TokenPaused, admin, admin, 0, true);
      return Ok(0);
    }

    method Unpause(env: Env) returns (r: Reply<int, TokenError>)
      modifies this
      ensures r == Check(old(State()), env, Call.Unpause)
      ensures r.Ok? ==> State() == Apply(old(State()), env, Call.Unpause)
    {
      var _ :- RequireAuth(env, admin);
      paused := false;
      Publish(TokenUnpaused, admin, admin, 0, false);
      return Ok(0);
    }

    method SetMinter(env: Env, minter: Address, on: bool) returns (r: Reply<int, TokenError>)
      modifies this
      ensures r == Check(old(State()), env, Call.SetMinter(minter, on))
      ensures r.Ok? ==> State() == Apply(old(State()), env, Call.SetMinter(minter, on))
    {
      var _ :- RequireNotPaused();
      var _ :- RequireAuth(env, admin);
      minters := minters[minter := on];
      if on {
        authorized := authorized[minter := true];
      }
      Publish(MinterSet, minter, minter, 0, on);
      return Ok(0);
    }

    method SetAuthorized(env: Env, id: Address, on: bool) returns (r: Reply<int, TokenError>)
      modifies this
      ensures r == Check(old(State()), env, Call.SetAuthorized(id, on))
      ensures r.Ok? ==> State() == Apply(old(State()), env, Call.SetAuthorized(id, on))
    {
      var _ :- RequireNotPaused();
      var _ :- RequireAuth(env, admin);
      authorized := authorized[id := on];
      Publish(AuthorizedSet, id, id, 0, on);
      return Ok(0);
    }

    method Mint(env: Env, to: Address, amount: i128) returns (r: Reply<int, TokenError>)
      requires Valid()
      modifies this
      ensures r == Check(old(State()), env, Call.Mint(to, amount))
      ensures r.Ok? ==> State() == Apply(old(State()), env, Call.Mint(to, amount))
    {
      var _ :- RequireNotPaused();
      var _ :- RequirePositive(amount);
      var _ :- RequireAuthorized(to);
      var _ :- RequireAuth(env, admin);
      var _ :- MintInternal(to, amount);
      Publish(Minted, to, to, amount, true);
      return Ok(0);
    }

    method MintFromMinter(env: Env, minter: Address, to: Address, amount: i128) returns (r: Reply<int, TokenError>)
      requires Valid()
      modifies this
      ensures r == Check(old(State()), env, Call.MintFromMinter(minter, to, amount))
      ensures r.Ok? ==> State() == Apply(old(State()), env, Call.MintFromMinter(minter, to, amount))
    {
      var _ :- RequireNotPaused();
      var _ :- RequirePositive(amount);
      var _ :- RequireAuthorized(to);
      var _ :- RequireAuth(env, minter);
      if !Flag(minters, minter, false) {
        return Err(AccountNotAuthorized);
      }
      var _ :- MintInternal(to, amount);
      Publish(Minted, minter, to, amount, true);
      return Ok(0);
    }

    method Approve(env: Env, from: Address, spender: Address, amount: i128, expiry: u32)
      returns (r: Reply<int, TokenError>)
      modifies this
      ensures r == Check(old(State()), env, Call.Approve(from, spender, amount, expiry))
      ensures r.Ok? ==> State() == Apply(old(State()), env, Call.Approve(from, spender, amount, expiry))
      ensures r.Ok? ==> env.Authorises(from) && allowances == old(allowances)[(from, spender) := Allowance(amount, expiry)]
    {
      var _ :- RequireNotPaused();
      if amount < 0 {
        return Err(InvalidAmount);
      }
      var _ :- RequireAuth(env, from);
      var _ :- RequireAuthorized(from);
      var _ :- RequireAuthorized(spender);
      if 0 < amount && expiry < env.ledger {
        return Err(AllowanceExpired);
      }
      allowances := allowances[(from, spender) := Allowance(amount, expiry)];
      Publish(Approved, from, spender, amount, true);
      return Ok(0);
    }

    method Transfer(env: Env, from: Address, to: Address, amount: i128) returns (r: Reply<int, TokenError>)
      requires Valid()
      modifies this
      ensures r == Check(old(State()), env, Call.Transfer(from, to, amount))
      ensures r.Ok? ==> State() == Apply(old(State()), env, Call.Transfer(from, to, amount))
    {
      var _ :- RequireNotPaused();
      var _ :- RequireAuth(env, from);
      var _ :- TransferInternal(from, to, amount);
      Publish(Transferred, from, to, amount, true);
      return Ok(0);
    }

    /** The allowance is spent before the freeze list and the balance are looked at. */
    method TransferFrom(env: Env, spender: Address, from: Address, to: Address, amount: i128)
      returns (r: Reply<int, TokenError>)
      requires Valid()
      modifies this
      ensures r == Check(old(State()), env, Call.TransferFrom(spender, from, to, amount))
      ensures r.Ok? ==> State() == Apply(old(State()), env, Call.TransferFrom(spender, from, to, amount))
    {
      var _ :- RequireNotPaused();
      var _ :- RequireAuth(env, spender);
      var _ :- SpendAllowance(env, from, spender, amount);
      var _ :- TransferInternal(from, to, amount);
      Publish(Transferred, from, to, amount, true);
      return Ok(0);
    }

    method Burn(env: Env, from: Address, amount: i128) returns (r: Reply<int, TokenError>)
      requires Valid()
      modifies this
      ensures r == Check(old(State()), env, Call.Burn(from, amount))
      ensures r.Ok? ==> State() == Apply(old(State()), env, Call.Burn(from, amount))
    {
      var _ :- RequireNotPaused();
      var _ :- RequireAuth(env, from);
      var _ :- BurnInternal(from, amount);
      Publish(Burned, from, from, amount, true);
      return Ok(0);
    }

    method BurnFrom(env: Env, spender: Address, from: Address, amount: i128) returns (r: Reply<int, TokenError>)
      requires Valid()
      modifies this
      ensures r == Check(old(State()), env, Call.BurnFrom(spender, from, amount))
      ensures r.Ok? ==> State() == Apply(old(State()), env, Call.BurnFrom(spender, from, amount))
    {
      var _ :- RequireNotPaused();
      var _ :- RequireAuth(env, spender);
      var _ :- SpendAllowance(env, from, spender, amount);
      var _ :- BurnInternal(from, amount);
      Publish(Burned, from, from, amount, true);
      return Ok(0);
    }

    function RequireNotPaused(): (r: Reply<(), TokenError>)
      reads this
    {
      Require(!paused, Paused)
    }

    function RequireAuthorized(id: Address): (r: Reply<(), TokenError>)
      reads this
    {
      Require(Flag(authorized, id, true), AccountNotAuthorized)
    }

    function RequirePositive(amount: i128): (r: Reply<(), TokenError>) {
      Require(0 < amount, InvalidAmount)
    }

    method Publish(action: Action, account: Address, counterparty: Address, amount: int, flag: bool)
      modifies this`events
      ensures events == old(events) + [StarEvent(action, account, counterparty, amount, flag)]
    {
      events := events + [StarEvent(action, account, counterparty, amount, flag)];
    }

    function ReadBalance(id: Address): i128
      reads this
    {
      if id in balances then balances[id] else 0
    }

    /** Fails exactly when the new balance would not fit in 128 bits. */
    method AddBalance(id: Address, amount: i128) returns (r: Reply<(), TokenError>)
      modifies this`balances
      ensures r == if Checked(Get(old(balances), id) + amount).Some? then Ok(()) else Err(InvalidAmount)
      ensures balances == if r.Ok? then Credit(old(balances), id, amount) else old(balances)
    {
      var next := CheckedAdd(ReadBalance(id), amount);
      if next.None? {
        return Err(InvalidAmount);
      }
      balances := balances[id := next.value];
      return Ok(());
    }

    /** Fails exactly when the balance is too small or, for a negative amount, the new one
        would not fit in 128 bits. */
    method SubBalance(id: Address, amount: i128) returns (r: Reply<(), TokenError>)
      modifies this`balances
      ensures r == if amount <= Get(old(balances), id) && Checked(Get(old(balances), id) - amount).Some? then Ok(())
                   else Err(InsufficientBalance)
      ensures balances == if r.Ok? then old(balances)[id := Get(old(balances), id) - amount] else old(balances)
    {
      var current := ReadBalance(id);
      if current < amount {
        return Err(InsufficientBalance);
      }
      var next := CheckedSub(current, amount);
      if next.None? {
        return Err(InsufficientBalance);
      }
      balances := balances[id := next.value];
      return Ok(());
    }

    /** Once the cap check has passed, the credit cannot fail. */
    method MintInternal(to: Address, amount: i128) returns (r: Reply<(), TokenError>)
      requires Conserved(balances, totalSupply, maxSupply) && 0 < amount
      modifies this`balances, this`totalSupply
      ensures r == CanMint(old(State()), amount)
      ensures r.Ok? ==> balances == Credit(old(balances), to, amount) && totalSupply == old(totalSupply) + amount
    {
      var next := CheckedAdd(totalSupply, amount);
      if next.None? {
        return Err(SupplyCapExceeded);
      }
      if maxSupply < next.value {
        return Err(SupplyCapExceeded);
      }
      BalancesWithinSupply(balances, totalSupply, maxSupply, to, to);
      var credited := AddBalance(to, amount);
      assert credited.Ok?;
      totalSupply := next.value;
      return Ok(());
    }

    /** Once the debit has succeeded, the credit cannot overflow. */
    method TransferInternal(from: Address, to: Address, amount: i128) returns (r: Reply<(), TokenError>)
      requires Conserved(balances, totalSupply, maxSupply)
      modifies this`balances
      ensures r == CanTransfer(old(balances), authorized, from, to, amount)
      ensures r.Ok? ==> balances == Credit(Credit(old(balances), from, -amount), to, amount)
    {
      var _ :- RequirePositive(amount);
      var _ :- RequireAuthorized(from);
      var _ :- RequireAuthorized(to);
      BalancesWithinSupply(balances, totalSupply, maxSupply, from, to);
      var _ :- SubBalance(from, amount);
      var credited := AddBalance(to, amount);
      assert credited.Ok?;
      return Ok(());
    }

    /** Once the debit has succeeded, the supply cannot go below zero. */
    method BurnInternal(from: Address, amount: i128) returns (r: Reply<(), TokenError>)
      requires Conserved(balances, totalSupply, maxSupply)
      modifies this`balances, this`totalSupply
      ensures r == CanBurn(old(balances), authorized, from, amount)
      ensures r.Ok? ==> balances == Credit(old(balances), from, -amount) && totalSupply == old(totalSupply) - amount
    {
      var _ :- RequirePositive(amount);
      var _ :- RequireAuthorized(from);
      BalancesWithinSupply(balances, totalSupply, maxSupply, from, from);
      var _ :- SubBalance(from, amount);
      var next := CheckedSub(totalSupply, amount);
      if next.None? {
        return Err(InvalidAmount);
      }
      totalSupply := next.value;
      return Ok(());
    }

    method SpendAllowance(env: Env, from: Address, spender: Address, amount: i128) returns (r: Reply<(), TokenError>)
      requires Valid()
      modifies this`allowances
      ensures r == CanSpend(old(State()), env, from, spender, amount)
      ensures r.Ok? ==> allowances == Spend(old(State()), from, spender, amount)
    {
      var _ :- RequirePositive(amount);
      if (from, spender) !in allowances {
        return Err(InsufficientAllowance);
      }
      var allowance := allowances[(from, spender)];
      if allowance.expiry < env.ledger {
        return Err(AllowanceExpired);
      }
      if allowance.amount < amount {
        return Err(InsufficientAllowance);
      }
      var next := CheckedSub(allowance.amount, amount);
      if next.None? {
        return Err(InsufficientAllowance);
      }
      allowances := allowances[(from, spender) := Allowance(next.value, allowance.expiry)];
      return Ok(());
    }
  }
}
