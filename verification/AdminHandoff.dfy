/** The two-step admin handoff of all four contracts, seen through one abstract machine:
    an admin, a proposed admin and the set of addresses that hold a power. */
module AdminHandoff {
  import opened Host
  import opened PayEra
  import T = StarToken
  import R = RewardEngine
  import P = PaymentEngine
  import M = MerchantRegistry
  import RT = RewardsOnToken

  /** The powers an admin handoff transfers. The registry has no role flags: its only
      power is being the admin. */
  datatype Power = RegistryAdmin | Issuer | Operator | Minter | Authorised

  datatype Office = Office(admin: Address, pending: Option<Address>, holders: iset<Address>)

  datatype Move = Propose(next: Address) | Accept | Switch(who: Address, on: bool) | Idle

  ghost function Moved(o: Office, m: Move): Office {
    match m
    case Propose(next) => o.(pending := Some(next))
    case Accept =>
      if o.pending.None? then o else
      Office(o.pending.value, None,
             (if o.admin != o.pending.value then o.holders - iset{o.admin} else o.holders) + iset{o.pending.value})
    case Switch(who, on) => o.(holders := if on then o.holders + iset{who} else o.holders - iset{who})
    case Idle => o
  }

  /** Who must have authorised a move. */
  predicate Permitted(admin: Address, pending: Option<Address>, env: Env, m: Move) {
    match m
    case Propose(_) => env.Authorises(admin)
    case Accept => pending.Some? && env.Authorises(pending.value)
    case Switch(_, _) => env.Authorises(admin)
    case Idle => true
  }

  ghost function View(w: World, power: Power): Office {
    match power
    case RegistryAdmin => Office(w.registry.admin, w.registry.pendingAdmin, iset{w.registry.admin})
    case Issuer => Office(w.rewards.admin, w.rewards.pendingAdmin, iset a | R.IsIssuer(w.rewards, a))
    case Operator => Office(w.payments.admin, w.payments.pendingAdmin, iset a | P.IsOperator(w.payments, a))
    case Minter => TokenView(w.token, iset a | T.IsMinter(w.token, a))
    case Authorised => TokenView(w.token, iset a | T.IsAuthorized(w.token, a))
  }

  ghost function TokenView(t: T.Token, holders: iset<Address>): Office {
    Office(t.admin, t.pendingAdmin, holders)
  }

  function MinterMoveOf(t: T.Token, env: Env, call: T.Call): Move {
    if !T.Check(t, env, call).Ok? then Idle else
    match call
    case SetAdmin(a) => Propose(a)
    case AcceptAdmin => Accept
    case SetMinter(a, on) => Switch(a, on)
    case _ => Idle
  }

  function AuthorisedMoveOf(t: T.Token, env: Env, call: T.Call): Move {
    if !T.Check(t, env, call).Ok? then Idle else
    match call
    case SetAdmin(a) => Propose(a)
    case AcceptAdmin => Accept
    case SetMinter(a, on) => if on then Switch(a, true) else Idle
    case SetAuthorized(a, on) => Switch(a, on)
    case _ => Idle
  }

  /** What a transaction means for a power: an accepted set_admin proposes, an accepted
      accept_admin accepts, an accepted call of the role setter switches. */
  function MoveOf(w: World, tx: Tx, power: Power): Move {
    match power
    case RegistryAdmin =>
      if !tx.call.OnRegistry? || !M.Check(w.registry, tx.env, tx.call.m).Ok? then Idle else
      (match tx.call.m
       case SetAdmin(a) => Propose(a)
       case AcceptAdmin => Accept
       case _ => Idle)
    case Issuer =>
      if !tx.call.OnRewards? || !R.Check(w.rewards, tx.env, tx.call.r, false).Ok? then Idle else
      (match tx.call.r
       case SetAdmin(a) => Propose(a)
       case AcceptAdmin => Accept
       case SetIssuer(a, on) => Switch(a, on)
       case _ => Idle)
    case Operator =>
      if !tx.call.OnPayments? || !P.Check(w.payments, tx.env, tx.call.p, Asked(w, tx.env, tx.call.p)).Ok? then Idle else
      (match tx.call.p
       case SetAdmin(a) => Propose(a)
       case AcceptAdmin => Accept
       case SetOperator(a, on) => Switch(a, on)
       case _ => Idle)
    case Minter => if tx.call.OnToken? then MinterMoveOf(w.token, tx.env, tx.call.t) else Idle
    case Authorised => if tx.call.OnToken? then AuthorisedMoveOf(w.token, tx.env, tx.call.t) else Idle
  }

  /** Every transaction acts on every power as its move, with the authority that needs. */
  lemma StepIsMove(w: World, tx: Tx, power: Power)
    ensures View(Exec(w, tx), power) == Moved(View(w, power), MoveOf(w, tx, power))
    ensures Permitted(View(w, power).admin, View(w, power).pending, tx.env, MoveOf(w, tx, power))
  {
    match power
    case RegistryAdmin =>
    case Issuer => IssuerMove(w, tx);
    case Operator => OperatorMove(w, tx);
    case Minter =>
      if tx.call.OnToken? {
        MinterMove(w.token, tx.env, tx.call.t);
      } else {
        EnginesKeepRoles(w, tx);
      }
    case Authorised =>
      if tx.call.OnToken? {
        AuthorisedMove(w.token, tx.env, tx.call.t);
      } else {
        EnginesKeepRoles(w, tx);
      }
  }

  lemma IssuerMove(w: World, tx: Tx)
    ensures View(Exec(w, tx), Issuer) == Moved(View(w, Issuer), MoveOf(w, tx, Issuer))
    ensures Permitted(w.rewards.admin, w.rewards.pendingAdmin, tx.env, MoveOf(w, tx, Issuer))
  {
  }

  lemma OperatorMove(w: World, tx: Tx)
    ensures View(Exec(w, tx), Operator) == Moved(View(w, Operator), MoveOf(w, tx, Operator))
    ensures Permitted(w.payments.admin, w.payments.pendingAdmin, tx.env, MoveOf(w, tx, Operator))
  {
  }

  lemma MinterMove(t: T.Token, env: Env, call: T.Call)
    ensures var t' := T.Step(t, env, call);
            TokenView(t', iset a | T.IsMinter(t', a)) ==
            Moved(TokenView(t, iset a | T.IsMinter(t, a)), MinterMoveOf(t, env, call))
    ensures Permitted(t.admin, t.pendingAdmin, env, MinterMoveOf(t, env, call))
  {
  }

  lemma AuthorisedMove(t: T.Token, env: Env, call: T.Call)
    ensures var t' := T.Step(t, env, call);
            TokenView(t', iset a | T.IsAuthorized(t', a)) ==
            Moved(TokenView(t, iset a | T.IsAuthorized(t, a)), AuthorisedMoveOf(t, env, call))
    ensures Permitted(t.admin, t.pendingAdmin, env, AuthorisedMoveOf(t, env, call))
  {
  }

  /** The mints the reward engine makes leave the token's roles alone. */
  lemma EnginesKeepRoles(w: World, tx: Tx)
    requires !tx.call.OnToken?
    ensures var t, t' := w.token, Exec(w, tx).token;
            t' == t.(balances := t'.balances, supply := t'.supply, events := t'.events)
  {
    match tx.call
    case OnRewards(r) => RT.RolesKept(w.Engines(), w.rewAddr, tx.env, r);
    case OnPayments(p) =>
      if p.IssueReward? && p.paymentId in w.payments.payments {
        RT.RolesKept(w.Engines(), w.rewAddr, tx.env.CalledBy(w.payAddr), SpendCall(w, p.paymentId));
      }
    case _ =>
  }

  // ---------------------------------------------------------------- over runs

  /** The office after the first `i` transactions of a run from deployment. */
  ghost function At(c: Config, txs: seq<Tx>, power: Power, i: nat): Office
    requires i <= |txs|
  {
    View(After(Genesis(c), txs[..i]), power)
  }

  function Nth(c: Config, txs: seq<Tx>, power: Power, i: nat): Move
    requires i < |txs|
  {
    MoveOf(After(Genesis(c), txs[..i]), txs[i], power)
  }

  lemma NextOffice(c: Config, txs: seq<Tx>, power: Power, i: nat)
    requires i < |txs|
    ensures At(c, txs, power, i + 1) == Moved(At(c, txs, power, i), Nth(c, txs, power, i))
    ensures Permitted(At(c, txs, power, i).admin, At(c, txs, power, i).pending, txs[i].env, Nth(c, txs, power, i))
  {
    assert txs[..i + 1][..i] == txs[..i];
    StepIsMove(After(Genesis(c), txs[..i]), txs[i], power);
  }

  /** Transaction `j` is the last word on the next admin before transaction `i`: the admin
      of that moment proposed `next` and has neither proposed anyone else nor been replaced
      since. */
  ghost predicate LastProposal(c: Config, txs: seq<Tx>, power: Power, j: nat, i: nat, next: Address)
    requires j < i <= |txs|
  {
    && Nth(c, txs, power, j) == Propose(next)
    && txs[j].env.Authorises(At(c, txs, power, j).admin)
    && (forall k | j < k < i :: !Nth(c, txs, power, k).Propose? && !Nth(c, txs, power, k).Accept?)
    && (forall k | j <= k <= i :: At(c, txs, power, k).admin == At(c, txs, power, j).admin)
  }

  ghost predicate LastProposed(c: Config, txs: seq<Tx>, power: Power, i: nat, next: Address)
    requires i <= |txs|
  {
    exists j | 0 <= j < i :: LastProposal(c, txs, power, j, i, next)
  }

  lemma {:induction false} PendingWasProposed(c: Config, txs: seq<Tx>, power: Power, i: nat)
    requires i <= |txs| && At(c, txs, power, i).pending.Some?
    ensures LastProposed(c, txs, power, i, At(c, txs, power, i).pending.value)
  {
    assert txs[..0] == [];
    if i > 0 {
      NextOffice(c, txs, power, i - 1);
      if Nth(c, txs, power, i - 1).Propose? {
        ProposalMade(c, txs, power, i - 1);
      } else {
        PendingWasProposed(c, txs, power, i - 1);
        ProposalStands(c, txs, power, i - 1, At(c, txs, power, i).pending.value);
      }
    }
  }

  lemma ProposalMade(c: Config, txs: seq<Tx>, power: Power, i: nat)
    requires i < |txs| && Nth(c, txs, power, i).Propose?
    ensures LastProposed(c, txs, power, i + 1, Nth(c, txs, power, i).next)
  {
    NextOffice(c, txs, power, i);
    assert LastProposal(c, txs, power, i, i + 1, Nth(c, txs, power, i).next);
  }

  lemma ProposalStands(c: Config, txs: seq<Tx>, power: Power, i: nat, next: Address)
    requires i < |txs| && LastProposed(c, txs, power, i, next)
    requires !Nth(c, txs, power, i).Propose? && !Nth(c, txs, power, i).Accept?
    ensures LastProposed(c, txs, power, i + 1, next)
  {
    var j :| 0 <= j < i && LastProposal(c, txs, power, j, i, next);
    NextOffice(c, txs, power, i);
    assert LastProposal(c, txs, power, j, i + 1, next);
  }

  /** In all four contracts the admin changes only when the address that the then-current
      admin proposed last accepts, and authorises that itself. */
  lemma AdminChangesByHandoff(c: Config, txs: seq<Tx>, power: Power, i: nat)
    requires i < |txs| && At(c, txs, power, i + 1).admin != At(c, txs, power, i).admin
    ensures Nth(c, txs, power, i) == Accept
    ensures txs[i].env.Authorises(At(c, txs, power, i + 1).admin)
    ensures LastProposed(c, txs, power, i, At(c, txs, power, i + 1).admin)
  {
    NextOffice(c, txs, power, i);
    PendingWasProposed(c, txs, power, i);
  }

  /** What restores a power: the admin switches it on, or the address accepts the office. */
  predicate Restores(pending: Option<Address>, m: Move, a: Address) {
    m == Switch(a, true) || (m == Accept && pending == Some(a))
  }

  /** A rotation to another address takes every power from the outgoing admin and gives it
      to the incoming one; a rotation to oneself takes nothing. */
  lemma RotationMovesPower(c: Config, txs: seq<Tx>, power: Power, i: nat)
    requires i < |txs| && Nth(c, txs, power, i) == Accept
    ensures var before, after := At(c, txs, power, i), At(c, txs, power, i + 1);
            && after.admin in after.holders
            && (if after.admin != before.admin then after.holders == before.holders - iset{before.admin} + iset{after.admin}
                else after.holders == before.holders + iset{after.admin})
  {
    NextOffice(c, txs, power, i);
  }

  /** An outgoing admin stays without the power until a later admin switches it on or it
      accepts the office again. */
  lemma {:induction false} OutgoingStaysRevoked(c: Config, txs: seq<Tx>, power: Power, i: nat, j: nat)
    requires i < j <= |txs| && Nth(c, txs, power, i) == Accept
    requires At(c, txs, power, i + 1).admin != At(c, txs, power, i).admin
    requires forall k | i < k < j :: !Restores(At(c, txs, power, k).pending, Nth(c, txs, power, k), At(c, txs, power, i).admin)
    ensures At(c, txs, power, i).admin !in At(c, txs, power, j).holders
    decreases j
  {
    NextOffice(c, txs, power, j - 1);
    if j > i + 1 {
      OutgoingStaysRevoked(c, txs, power, i, j - 1);
    }
  }

  function FirstAdmin(c: Config, power: Power): Address {
    match power
    case RegistryAdmin => c.registryAdmin
    case Issuer => c.rewardAdmin
    case Operator => c.paymentAdmin
    case Minter => c.tokenAdmin
    case Authorised => c.tokenAdmin
  }

  /** What takes a power away: the admin switches it off, or the address leaves the office. */
  predicate Revokes(admin: Address, pending: Option<Address>, m: Move, a: Address) {
    m == Switch(a, false) || (m == Accept && admin == a && pending != Some(a))
  }

  /** Nobody holds a power by chance. At deployment the first admin holds each, and everybody
      is authorised; whoever holds a power otherwise was given it, whoever lacks it otherwise
      was deprived of it, with the authority this needs. */
  lemma {:induction false} HoldersAccounted(c: Config, txs: seq<Tx>, power: Power, a: Address, i: nat)
    requires i <= |txs|
    ensures a in At(c, txs, power, i).holders ==>
              || power == Authorised || a == FirstAdmin(c, power)
              || exists j | 0 <= j < i :: Restores(At(c, txs, power, j).pending, Nth(c, txs, power, j), a)
    ensures a !in At(c, txs, power, i).holders ==>
              || (power != Authorised && a != FirstAdmin(c, power))
              || exists j | 0 <= j < i :: Revokes(At(c, txs, power, j).admin, At(c, txs, power, j).pending, Nth(c, txs, power, j), a)
  {
    if i == 0 {
      assert txs[..0] == [];
      FirstHolders(c, power, a);
    } else {
      var n := i - 1;
      HoldersAccounted(c, txs, power, a, n);
      NextOffice(c, txs, power, n);
      PowerMoves(At(c, txs, power, n), Nth(c, txs, power, n), a);
    }
  }

  lemma FirstHolders(c: Config, power: Power, a: Address)
    ensures var o := View(Genesis(c), power);
            && o.admin == FirstAdmin(c, power) && o.pending.None?
            && (a in o.holders <==> power == Authorised || a == FirstAdmin(c, power))
  {
  }

  lemma PowerMoves(o: Office, m: Move, a: Address)
    ensures a in Moved(o, m).holders && a !in o.holders ==> Restores(o.pending, m, a)
    ensures a !in Moved(o, m).holders && a in o.holders ==> Revokes(o.admin, o.pending, m, a)
  {
  }
}
