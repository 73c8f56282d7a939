/** The merchant registry as a state machine. */
module MerchantRegistry {
  import opened Host

  datatype RegistryError =
    | Paused
    | MerchantAlreadyExists
    | MerchantNotFound
    | InvalidStatus
    | NoPendingAdmin

  datatype Status = Pending | Approved | Suspended | Rejected

  datatype Merchant = Merchant(
    merchantId: Bytes32, owner: Address, upiIdHash: Bytes32, metadataHash: Bytes32,
    status: Status, createdLedger: u32, updatedLedger: u32)

  datatype Registry = Registry(
    admin: Address, pendingAdmin: Option<Address>, paused: bool, merchants: map<Bytes32, Merchant>)

  datatype Call =
    | SetAdmin(newAdmin: Address)
    | AcceptAdmin
    | Pause
    | Unpause
    | Register(merchantId: Bytes32, owner: Address, upiIdHash: Bytes32, metadataHash: Bytes32)
    | Approve(merchantId: Bytes32)
    | Suspend(merchantId: Bytes32)
    | Reject(merchantId: Bytes32)
    | UpdateMetadata(merchantId: Bytes32, metadataHash: Bytes32)
    | TransferOwner(merchantId: Bytes32, newOwner: Address)

  function Deploy(admin: Address): Registry {
    Registry(admin, None, false, map[])
  }

  function NotPaused(s: Registry): Reply<(), RegistryError> { Require(!s.paused, Paused) }

  function Find(s: Registry, id: Bytes32): Reply<Merchant, RegistryError> {
    if id in s.merchants then Ok(s.merchants[id]) else Err(MerchantNotFound)
  }

  /** The statuses from which the admin may move a merchant with `call`. */
  predicate MayDecide(call: Call, status: Status) {
    match call
    case Approve(_) => status != Rejected
    case Suspend(_) => status == Approved
    case Reject(_) => status == Pending
    case _ => false
  }

  predicate Decides(call: Call) { call.Approve? || call.Suspend? || call.Reject? }

  function Decision(call: Call): Status
    requires Decides(call)
  {
    match call
    case Approve(_) => Approved
    case Suspend(_) => Suspended
    case Reject(_) => Rejected
  }

  function Check(s: Registry, env: Env, call: Call): Reply<(), RegistryError> {
    match call
    case SetAdmin(_) =>
      var _ :- NotPaused(s);
      RequireAuth(env, s.admin)
    case AcceptAdmin =>
      var _ :- NotPaused(s);
      var _ :- Require<RegistryError>(s.pendingAdmin.Some?, NoPendingAdmin);
      RequireAuth(env, s.pendingAdmin.value)
    case Pause => RequireAuth(env, s.admin)
    case Unpause => RequireAuth(env, s.admin)
    case Register(id, _, _, _) =>
      var _ :- NotPaused(s);
      var _ :- RequireAuth<RegistryError>(env, s.admin);
      Require(id !in s.merchants, MerchantAlreadyExists)
    case UpdateMetadata(id, _) =>
      var _ :- NotPaused(s);
      var m :- Find(s, id);
      RequireAuth(env, m.owner)
    case TransferOwner(id, _) =>
      var _ :- NotPaused(s);
      var m :- Find(s, id);
      RequireAuth(env, m.owner)
    case _ =>
      var _ :- NotPaused(s);
      var _ :- RequireAuth<RegistryError>(env, s.admin);
      var m :- Find(s, call.merchantId);
      Require(MayDecide(call, m.status), InvalidStatus)
  }

  function Apply(s: Registry, env: Env, call: Call): Registry
    requires Check(s, env, call).Ok?
  {
    match call
    case SetAdmin(newAdmin) => s.(pendingAdmin := Some(newAdmin))
    case AcceptAdmin => s.(admin := s.pendingAdmin.value, pendingAdmin := None)
    case Pause => s.(paused := true)
    case Unpause => s.(paused := false)
    case Register(id, owner, upi, metadata) =>
      s.(merchants := s.merchants[id := Merchant(id, owner, upi, metadata, Pending, env.ledger, env.ledger)])
    case UpdateMetadata(id, metadata) =>
      s.(merchants := s.merchants[id := s.merchants[id].(metadataHash := metadata, updatedLedger := env.ledger)])
    case TransferOwner(id, newOwner) =>
      s.(merchants := s.merchants[id := s.merchants[id].(owner := newOwner, updatedLedger := env.ledger)])
    case _ =>
      var id := call.merchantId;
      s.(merchants := s.merchants[id := s.merchants[id].(status := Decision(call), updatedLedger := env.ledger)])
  }

  function Step(s: Registry, env: Env, call: Call): Registry {
    if Check(s, env, call).Ok? then Apply(s, env, call) else s
  }

  /** What `is_approved` answers; it does not look at the pause flag. */
  function IsApproved(s: Registry, id: Bytes32): Reply<bool, RegistryError> {
    var m :- Find(s, id);
    Ok(m.status == Approved)
  }

  predicate EverApproved(s: Registry, id: Bytes32) {
    id in s.merchants && s.merchants[id].status in {Approved, Suspended}
  }

  /** No call leads out of {Approved, Suspended} or out of Rejected, and no call removes a
      merchant or changes its id, its UPI hash or its creation ledger. Only the owner
      changes the metadata or hands the merchant over, only the admin decides. */
  lemma StatusClosed(s: Registry, env: Env, call: Call, id: Bytes32)
    requires id in s.merchants
    ensures var s' := Step(s, env, call);
            && id in s'.merchants
            && (EverApproved(s, id) ==> EverApproved(s', id))
            && (s.merchants[id].status == Rejected ==> s'.merchants[id].status == Rejected)
            && s'.merchants[id].merchantId == s.merchants[id].merchantId
            && s'.merchants[id].upiIdHash == s.merchants[id].upiIdHash
            && s'.merchants[id].createdLedger == s.merchants[id].createdLedger
            && (s'.merchants[id].owner != s.merchants[id].owner ==> env.Authorises(s.merchants[id].owner))
            && (s'.merchants[id].metadataHash != s.merchants[id].metadataHash ==> env.Authorises(s.merchants[id].owner))
            && (s'.merchants[id].status != s.merchants[id].status ==> env.Authorises(s.admin))
  {
  }

  /** The moves between statuses that ever happen. */
  predicate Edge(from: Status, to: Status) {
    (from, to) in {(Pending, Approved), (Pending, Rejected), (Approved, Suspended), (Suspended, Approved)}
  }

  /** A merchant's status changes exactly along these edges: one call by the admin of an
      unpaused registry takes each edge, and no call does anything else. */
  lemma StatusMoves(s: Registry, env: Env, id: Bytes32, to: Status)
    requires id in s.merchants && s.merchants[id].status != to
    ensures (exists call :: Step(s, env, call).merchants[id].status == to) <==>
            !s.paused && env.Authorises(s.admin) && Edge(s.merchants[id].status, to)
  {
    forall call | Step(s, env, call).merchants[id].status == to
      ensures !s.paused && env.Authorises(s.admin) && Edge(s.merchants[id].status, to)
    {
    }
    if !s.paused && env.Authorises(s.admin) && Edge(s.merchants[id].status, to) {
      var call := if to == Approved then Approve(id) else if to == Suspended then Suspend(id) else Reject(id);
      assert Step(s, env, call).merchants[id].status == to;
    }
  }

  // ---------------------------------------------------------------- the rules, one aspect at a time

  /** The address whose authority a call needs: the owner for a merchant's own data, the
      invited address for an office, the admin for everything else. */
  function Signer(s: Registry, call: Call): Option<Address> {
    match call
    case AcceptAdmin => s.pendingAdmin
    case UpdateMetadata(id, _) => if id in s.merchants then Some(s.merchants[id].owner) else None
    case TransferOwner(id, _) => if id in s.merchants then Some(s.merchants[id].owner) else None
    case _ => Some(s.admin)
  }

  function Subject(call: Call): Option<Bytes32> {
    match call
    case Register(id, _, _, _) => Some(id)
    case Approve(id) => Some(id)
    case Suspend(id) => Some(id)
    case Reject(id) => Some(id)
    case UpdateMetadata(id, _) => Some(id)
    case TransferOwner(id, _) => Some(id)
    case _ => None
  }

  function StatusOf(s: Registry, id: Bytes32): Option<Status> {
    if id in s.merchants then Some(s.merchants[id].status) else None
  }

  /** The statuses, none meaning unknown, a merchant may have when it is the subject of a call. */
  function Expected(call: Call): set<Option<Status>> {
    match call
    case Register(_, _, _, _) => {None}
    case Approve(_) => {Some(Pending), Some(Approved), Some(Suspended)}
    case Suspend(_) => {Some(Approved)}
    case Reject(_) => {Some(Pending)}
    case _ => {Some(Pending), Some(Approved), Some(Suspended), Some(Rejected)}
  }

  predicate Admissible(s: Registry, env: Env, call: Call) {
    && (s.paused ==> call.Pause? || call.Unpause?)
    && Signer(s, call).Some? && env.Authorises(Signer(s, call).value)
    && (Subject(call).Some? ==> StatusOf(s, Subject(call).value) in Expected(call))
  }

  /** Exactly which calls are accepted, and that a refusal names a reason that is there. */
  lemma AcceptedIff(s: Registry, env: Env, call: Call)
    ensures Check(s, env, call).Ok? <==> Admissible(s, env, call)
    ensures match Check(s, env, call)
            case Ok(_) => true
            case Trap => Signer(s, call).Some? && !env.Authorises(Signer(s, call).value)
            case Err(Paused) => s.paused
            case Err(NoPendingAdmin) => call.AcceptAdmin? && s.pendingAdmin.None?
            case Err(MerchantAlreadyExists) => call.Register? && StatusOf(s, call.merchantId).Some?
            case Err(MerchantNotFound) => Subject(call).Some? && StatusOf(s, Subject(call).value).None?
            case Err(InvalidStatus) => Decides(call) && StatusOf(s, call.merchantId) !in Expected(call)
  {
    if Subject(call).Some? && StatusOf(s, Subject(call).value).Some? {
      AnyStatus(StatusOf(s, Subject(call).value).value);
    }
  }

  lemma AnyStatus(status: Status)
    ensures status in {Pending, Approved, Suspended, Rejected}
  {
    match status
    case Pending =>
    case Approved =>
    case Suspended =>
    case Rejected =>
  }

  /** What one call makes of a merchant, column by column: only a registration creates it,
      and pending; only an accepted call about this merchant writes its columns. */
  lemma MerchantAfter(s: Registry, env: Env, call: Call, id: Bytes32)
    ensures var s' := Step(s, env, call);
            var about := Admissible(s, env, call) && Subject(call) == Some(id);
            && (id in s'.merchants <==> id in s.merchants || (about && call.Register?))
            && (id in s'.merchants && id !in s.merchants ==>
                  && env.Authorises(s.admin) && !s.paused
                  && s'.merchants[id] == Merchant(id, call.owner, call.upiIdHash, call.metadataHash, Pending, env.ledger, env.ledger))
            && (id in s.merchants ==>
                  var m, m' := s.merchants[id], s'.merchants[id];
                  && m'.status == (if about && call.Approve? then Approved else if about && call.Suspend? then Suspended
                                   else if about && call.Reject? then Rejected else m.status)
                  && m'.owner == (if about && call.TransferOwner? then call.newOwner else m.owner)
                  && m'.metadataHash == (if about && call.UpdateMetadata? then call.metadataHash else m.metadataHash)
                  && m'.updatedLedger == (if about then env.ledger else m.updatedLedger)
                  && m' == m.(status := m'.status, owner := m'.owner, metadataHash := m'.metadataHash, updatedLedger := m'.updatedLedger))
  {
    AcceptedIff(s, env, call);
  }

  /** Only the admin pauses and unpauses, at any time; a paused registry changes nothing but
      the pause flag. */
  lemma PauseIff(s: Registry, env: Env, call: Call)
    ensures Step(s, env, call).paused == if env.Authorises(s.admin) && call.Pause? then true
                                         else if env.Authorises(s.admin) && call.Unpause? then false
                                         else s.paused
    ensures s.paused ==> Step(s, env, call) == s.(paused := Step(s, env, call).paused)
  {
  }

  /** A merchant is approved while its status is Approved and at no other time; an unknown
      merchant is an error. */
  lemma IsApprovedIff(s: Registry, id: Bytes32)
    ensures IsApproved(s, id) == Ok(true) <==> StatusOf(s, id) == Some(Approved)
    ensures IsApproved(s, id) == Ok(false) <==> StatusOf(s, id) in {Some(Pending), Some(Suspended), Some(Rejected)}
    ensures IsApproved(s, id) == Err(MerchantNotFound) <==> StatusOf(s, id).None?
  {
    if id in s.merchants {
      AnyStatus(s.merchants[id].status);
    }
  }
}
