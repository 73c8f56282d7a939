/** The merchant registry contract. Every entry point checks before it writes, so a
    failing call leaves the storage alone without any help from the host. */
module MerchantRegistryContract {
  import opened Host
  import opened MerchantRegistry

  class Contract {
    var admin: Address
    var pendingAdmin: Option<Address>
    var paused: bool
    var merchants: map<Bytes32, Merchant>

    ghost function State(): Registry
      reads this
    {
      Registry(admin, pendingAdmin, paused, merchants)
    }

    constructor (admin: Address)
      ensures State() == Deploy(admin)
    {
      this.admin := admin;
      this.pendingAdmin := None;
      this.paused := false;
      this.merchants := map[];
    }

    method Invoke(env: Env, call: Call) returns (r: Reply<(), RegistryError>)
      modifies this
      ensures r == Check(old(State()), env, call)
      ensures State() == Step(old(State()), env, call)
    {
      match call
      case SetAdmin(newAdmin) => r := SetAdmin(env, newAdmin);
      case AcceptAdmin => r := AcceptAdmin(env);
      case Pause => r := Pause(env);
      case Unpause => r := Unpause(env);
      case Register(id, owner, upi, metadata) => r := RegisterMerchant(env, id, owner, upi, metadata);
      case Approve(id) => r := ApproveMerchant(env, id);
      case Suspend(id) => r := SuspendMerchant(env, id);
      case Reject(id) => r := RejectMerchant(env, id);
      case UpdateMetadata(id, metadata) => r := UpdateMetadata(env, id, metadata);
      case TransferOwner(id, newOwner) => r := TransferOwner(env, id, newOwner);
    }

    function RequireNotPaused(): Reply<(), RegistryError>
      reads this
    {
      Require(!paused, Paused)
    }

    function ReadMerchant(id: Bytes32): Reply<Merchant, RegistryError>
      reads this
    {
      if id in merchants then Ok(merchants[id]) else Err(MerchantNotFound)
    }

    method SetAdmin(env: Env, newAdmin: Address) returns (r: Reply<(), RegistryError>)
      modifies this
      ensures r == Check(old(State()), env, Call.SetAdmin(newAdmin))
      ensures State() == Step(old(State()), env, Call.SetAdmin(newAdmin))
    {
      var _ :- RequireNotPaused();
      var _ :- RequireAuth(env, admin);
      pendingAdmin := Some(newAdmin);
      return Ok(());
    }

    method AcceptAdmin(env: Env) returns (r: Reply<(), RegistryError>)
      modifies this
      ensures r == Check(old(State()), env, Call.AcceptAdmin)
      ensures State() == Step(old(State()), env, Call.AcceptAdmin)
    {
      var _ :- RequireNotPaused();
      if pendingAdmin.None? {
        return Err(NoPendingAdmin);
      }
      var pending := pendingAdmin.value;
      var _ :- RequireAuth(env, pending);
      admin := pending;
      pendingAdmin := None;
      return Ok(());
    }

    method Pause(env: Env) returns (r: Reply<(), RegistryError>)
      modifies this
      ensures r == Check(old(State()), env, Call.Pause)
      ensures State() == Step(old(State()), env, Call.Pause)
    {
      var _ :- RequireAuth(env, admin);
      paused := true;
      return Ok(());
    }

    method Unpause(env: Env) returns (r: Reply<(), RegistryError>)
      modifies this
      ensures r == Check(old(State()), env, Call.Unpause)
      ensures State() == Step(old(State()), env, Call.Unpause)
    {
      var _ :- RequireAuth(env, admin);
      paused := false;
      return Ok(());
    }

    method RegisterMerchant(env: Env, id: Bytes32, owner: Address, upi: Bytes32, metadata: Bytes32)
      returns (r: Reply<(), RegistryError>)
      modifies this
      ensures r == Check(old(State()), env, Call.Register(id, owner, upi, metadata))
      ensures State() == Step(old(State()), env, Call.Register(id, owner, upi, metadata))
    {
      var _ :- RequireNotPaused();
      var _ :- RequireAuth(env, admin);
      if id in merchants {
        return Err(MerchantAlreadyExists);
      }
      merchants := merchants[id := Merchant(id, owner, upi, metadata, Status.Pending, env.ledger, env.ledger)];
      return Ok(());
    }

    method ApproveMerchant(env: Env, id: Bytes32) returns (r: Reply<(), RegistryError>)
      modifies this
      ensures r == Check(old(State()), env, Call.Approve(id))
      ensures State() == Step(old(State()), env, Call.Approve(id))
    {
      var _ :- RequireNotPaused();
      var _ :- RequireAuth(env, admin);
      var record :- ReadMerchant(id);
      if record.status == Rejected {
        return Err(InvalidStatus);
      }
      record := record.(status := Approved, updatedLedger := env.ledger);
      merchants := merchants[id := record];
      return Ok(());
    }

    method SuspendMerchant(env: Env, id: Bytes32) returns (r: Reply<(), RegistryError>)
      modifies this
      ensures r == Check(old(State()), env, Call.Suspend(id))
      ensures State() == Step(old(State()), env, Call.Suspend(id))
    {
      var _ :- RequireNotPaused();
      var _ :- RequireAuth(env, admin);
      var record :- ReadMerchant(id);
      if record.status != Approved {
        return Err(InvalidStatus);
      }
      record := record.(status := Suspended, updatedLedger := env.ledger);
      merchants := merchants[id := record];
      return Ok(());
    }

    method RejectMerchant(env: Env, id: Bytes32) returns (r: Reply<(), RegistryError>)
      modifies this
      ensures r == Check(old(State()), env, Call.Reject(id))
      ensures State() == Step(old(State()), env, Call.Reject(id))
    {
      var _ :- RequireNotPaused();
      var _ :- RequireAuth(env, admin);
      var record :- ReadMerchant(id);
      if record.status != Status.Pending {
        return Err(InvalidStatus);
      }
      record := record.(status := Rejected, updatedLedger := env.ledger);
      merchants := merchants[id := record];
      return Ok(());
    }

    method UpdateMetadata(env: Env, id: Bytes32, metadata: Bytes32) returns (r: Reply<(), RegistryError>)
      modifies this
      ensures r == Check(old(State()), env, Call.UpdateMetadata(id, metadata))
      ensures State() == Step(old(State()), env, Call.UpdateMetadata(id, metadata))
    {
      var _ :- RequireNotPaused();
      var record :- ReadMerchant(id);
      var _ :- RequireAuth(env, record.owner);
      record := record.(metadataHash := metadata, updatedLedger := env.ledger);
      merchants := merchants[id := record];
      return Ok(());
    }

    method TransferOwner(env: Env, id: Bytes32, newOwner: Address) returns (r: Reply<(), RegistryError>)
      modifies this
      ensures r == Check(old(State()), env, Call.TransferOwner(id, newOwner))
      ensures State() == Step(old(State()), env, Call.TransferOwner(id, newOwner))
    {
      var _ :- RequireNotPaused();
      var record :- ReadMerchant(id);
      var _ :- RequireAuth(env, record.owner);
      record := record.(owner := newOwner, updatedLedger := env.ledger);
      merchants := merchants[id := record];
      return Ok(());
    }

    method IsApproved(id: Bytes32) returns (r: Reply<bool, RegistryError>)
      ensures r == MerchantRegistry.IsApproved(State(), id)
      ensures r == Ok(true) <==> id in merchants && merchants[id].status == Approved
      ensures r == Ok(false) <==> id in merchants && merchants[id].status != Approved
    {
      var record :- ReadMerchant(id);
      return Ok(record.status == Approved);
    }
  }
}
