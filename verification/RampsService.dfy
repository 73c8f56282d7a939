/** The ramp orchestrator: it writes the ramp row and appends to the event table. */
module RampsService {
  import opened Host
  import opened Ramps

  datatype Answer = Stored(status: Status) | Denied(refusal: Refusal) | Thrown

  class Service {
    var ramps: map<Id, Ramp>
    var rows: seq<EventRow>

    ghost function State(): Db
      reads this
    {
      Db(ramps, rows)
    }

    constructor ()
      ensures State() == EMPTY
    {
      ramps := map[];
      rows := [];
    }

    /** The highest sequence number the event table holds for a ramp. */
    method FindLast(id: Id) returns (last: nat)
      ensures last == LastSequence(rows, id)
    {
      last := 0;
      for i := 0 to |rows|
        invariant last == LastSequence(rows[..i], id)
      {
        assert rows[..i + 1][..i] == rows[..i];
        if rows[i].rampId == id && last < rows[i].sequence {
          last := rows[i].sequence;
        }
      }
      assert rows[..|rows|] == rows;
    }

    method Append(id: Id, status: Status, event: Event, source: Source)
      modifies this`rows
      ensures rows == AppendEvent(old(rows), id, status, event, source)
    {
      var last := FindLast(id);
      rows := rows + [EventRow(id, last + 1, status, event, source)];
    }

    /** Calls a provider until it succeeds, three times at most by default. */
    static method WithRetry<T>(outcome: nat -> Attempt<T>, maxAttempts: nat := MAX_ATTEMPTS) returns (r: Attempt<T>)
      requires 0 < maxAttempts
      ensures r == Retry(outcome, maxAttempts)
    {
      r := Failed("");
      for attempt := 0 to maxAttempts
        invariant 0 < attempt ==> r == Retry(outcome, attempt) && r.Failed?
      {
        r := outcome(attempt);
        if r.Succeeded? {
          SuccessStands(outcome, attempt + 1, maxAttempts);
          return;
        }
      }
    }

    method InitiateOnRamp(id: Id, r: Request, provider: Provider, now: Time) returns (a: Answer)
      requires r.kind == OnRamp
      requires id !in ramps
      modifies this
      ensures State() == Ramps.Initiate(old(State()), id, r, provider, now)
      ensures a.Denied? <==> Refused(r).Some?
      ensures a.Denied? ==> a.refusal == Refused(r).value
      ensures a.Stored? <==> id in ramps && ramps[id].status != Error
    {
      if !r.kycVerified {
        return Denied(KycRequired);
      }
      if !r.supported {
        return Denied(Unsupported);
      }
      a := Initiate(id, r.kind, provider, now);
    }

    method InitiateOffRamp(id: Id, r: Request, provider: Provider, now: Time) returns (a: Answer)
      requires r.kind == OffRamp
      requires id !in ramps
      modifies this
      ensures State() == Ramps.Initiate(old(State()), id, r, provider, now)
      ensures a.Denied? <==> Refused(r).Some?
      ensures a.Denied? ==> a.refusal == Refused(r).value
      ensures a.Stored? <==> id in ramps && ramps[id].status != Error
    {
      if !r.kycVerified {
        return Denied(KycRequired);
      }
      if !r.supported {
        return Denied(Unsupported);
      }
      if !r.hasAmount {
        return Denied(AmountRequired);
      }
      a := Initiate(id, r.kind, provider, now);
    }

    /** The row and its first event are written before the provider is called. A provider that
        fails and an id that the database refuses end in the same branch. */
    method Initiate(id: Id, kind: Kind, provider: Provider, now: Time) returns (a: Answer)
      requires id !in ramps
      modifies this
      ensures State() == Ramps.Initiate(old(State()), id, Request(kind, true, true, true), provider, now)
      ensures !a.Denied?
      ensures a.Stored? <==> id in ramps && ramps[id].status != Error
    {
      ramps := ramps[id := Ramp(kind, Initiated, None, map[], None, None, None, now)];
      Append(id, Initiated, Created, System);
      var session := WithRetry(provider.authenticate);
      var started: Attempt<StartResult>;
      match session {
        case Failed(message) => started := Failed(message);
        case Succeeded(_) => started := WithRetry(provider.start);
      }
      if Storable(ramps, started) {
        ramps := ramps[id := ramps[id].(providerTxId := started.value.providerTxId, status := PendingUserTransfer)];
        Append(id, PendingUserTransfer, Started, System);
        return Stored(PendingUserTransfer);
      }
      ramps := ramps[id := ramps[id].(status := Error, failureCode := Some("INITIATION_FAILED"))];
      Append(id, Error, InitiationFailed, System);
      return Thrown;
    }

    /** A no-op when the ramp has ended or has no provider id, or when the provider fails. */
    method RefreshStatus(id: Id, answer: Option<StatusResult>, now: Time) returns (a: Answer)
      modifies this
      ensures State() == Refresh(old(State()), id, answer, now)
      ensures a.Stored? ==> id in ramps && ramps[id].status == a.status
      ensures a.Thrown? <==> id !in old(ramps) || (Live(old(State()), id) && answer.None?)
      ensures !a.Denied?
      ensures Live(old(State()), id) && answer.Some? ==>
                (a == Stored(Completed) <==> answer.value.raw == "completed") &&
                (a == Stored(Completed) ==> ramps[id].completedAt == Some(now))
    {
      if id !in ramps {
        return Thrown;
      }
      var ramp := ramps[id];
      if Terminal(ramp.status) {
        return Stored(ramp.status);
      }
      if !Named(ramp) {
        return Stored(ramp.status);
      }
      if answer.None? {
        return Thrown;
      }
      var status := ApplyStatus(id, ramp.status, MapStatus(answer.value.raw), answer.value.details, Poller, now);
      return Stored(status);
    }

    method ApplyStatus(id: Id, previous: Status, next: Status, details: map<string, string>, source: Source, now: Time)
      returns (status: Status)
      requires id in ramps
      modifies this
      ensures State() == Ramps.ApplyStatus(old(State()), id, previous, next, details, source, now)
      ensures status == next
    {
      var data := ramps[id].(lastPolledAt := Some(now), details := ramps[id].details + details);
      var changed := next != previous;
      if changed {
        data := data.(status := next);
        if next == Completed {
          data := data.(completedAt := Some(now));
        }
        if next == Error {
          data := data.(failureCode := Some("PROVIDER_ERROR"));
        }
      }
      ramps := ramps[id := data];
      if changed {
        Append(id, next, StatusChanged(previous), source);
      }
      return next;
    }
  }

  lemma {:induction false} SuccessStands<T>(outcome: nat -> Attempt<T>, attempts: nat, more: nat)
    requires 0 < attempts <= more && Retry(outcome, attempts).Succeeded?
    ensures Retry(outcome, more) == Retry(outcome, attempts)
  {
    if attempts < more {
      SuccessStands(outcome, attempts, more - 1);
    }
  }
}
