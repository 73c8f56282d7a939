/** Fiat ramps as the database sees them: one row per ramp and an append-only table of
    events. Each initiate and each refresh is one atomic step. */
module Ramps {
  import opened Host

  type Id = nat
  type Time = int

  datatype Status =
    | Initiated | PendingUserTransfer | PendingAnchor | PendingStellar | PendingExternal
    | Completed | Refunded | Expired | Error

  datatype Source = System | Poller | Callback

  datatype Event = Created | Started | InitiationFailed | StatusChanged(from: Status)

  datatype EventRow = EventRow(rampId: Id, sequence: nat, status: Status, event: Event, source: Source)

  datatype Kind = OnRamp | OffRamp

  /** The columns the service writes back; `details` are the amounts and references a
      provider may report. */
  datatype Ramp = Ramp(
    kind: Kind, status: Status, providerTxId: Option<string>, details: map<string, string>,
    failureCode: Option<string>, completedAt: Option<Time>, lastPolledAt: Option<Time>, createdAt: Time)

  datatype Db = Db(ramps: map<Id, Ramp>, rows: seq<EventRow>)

  predicate Terminal(s: Status) { s in {Completed, Refunded, Expired, Error} }

  /** SEP-24 statuses in the service's vocabulary; anything unknown is an error. */
  function MapStatus(raw: string): Status {
    if raw in ["incomplete", "pending_user_transfer_start", "pending_customer_info_update"] then PendingUserTransfer
    else if raw in ["pending_anchor", "pending_trust", "pending_user"] then PendingAnchor
    else if raw == "pending_stellar" then PendingStellar
    else if raw in ["pending_user_transfer_complete", "pending_external"] then PendingExternal
    else if raw == "completed" then Completed
    else if raw == "refunded" then Refunded
    else if raw in ["expired", "too_late"] then Expired
    else Error
  }

  // ---------------------------------------------------------------- providers

  datatype Attempt<+T> = Succeeded(value: T) | Failed(message: string)

  const MAX_ATTEMPTS: nat := 3

  /** The result of up to `attempts` tries, where try number `i` comes out as `outcome(i)`. */
  function Retry<T>(outcome: nat -> Attempt<T>, attempts: nat): Attempt<T>
    requires 0 < attempts
  {
    if attempts == 1 then outcome(0)
    else
      var earlier := Retry(outcome, attempts - 1);
      if earlier.Succeeded? then earlier else outcome(attempts - 1)
  }

  /** Retrying gives the first success, and fails, with the last failure, exactly when
      every try fails. */
  lemma {:induction false} RetryIsFirstSuccess<T>(outcome: nat -> Attempt<T>, attempts: nat)
    requires 0 < attempts
    ensures if Retry(outcome, attempts).Succeeded? then
              exists i | 0 <= i < attempts :: Retry(outcome, attempts) == outcome(i) && forall k | 0 <= k < i :: outcome(k).Failed?
            else
              Retry(outcome, attempts) == outcome(attempts - 1) && forall k | 0 <= k < attempts :: outcome(k).Failed?
  {
    if attempts > 1 {
      RetryIsFirstSuccess(outcome, attempts - 1);
    } else {
      assert Retry(outcome, attempts) == outcome(0);
    }
  }

  /** The id the provider gives the ramp, if its answer has one. */
  datatype StartResult = StartResult(providerTxId: Option<string>)

  datatype StatusResult = StatusResult(raw: string, details: map<string, string>)

  /** How the provider behaves during one initiation. */
  datatype Provider = Provider(authenticate: nat -> Attempt<string>, start: nat -> Attempt<StartResult>)

  /** A provider that answers at once and gives the ramp the id `name`. */
  function Working(name: string): Provider {
    Provider(i => Succeeded("session"), i => Succeeded(StartResult(Some(name))))
  }

  function StartOutcome(p: Provider): Attempt<StartResult> {
    match Retry(p.authenticate, MAX_ATTEMPTS)
    case Failed(message) => Failed(message)
    case Succeeded(_) => Retry(p.start, MAX_ATTEMPTS)
  }

  // ---------------------------------------------------------------- the steps

  function LastSequence(rows: seq<EventRow>, id: Id): nat {
    if rows == [] then 0
    else
      var row := rows[|rows| - 1];
      var earlier := LastSequence(rows[..|rows| - 1], id);
      if row.rampId == id && earlier < row.sequence then row.sequence else earlier
  }

  function AppendEvent(rows: seq<EventRow>, id: Id, status: Status, event: Event, source: Source): seq<EventRow> {
    rows + [EventRow(id, LastSequence(rows, id) + 1, status, event, source)]
  }

  datatype Refusal = KycRequired | Unsupported | AmountRequired

  datatype Request = Request(kind: Kind, kycVerified: bool, supported: bool, hasAmount: bool)

  /** Why a ramp is refused before anything is stored. */
  function Refused(r: Request): Option<Refusal> {
    if !r.kycVerified then Some(KycRequired)
    else if !r.supported then Some(Unsupported)
    else if r.kind == OffRamp && !r.hasAmount then Some(AmountRequired)
    else None
  }

  function Opened(db: Db, id: Id, kind: Kind, now: Time): Db {
    Db(db.ramps[id := Ramp(kind, Initiated, None, map[], None, None, None, now)],
       AppendEvent(db.rows, id, Initiated, Created, System))
  }

  /** Whether a ramp holds this provider id already. */
  predicate Held(ramps: map<Id, Ramp>, providerTxId: Option<string>) {
    providerTxId.Some? && exists other | other in ramps :: ramps[other].providerTxId == providerTxId
  }

  /** What the provider answers is stored, unless the unique index on the provider id refuses
      it. A refusal ends the ramp like a failure of the provider. */
  predicate Storable(ramps: map<Id, Ramp>, outcome: Attempt<StartResult>) {
    outcome.Succeeded? && !Held(ramps, outcome.value.providerTxId)
  }

  function Concluded(db: Db, id: Id, outcome: Attempt<StartResult>): Db
    requires id in db.ramps
  {
    if Storable(db.ramps, outcome) then
      Db(db.ramps[id := db.ramps[id].(providerTxId := outcome.value.providerTxId, status := PendingUserTransfer)],
         AppendEvent(db.rows, id, PendingUserTransfer, Started, System))
    else
      Db(db.ramps[id := db.ramps[id].(status := Error, failureCode := Some("INITIATION_FAILED"))],
         AppendEvent(db.rows, id, Error, InitiationFailed, System))
  }

  /** `id` is the fresh key the database gives the new row. The row and its first event are
      written before the provider is called. */
  function Initiate(db: Db, id: Id, r: Request, provider: Provider, now: Time): Db {
    if Refused(r).Some? || id in db.ramps then db
    else Concluded(Opened(db, id, r.kind, now), id, StartOutcome(provider))
  }

  function Updated(ramp: Ramp, previous: Status, next: Status, details: map<string, string>, now: Time): Ramp {
    var r := ramp.(lastPolledAt := Some(now), details := ramp.details + details);
    if next == previous then r else
    r.(status := next,
       completedAt := if next == Completed then Some(now) else r.completedAt,
       failureCode := if next == Error then Some("PROVIDER_ERROR") else r.failureCode)
  }

  /** `previous` is the status the caller believes the ramp has. */
  function ApplyStatus(db: Db, id: Id, previous: Status, next: Status, details: map<string, string>, source: Source, now: Time): Db
    requires id in db.ramps
  {
    Db(db.ramps[id := Updated(db.ramps[id], previous, next, details, now)],
       if next == previous then db.rows else AppendEvent(db.rows, id, next, StatusChanged(previous), source))
  }

  /** The ramp has an id to ask the provider about; the empty string is none. */
  predicate Named(r: Ramp) { r.providerTxId.Some? && r.providerTxId.value != "" }

  /** The provider's answer, or None when a call to it throws. */
  function Refresh(db: Db, id: Id, answer: Option<StatusResult>, now: Time): Db {
    if id !in db.ramps || Terminal(db.ramps[id].status) || !Named(db.ramps[id]) || answer.None? then db
    else ApplyStatus(db, id, db.ramps[id].status, MapStatus(answer.value.raw), answer.value.details, Poller, now)
  }

  datatype Tx =
    | Initiation(id: Id, request: Request, provider: Provider, now: Time)
    | Refreshing(id: Id, answer: Option<StatusResult>, now: Time)

  function Step(db: Db, tx: Tx): Db {
    match tx
    case Initiation(id, r, provider, now) => Initiate(db, id, r, provider, now)
    case Refreshing(id, answer, now) => Refresh(db, id, answer, now)
  }

  const EMPTY: Db := Db(map[], [])

  function After(txs: seq<Tx>): Db {
    if txs == [] then EMPTY else Step(After(txs[..|txs| - 1]), txs[|txs| - 1])
  }

  // ---------------------------------------------------------------- the audit trail

  /** The events of one ramp, in the order in which they were appended. */
  function Trail(rows: seq<EventRow>, id: Id): seq<EventRow> {
    if rows == [] then []
    else
      var row := rows[|rows| - 1];
      var earlier := Trail(rows[..|rows| - 1], id);
      if row.rampId == id then earlier + [row] else earlier
  }

  /** The status a reader of the trail arrives at, or None when an event does not follow
      from the ones before it: wrong number, wrong start, a change that starts from
      another status, changes nothing or comes after the end. */
  function Replay(trail: seq<EventRow>): Option<Status> {
    if trail == [] then None
    else
      var e := trail[|trail| - 1];
      if e.sequence != |trail| then None
      else if |trail| == 1 then if e.event == Created && e.status == Initiated then Some(Initiated) else None
      else
        var before := Replay(trail[..|trail| - 1]);
        if before.None? || Terminal(before.value) || e.status == Initiated then None
        else match e.event
          case Created => None
          case Started => if before == Some(Initiated) && e.status == PendingUserTransfer then Some(e.status) else None
          case InitiationFailed => if before == Some(Initiated) && e.status == Error then Some(e.status) else None
          case StatusChanged(from) => if from == before.value && from != e.status then Some(e.status) else None
  }

  /** The stored row is what the trail replays to, and its completion time and failure
      code are set exactly when its status says so. */
  ghost predicate Consistent(db: Db, id: Id) {
    && LastSequence(db.rows, id) == |Trail(db.rows, id)|
    && (id !in db.ramps ==> Trail(db.rows, id) == [])
    && (id in db.ramps ==>
          var r := db.ramps[id];
          && Replay(Trail(db.rows, id)) == Some(r.status)
          && (r.completedAt.Some? <==> r.status == Completed)
          && (r.failureCode.Some? <==> r.status == Error))
  }

  /** Between steps, moreover, no ramp is stored as merely initiated. */
  ghost predicate Audited(db: Db, id: Id) {
    Consistent(db, id) && (id in db.ramps ==> db.ramps[id].status != Initiated)
  }

  lemma AppendToTrail(rows: seq<EventRow>, row: EventRow, id: Id)
    ensures Trail(rows + [row], id) == if row.rampId == id then Trail(rows, id) + [row] else Trail(rows, id)
    ensures LastSequence(rows + [row], id) ==
            if row.rampId == id && LastSequence(rows, id) < row.sequence then row.sequence else LastSequence(rows, id)
  {
    assert (rows + [row])[..|rows|] == rows;
  }

  lemma ReplayAppend(trail: seq<EventRow>, e: EventRow)
    ensures (trail + [e])[..|trail|] == trail && |trail + [e]| == |trail| + 1 && (trail + [e])[|trail|] == e
  {
  }

  /** What a trail that replays looks like, event by event: numbered from 1, started by the
      creation in INITIATED, which never comes back, no event after a terminal status, and
      every status change starting from the status before it and leading to another. */
  lemma {:induction false} ReplayReads(trail: seq<EventRow>, k: nat)
    requires Replay(trail).Some? && k < |trail|
    ensures Replay(trail) == Some(trail[|trail| - 1].status)
    ensures trail[k].sequence == k + 1
    ensures k == 0 ==> trail[k].event == Created && trail[k].status == Initiated
    ensures k > 0 ==> trail[k].event != Created && trail[k].status != Initiated && !Terminal(trail[k - 1].status)
    ensures k > 0 && trail[k].event.StatusChanged? ==> trail[k].event.from == trail[k - 1].status != trail[k].status
  {
    var n := |trail| - 1;
    if n > 0 {
      ReplayReads(trail[..n], if k < n then k else n - 1);
    }
  }

  /** In every reachable state every ramp's trail is numbered 1..n, starts with INITIATED
      and replays to the stored status. */
  lemma {:induction false} TrailReplays(txs: seq<Tx>, id: Id)
    ensures Audited(After(txs), id)
  {
    if txs != [] {
      var n := |txs| - 1;
      TrailReplays(txs[..n], id);
      StepAudited(After(txs[..n]), txs[n], id);
    }
  }

  lemma StepAudited(db: Db, tx: Tx, id: Id)
    requires Audited(db, id)
    ensures Audited(Step(db, tx), id)
  {
    match tx
    case Initiation(x, r, provider, now) => InitiateAudited(db, x, r, provider, now, id);
    case Refreshing(x, answer, now) => RefreshAudited(db, x, answer, now, id);
  }

  lemma InitiateAudited(db: Db, x: Id, r: Request, provider: Provider, now: Time, id: Id)
    requires Audited(db, id)
    ensures Audited(Initiate(db, x, r, provider, now), id)
  {
    if Refused(r).None? && x !in db.ramps {
      OpenedConsistent(db, x, r.kind, now, id);
      ConcludedConsistent(Opened(db, x, r.kind, now), x, StartOutcome(provider), id);
    }
  }

  lemma RefreshAudited(db: Db, x: Id, answer: Option<StatusResult>, now: Time, id: Id)
    requires Audited(db, id)
    ensures Audited(Refresh(db, x, answer, now), id)
  {
    if Refresh(db, x, answer, now) != db {
      var previous, next := db.ramps[x].status, MapStatus(answer.value.raw);
      if x == id {
        ApplyStatusIff(db, x, previous, next, answer.value.details, Poller, now);
      } else {
        OtherAudited(db, x, previous, next, answer.value.details, Poller, now, id);
      }
    }
  }

  lemma OtherAudited(db: Db, x: Id, previous: Status, next: Status, details: map<string, string>, source: Source, now: Time, id: Id)
    requires Audited(db, id) && x in db.ramps && x != id
    ensures Audited(ApplyStatus(db, x, previous, next, details, source, now), id)
  {
    if next != previous {
      AppendToTrail(db.rows, EventRow(x, LastSequence(db.rows, x) + 1, next, StatusChanged(previous), source), id);
    }
  }

  lemma OpenedConsistent(db: Db, x: Id, kind: Kind, now: Time, id: Id)
    requires Consistent(db, id) && x !in db.ramps
    ensures Consistent(Opened(db, x, kind, now), id)
  {
    AppendToTrail(db.rows, EventRow(x, LastSequence(db.rows, x) + 1, Initiated, Created, System), id);
  }

  lemma ConcludedConsistent(db: Db, x: Id, outcome: Attempt<StartResult>, id: Id)
    requires Consistent(db, id) && x in db.ramps && db.ramps[x].status == Initiated
    ensures Consistent(Concluded(db, x, outcome), id)
  {
    var stored := Storable(db.ramps, outcome);
    var row := EventRow(x, LastSequence(db.rows, x) + 1, if stored then PendingUserTransfer else Error,
                        if stored then Started else InitiationFailed, System);
    AppendToTrail(db.rows, row, id);
    if x == id {
      EndsInitiation(Trail(db.rows, id), row);
    }
  }

  lemma EndsInitiation(trail: seq<EventRow>, e: EventRow)
    requires Replay(trail) == Some(Initiated) && e.sequence == |trail| + 1
    requires (e.event == Started && e.status == PendingUserTransfer) || (e.event == InitiationFailed && e.status == Error)
    ensures Replay(trail + [e]) == Some(e.status)
  {
    ReplayAppend(trail, e);
  }

  /** `applyStatus` trusts the status its caller passes and does not look for a terminal
      one. Exactly when it keeps the trail: the caller passes the status it is asked to
      write, so nothing changes, or it passes the stored status, that status is not
      terminal and the new one is not INITIATED. */
  lemma ApplyStatusIff(db: Db, id: Id, previous: Status, next: Status, details: map<string, string>, source: Source, now: Time)
    requires Audited(db, id) && id in db.ramps
    ensures Audited(ApplyStatus(db, id, previous, next, details, source, now), id) <==>
            next == previous || (previous == db.ramps[id].status && !Terminal(previous) && next != Initiated)
  {
    if next != previous {
      var row := EventRow(id, LastSequence(db.rows, id) + 1, next, StatusChanged(previous), source);
      AppendToTrail(db.rows, row, id);
      ReplayAppend(Trail(db.rows, id), row);
    }
  }

  // ---------------------------------------------------------------- terminal statuses, append only

  /** Over any stretch of a run the event table only grows, ramps stay, and a ramp that has
      ended never changes again. */
  lemma {:induction false} TerminalAbsorbing(txs: seq<Tx>, i: nat, j: nat, id: Id)
    requires i <= j <= |txs|
    ensures After(txs[..i]).rows <= After(txs[..j]).rows
    ensures id in After(txs[..i]).ramps ==> id in After(txs[..j]).ramps
    ensures id in After(txs[..i]).ramps && Terminal(After(txs[..i]).ramps[id].status) ==>
            && After(txs[..j]).ramps[id] == After(txs[..i]).ramps[id]
            && Trail(After(txs[..j]).rows, id) == Trail(After(txs[..i]).rows, id)
    decreases j
  {
    if i < j {
      var n := j - 1;
      TerminalAbsorbing(txs, i, n, id);
      assert txs[..j][..n] == txs[..n];
      StepAppends(After(txs[..n]), txs[n], id);
    }
  }

  lemma StepAppends(db: Db, tx: Tx, id: Id)
    ensures db.rows <= Step(db, tx).rows
    ensures id in db.ramps ==> id in Step(db, tx).ramps
    ensures id in db.ramps && Terminal(db.ramps[id].status) ==>
            Step(db, tx).ramps[id] == db.ramps[id] && Trail(Step(db, tx).rows, id) == Trail(db.rows, id)
  {
    match tx
    case Initiation(x, r, provider, now) =>
      if Refused(r).None? && x !in db.ramps {
        AppendToTrail(db.rows, EventRow(x, LastSequence(db.rows, x) + 1, Initiated, Created, System), id);
        ConcludedAppends(Opened(db, x, r.kind, now), x, StartOutcome(provider), id);
      }
    case Refreshing(x, answer, now) => RefreshAppends(db, x, answer, now, id);
  }

  lemma ConcludedAppends(db: Db, x: Id, outcome: Attempt<StartResult>, id: Id)
    requires x in db.ramps
    ensures db.rows <= Concluded(db, x, outcome).rows
    ensures id != x ==> Trail(Concluded(db, x, outcome).rows, id) == Trail(db.rows, id)
  {
    var stored := Storable(db.ramps, outcome);
    var row := EventRow(x, LastSequence(db.rows, x) + 1, if stored then PendingUserTransfer else Error,
                        if stored then Started else InitiationFailed, System);
    AppendToTrail(db.rows, row, id);
  }

  lemma RefreshAppends(db: Db, x: Id, answer: Option<StatusResult>, now: Time, id: Id)
    ensures var db' := Refresh(db, x, answer, now);
            && db.rows <= db'.rows
            && (id in db.ramps ==> id in db'.ramps)
            && (id in db.ramps && Terminal(db.ramps[id].status) ==>
                  db'.ramps[id] == db.ramps[id] && Trail(db'.rows, id) == Trail(db.rows, id))
  {
    if Refresh(db, x, answer, now) != db {
      var row := EventRow(x, LastSequence(db.rows, x) + 1, MapStatus(answer.value.raw), StatusChanged(db.ramps[x].status), Poller);
      AppendToTrail(db.rows, row, id);
    }
  }

  /** A refused request leaves nothing behind; an accepted one leaves a row with a pending
      ramp under the provider's id, or an ended one exactly when the provider fails or
      answers an id that another ramp holds. */
  lemma InitiateIff(db: Db, id: Id, r: Request, provider: Provider, now: Time)
    requires id !in db.ramps
    ensures var db' := Initiate(db, id, r, provider, now);
            && (id in db'.ramps <==> r.kycVerified && r.supported && (r.kind == OffRamp ==> r.hasAmount))
            && (id !in db'.ramps ==> db' == db)
            && (id in db'.ramps ==>
                  var r', start := db'.ramps[id], StartOutcome(provider);
                  && r'.status in {Error, PendingUserTransfer}
                  && (r'.status == Error <==> start.Failed? || Held(db.ramps, start.value.providerTxId))
                  && r' == (if r'.status == Error
                            then Ramp(r.kind, Error, None, map[], Some("INITIATION_FAILED"), None, None, now)
                            else Ramp(r.kind, PendingUserTransfer, start.value.providerTxId, map[], None, None, None, now)))
            && (forall other | other in db.ramps :: other in db'.ramps && db'.ramps[other] == db.ramps[other])
  {
    if Refused(r).None? {
      OpenedHolds(db, id, r.kind, now, StartOutcome(provider));
      ConcludedRow(Opened(db, id, r.kind, now), id, StartOutcome(provider));
    }
  }

  lemma OpenedHolds(db: Db, id: Id, kind: Kind, now: Time, outcome: Attempt<StartResult>)
    requires id !in db.ramps
    ensures Storable(Opened(db, id, kind, now).ramps, outcome) == Storable(db.ramps, outcome)
  {
    var before := Opened(db, id, kind, now);
    assert before.ramps[id].providerTxId == None;
    assert forall other | other in db.ramps :: before.ramps[other] == db.ramps[other];
  }

  lemma ConcludedRow(db: Db, id: Id, outcome: Attempt<StartResult>)
    requires id in db.ramps
    ensures Concluded(db, id, outcome).ramps ==
            db.ramps[id := if Storable(db.ramps, outcome)
                           then db.ramps[id].(providerTxId := outcome.value.providerTxId, status := PendingUserTransfer)
                           else db.ramps[id].(status := Error, failureCode := Some("INITIATION_FAILED"))]
  {
  }

  /** The reason given: identity first, then the provider, then the amount. */
  lemma RefusedFor(r: Request)
    ensures Refused(r) == Some(KycRequired) <==> !r.kycVerified
    ensures Refused(r) == Some(Unsupported) <==> r.kycVerified && !r.supported
    ensures Refused(r) == Some(AmountRequired) <==> r.kycVerified && r.supported && r.kind == OffRamp && !r.hasAmount
  {
  }

  predicate FirstSuccess<T(==)>(outcome: nat -> Attempt<T>, value: T) {
    exists i | 0 <= i < 3 :: outcome(i) == Succeeded(value) && forall k | 0 <= k < i :: outcome(k).Failed?
  }

  /** A ramp is started exactly when one of three tries to authenticate succeeds and then one
      of three tries to start; the first start that succeeds counts. */
  lemma StartedIff(p: Provider)
    ensures StartOutcome(p).Succeeded? <==>
            (exists i | 0 <= i < 3 :: p.authenticate(i).Succeeded?) && (exists i | 0 <= i < 3 :: p.start(i).Succeeded?)
    ensures StartOutcome(p).Succeeded? ==> FirstSuccess(p.start, StartOutcome(p).value)
  {
    RetryIsFirstSuccess(p.authenticate, MAX_ATTEMPTS);
    RetryIsFirstSuccess(p.start, MAX_ATTEMPTS);
  }

  // ---------------------------------------------------------------- provider ids

  predicate DistinctIds(db: Db) {
    forall a, b | a in db.ramps && b in db.ramps && a != b && db.ramps[a].providerTxId.Some? ::
      db.ramps[a].providerTxId != db.ramps[b].providerTxId
  }

  /** No two ramps ever share a provider id. */
  lemma {:induction false} ProviderIdsDistinct(txs: seq<Tx>)
    ensures DistinctIds(After(txs))
  {
    if txs != [] {
      var n := |txs| - 1;
      ProviderIdsDistinct(txs[..n]);
      StepDistinct(After(txs[..n]), txs[n]);
    }
  }

  lemma StepDistinct(db: Db, tx: Tx)
    requires DistinctIds(db)
    ensures DistinctIds(Step(db, tx))
  {
    match tx
    case Initiation(x, r, provider, now) =>
      if Refused(r).None? && x !in db.ramps {
        ConcludedDistinct(Opened(db, x, r.kind, now), x, StartOutcome(provider));
      }
    case Refreshing(_, _, _) =>
  }

  lemma ConcludedDistinct(db: Db, x: Id, outcome: Attempt<StartResult>)
    requires DistinctIds(db) && x in db.ramps && db.ramps[x].providerTxId.None?
    ensures DistinctIds(Concluded(db, x, outcome))
  {
  }

  // ---------------------------------------------------------------- a refresh that changes no status

  /** `refreshStatus` is documented to do nothing when the status is unchanged or terminal.
      Exactly when it does nothing, apart from a ramp without an id and a failing provider:
      an unchanged status is not enough, the answer must also
      come at the time of the last poll and report no detail that differs. */
  lemma RefreshNoOpIff(db: Db, id: Id, answer: Option<StatusResult>, now: Time)
    ensures Refresh(db, id, answer, now) == db <==>
            || id !in db.ramps
            || Terminal(db.ramps[id].status)
            || db.ramps[id].providerTxId in {None, Some("")}
            || answer.None?
            || (&& MapStatus(answer.value.raw) == db.ramps[id].status
                && db.ramps[id].lastPolledAt == Some(now)
                && forall k | k in answer.value.details :: k in db.ramps[id].details && db.ramps[id].details[k] == answer.value.details[k])
  {
    if id in db.ramps && answer.Some? {
      MergeSame(db.ramps[id].details, answer.value.details);
      var db' := Refresh(db, id, answer, now);
      assert db' == db ==> db'.ramps[id] == db.ramps[id];
    }
  }

  lemma MergeSame(details: map<string, string>, reported: map<string, string>)
    ensures details + reported == details <==> forall k | k in reported :: k in details && details[k] == reported[k]
  {
    if details + reported == details {
      forall k | k in reported ensures k in details && details[k] == reported[k] {
        assert (details + reported)[k] == reported[k];
      }
    }
  }

  /** What is left of the no-op: on an unchanged status the events stay, and of the rows only
      the poll time and the details of this one are written. */
  lemma UnchangedStatusWrites(db: Db, id: Id, answer: Option<StatusResult>, now: Time)
    requires id in db.ramps && answer.Some? && MapStatus(answer.value.raw) == db.ramps[id].status
    ensures var r, db' := db.ramps[id], Refresh(db, id, answer, now);
            && db'.rows == db.rows
            && (db' == db || db'.ramps == db.ramps[id := r.(lastPolledAt := Some(now), details := r.details + answer.value.details)])
  {
  }

  /** Refreshing is idempotent up to the time of the poll: the same answer again writes that
      and nothing else. */
  lemma RefreshAgain(db: Db, id: Id, answer: Option<StatusResult>, now: Time, again: Time)
    ensures var db1 := Refresh(db, id, answer, now);
            var db2 := Refresh(db1, id, answer, again);
            && db2.rows == db1.rows
            && (db2 == db1 || db2.ramps == db1.ramps[id := db1.ramps[id].(lastPolledAt := Some(again))])
  {
    var db1 := Refresh(db, id, answer, now);
    if db1 != db {
      UnchangedStatusWrites(db1, id, answer, again);
      var r := db.ramps[id];
      assert r.details + answer.value.details + answer.value.details == r.details + answer.value.details;
    }
  }

  /** In the reachable state after one ramp has been opened, an answer that repeats its
      status still writes the row. */
  lemma UnchangedStatusExample()
    ensures var db := After([Initiation(0, Request(OnRamp, true, true, true), Working("transaction"), 0)]);
            var answer := StatusResult("incomplete", map[]);
            && 0 in db.ramps && MapStatus(answer.raw) == db.ramps[0].status
            && Refresh(db, 0, Some(answer), 5) != db
  {
    var db := FirstRamp("transaction");
    RefreshNoOpIff(db, 0, Some(StatusResult("incomplete", map[])), 5);
  }

  /** The state after one ramp has been opened at a provider that gives it the id `name`. */
  lemma FirstRamp(name: string) returns (db: Db)
    ensures db == After([Initiation(0, Request(OnRamp, true, true, true), Working(name), 0)])
    ensures db.ramps == map[0 := Ramp(OnRamp, PendingUserTransfer, Some(name), map[], None, None, None, 0)]
  {
    var tx := Initiation(0, Request(OnRamp, true, true, true), Working(name), 0);
    assert [tx][..0] == [] && After([]) == EMPTY;
    db := After([tx]);
    assert db == Step(EMPTY, tx);
    WorkingStarts(name);
  }

  lemma WorkingStarts(name: string)
    ensures StartOutcome(Working(name)) == Succeeded(StartResult(Some(name)))
  {
    RetryIsFirstSuccess(Working(name).authenticate, MAX_ATTEMPTS);
    RetryIsFirstSuccess(Working(name).start, MAX_ATTEMPTS);
  }

  // ---------------------------------------------------------------- what provider statuses mean

  /** The provider statuses that lead to a status of the service. */
  function Raws(s: Status): set<string> {
    match s
    case PendingUserTransfer => {"incomplete", "pending_user_transfer_start", "pending_customer_info_update"}
    case PendingAnchor => {"pending_anchor", "pending_trust", "pending_user"}
    case PendingStellar => {"pending_stellar"}
    case PendingExternal => {"pending_user_transfer_complete", "pending_external"}
    case Completed => {"completed"}
    case Refunded => {"refunded"}
    case Expired => {"expired", "too_late"}
    case Error => {}
    case Initiated => {}
  }

  /** Exactly which provider statuses lead where; all that lead nowhere else are errors, and
      none leads back to INITIATED. */
  lemma MapStatusIff(raw: string, s: Status)
    ensures s != Error ==> (MapStatus(raw) == s <==> raw in Raws(s))
    ensures MapStatus(raw) == Error <==> forall other :: raw !in Raws(other)
  {
    if raw in Raws(MapStatus(raw)) {
    } else {
      forall other ensures raw !in Raws(other) {
        match other
        case PendingUserTransfer =>
        case PendingAnchor =>
        case PendingStellar =>
        case PendingExternal =>
        case Completed =>
        case Refunded =>
        case Expired =>
        case Error =>
        case Initiated =>
      }
    }
  }

  predicate Live(db: Db, id: Id) {
    id in db.ramps && !Terminal(db.ramps[id].status) && Named(db.ramps[id])
  }

  /** What an answered refresh of a live ramp writes, column by column. It becomes COMPLETED,
      with the time, exactly when the answer is "completed", and an error, with its code,
      exactly when the answer is none of the known ones. */
  lemma RefreshWrites(db: Db, id: Id, answer: StatusResult, now: Time)
    requires Live(db, id)
    ensures var db' := Refresh(db, id, Some(answer), now);
            db'.ramps.Keys == db.ramps.Keys &&
            var r, r' := db.ramps[id], db'.ramps[id];
            && (r'.status == Completed <==> answer.raw == "completed")
            && (r'.status == Refunded <==> answer.raw == "refunded")
            && (r'.status == Expired <==> answer.raw in {"expired", "too_late"})
            && (forall s | s !in {Error, Initiated} :: r'.status == s <==> answer.raw in Raws(s))
            && r'.completedAt == (if answer.raw == "completed" then Some(now) else r.completedAt)
            && r'.failureCode == (if r'.status == Error then Some("PROVIDER_ERROR") else r.failureCode)
            && r'.lastPolledAt == Some(now)
            && r'.details == r.details + answer.details
            && r' == r.(status := r'.status, completedAt := r'.completedAt, failureCode := r'.failureCode,
                        lastPolledAt := r'.lastPolledAt, details := r'.details)
            && db'.ramps == db.ramps[id := r']
  {
    forall s: Status ensures s != Error ==> (MapStatus(answer.raw) == s <==> answer.raw in Raws(s)) {
      MapStatusIff(answer.raw, s);
    }
  }

  /** Transaction `tx` reports a status for a live ramp. */
  predicate ReportsNow(db: Db, tx: Tx, id: Id, s: Status) {
    tx.Refreshing? && tx.id == id && Live(db, id) && tx.answer.Some? && tx.answer.value.raw in Raws(s)
  }

  predicate Reports(txs: seq<Tx>, i: nat, id: Id, s: Status)
    requires i < |txs|
  {
    ReportsNow(After(txs[..i]), txs[i], id, s)
  }

  predicate HasStatus(db: Db, id: Id, s: Status) {
    id in db.ramps && db.ramps[id].status == s
  }

  /** Over every run a ramp has ended as COMPLETED, REFUNDED or EXPIRED exactly when the
      provider once said so while it was live. */
  lemma {:induction false} EndedAsReported(txs: seq<Tx>, id: Id, s: Status)
    requires s in {Completed, Refunded, Expired}
    ensures HasStatus(After(txs), id, s) <==> exists i | 0 <= i < |txs| :: Reports(txs, i, id, s)
  {
    if txs != [] {
      var n := |txs| - 1;
      EndedAsReported(txs[..n], id, s);
      EndStep(After(txs[..n]), txs[n], id, s);
      forall i | 0 <= i < n ensures Reports(txs[..n], i, id, s) == Reports(txs, i, id, s) {
        assert txs[..n][..i] == txs[..i];
      }
      assert Reports(txs, n, id, s) == ReportsNow(After(txs[..n]), txs[n], id, s);
      if HasStatus(After(txs[..n]), id, s) {
        var i :| 0 <= i < n && Reports(txs[..n], i, id, s);
        assert Reports(txs, i, id, s);
      }
    }
  }

  lemma EndStep(db: Db, tx: Tx, id: Id, s: Status)
    requires s in {Completed, Refunded, Expired}
    ensures HasStatus(Step(db, tx), id, s) <==> HasStatus(db, id, s) || ReportsNow(db, tx, id, s)
  {
    match tx
    case Refreshing(x, answer, now) =>
      if answer.Some? && Live(db, x) {
        RefreshWrites(db, x, answer.value, now);
      }
    case Initiation(x, r, provider, now) =>
      if x !in db.ramps {
        InitiateIff(db, x, r, provider, now);
      }
  }

  /** The completion time is the time of that report. */
  lemma CompletedWhenReported(txs: seq<Tx>, id: Id, i: nat)
    requires i < |txs| && Reports(txs, i, id, Completed)
    ensures id in After(txs).ramps && After(txs).ramps[id].completedAt == Some(txs[i].now)
  {
    assert txs[..i + 1][..i] == txs[..i] && txs[..|txs|] == txs;
    RefreshWrites(After(txs[..i]), id, txs[i].answer.value, txs[i].now);
    TerminalAbsorbing(txs, i + 1, |txs|, id);
  }

  /** The poller is named as the source of every status change and of nothing else. */
  lemma {:induction false} SourcesTell(txs: seq<Tx>, k: nat)
    requires k < |After(txs).rows|
    ensures var row := After(txs).rows[k];
            row.source == if row.event.StatusChanged? then Poller else System
  {
    if txs != [] {
      var n := |txs| - 1;
      if k < |After(txs[..n]).rows| {
        SourcesTell(txs[..n], k);
      }
      NewSources(After(txs[..n]), txs[n], k);
    }
  }

  lemma NewSources(db: Db, tx: Tx, k: nat)
    requires k < |Step(db, tx).rows|
    ensures var row := Step(db, tx).rows[k];
            if k < |db.rows| then row == db.rows[k]
            else row.source == if row.event.StatusChanged? then Poller else System
  {
    StepAppends(db, tx, 0);
  }
}
