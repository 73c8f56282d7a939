/** The reconciliation poller: every pass refreshes the twenty eligible ramps that were
    polled longest ago. */
module RampPoller {
  import opened Host
  import opened Ramps
  import RampsService

  const BATCH: nat := 20
  const MAX_AGE: Time := 1000 * 60 * 60 * 24

  predicate Eligible(r: Ramp, now: Time) {
    && r.status in {PendingUserTransfer, PendingAnchor, PendingStellar, PendingExternal}
    && r.providerTxId.Some?
    && now - MAX_AGE <= r.createdAt
  }

  function EligibleIds(db: Db, now: Time): set<Id> {
    set id | id in db.ramps && Eligible(db.ramps[id], now)
  }

  /** In reachable states the query selects from all ramps that have not ended, whose id is
      set and that were opened within the last 24 hours, the bound included. */
  lemma EligibleIff(txs: seq<Tx>, id: Id, now: Time)
    ensures var db := After(txs);
            id in EligibleIds(db, now) <==>
            && id in db.ramps
            && db.ramps[id].status !in {Completed, Refunded, Expired, Error}
            && db.ramps[id].providerTxId != None
            && now - db.ramps[id].createdAt <= 24 * 60 * 60 * 1000
  {
    TrailReplays(txs, id);
  }

  /** Never polled comes first, then the oldest poll. */
  predicate PolledNoLater(a: Ramp, b: Ramp) {
    a.lastPolledAt.None? || (b.lastPolledAt.Some? && a.lastPolledAt.value <= b.lastPolledAt.value)
  }

  /** A legal answer of the query: up to twenty distinct eligible ramps in polling order,
      none of the others coming before them. Ties are broken in any way. */
  ghost predicate IsBatch(db: Db, now: Time, batch: seq<Id>) {
    && (forall i, j | 0 <= i < j < |batch| :: batch[i] != batch[j])
    && (forall i | 0 <= i < |batch| :: batch[i] in EligibleIds(db, now))
    && |batch| == (if |EligibleIds(db, now)| <= BATCH then |EligibleIds(db, now)| else BATCH)
    && (forall i, j | 0 <= i < j < |batch| :: PolledNoLater(db.ramps[batch[i]], db.ramps[batch[j]]))
    && (forall b, e | b in batch && e in EligibleIds(db, now) && e !in batch :: PolledNoLater(db.ramps[b], db.ramps[e]))
  }

  /** The query always has a legal answer. */
  lemma BatchExists(db: Db, now: Time)
    ensures exists batch :: IsBatch(db, now, batch)
  {
    var all := EligibleIds(db, now);
    var batch := OldestFirst(db, all, if |all| <= BATCH then |all| else BATCH);
    assert IsBatch(db, now, batch);
  }

  lemma {:induction false} OldestFirst(db: Db, candidates: set<Id>, n: nat) returns (batch: seq<Id>)
    requires candidates <= db.ramps.Keys && n <= |candidates|
    ensures |batch| == n
    ensures forall i | 0 <= i < n :: batch[i] in candidates
    ensures forall i, j | 0 <= i < j < n :: batch[i] != batch[j] && PolledNoLater(db.ramps[batch[i]], db.ramps[batch[j]])
    ensures forall i, e | 0 <= i < n && e in candidates && e !in batch :: PolledNoLater(db.ramps[batch[i]], db.ramps[e])
    decreases n
  {
    if n == 0 {
      batch := [];
    } else {
      var first := Oldest(db, candidates);
      var rest := OldestFirst(db, candidates - {first}, n - 1);
      batch := [first] + rest;
    }
  }

  lemma {:induction false} Oldest(db: Db, candidates: set<Id>) returns (first: Id)
    requires candidates <= db.ramps.Keys && candidates != {}
    ensures first in candidates
    ensures forall e | e in candidates :: PolledNoLater(db.ramps[first], db.ramps[e])
    decreases candidates
  {
    first :| first in candidates;
    if candidates != {first} {
      var other := Oldest(db, candidates - {first});
      if !PolledNoLater(db.ramps[first], db.ramps[other]) {
        first := other;
      }
    }
  }

  datatype Poll = Poll(answer: Option<StatusResult>, at: Time)

  /** One pass of the poller: when it runs, what it selects, how the refresh of each ramp
      turns out. */
  datatype Pass = Pass(now: Time, batch: seq<Id>, poll: Id -> Poll)

  function Refreshed(db: Db, batch: seq<Id>, poll: Id -> Poll): Db {
    if batch == [] then db
    else
      var id := batch[|batch| - 1];
      Refresh(Refreshed(db, batch[..|batch| - 1], poll), id, poll(id).answer, poll(id).at)
  }

  class Reconciliation {
    const service: RampsService.Service

    constructor (service: RampsService.Service)
      ensures this.service == service
    {
      this.service := service;
    }

    /** One pass: run the query, then refresh what it selected, one ramp after the other. A
        failing refresh does not stop the batch. `query` is the database, which gives some
        legal answer, `poll` how the refresh of each ramp turns out. */
    method ReconcilePending(now: Time, query: (Db, Time) -> seq<Id>, poll: Id -> Poll) returns (pending: seq<Id>)
      requires IsBatch(service.State(), now, query(service.State(), now))
      modifies service
      ensures IsBatch(old(service.State()), now, pending)
      ensures service.State() == Refreshed(old(service.State()), pending, poll)
    {
      pending := query(Db(service.ramps, service.rows), now);
      if |pending| == 0 {
        return;
      }
      for i := 0 to |pending|
        invariant service.State() == Refreshed(old(service.State()), pending[..i], poll)
      {
        assert pending[..i + 1][..i] == pending[..i];
        var _ := service.RefreshStatus(pending[i], poll(pending[i]).answer, poll(pending[i]).at);
      }
      assert pending[..|pending|] == pending;
    }
  }

  // ---------------------------------------------------------------- one pass

  predicate PolledSince(r: Ramp, start: Time) {
    r.lastPolledAt.Some? && start < r.lastPolledAt.value
  }

  /** Whether a refresh marks the ramp as polled. It does not when the provider fails, and not
      when the id is the empty string, which the query selects and `refreshStatus` skips. */
  predicate Marked(db: Db, poll: Id -> Poll, id: Id) {
    id in db.ramps && Named(db.ramps[id]) && poll(id).answer.Some?
  }

  /** How a pass may turn out when it leaves no ramp outside `failing` unmarked, and marks
      after `start`. */
  predicate Succeeds(db: Db, p: Pass, failing: set<Id>, start: Time) {
    forall id | id in p.batch :: if Marked(db, p.poll, id) then start < p.poll(id).at else id in failing
  }

  /** The ramps with the empty string as their id. */
  function Nameless(db: Db): set<Id> {
    set id | id in db.ramps && db.ramps[id].providerTxId == Some("")
  }

  predicate Pollable(db: Db, id: Id) {
    id in db.ramps && !Terminal(db.ramps[id].status) && db.ramps[id].providerTxId.Some?
  }

  /** A pass leaves every ramp it does not select alone. A ramp it selects is polled, or is
      left alone because its refresh failed or it has no id to ask about. */
  lemma {:induction false} PassPolls(db: Db, p: Pass, failing: set<Id>, start: Time, id: Id)
    requires Succeeds(db, p, failing, start) && id in db.ramps
    requires forall i, j | 0 <= i < j < |p.batch| :: p.batch[i] != p.batch[j]
    requires forall i | 0 <= i < |p.batch| :: Pollable(db, p.batch[i])
    ensures var db' := Refreshed(db, p.batch, p.poll);
            && id in db'.ramps
            && (db'.ramps[id] == db.ramps[id] || (id in p.batch && PolledSince(db'.ramps[id], start)))
            && (id in p.batch && id !in failing ==> PolledSince(db'.ramps[id], start))
    decreases |p.batch|
  {
    if p.batch != [] {
      var n := |p.batch| - 1;
      var q := Pass(p.now, p.batch[..n], p.poll);
      var last := p.batch[n];
      assert Pollable(db, last);
      PassPolls(db, q, failing, start, id);
      PassPolls(db, q, failing, start, last);
      assert id in p.batch <==> id in q.batch || id == last;
      RefreshPolls(Refreshed(db, q.batch, q.poll), last, p.poll(last), start);
    }
  }

  lemma RefreshPolls(db: Db, id: Id, poll: Poll, start: Time)
    requires Pollable(db, id) && (Named(db.ramps[id]) && poll.answer.Some? ==> start < poll.at)
    ensures var db' := Refresh(db, id, poll.answer, poll.at);
            if Named(db.ramps[id]) && poll.answer.Some? then db'.ramps == db.ramps[id := db'.ramps[id]] && PolledSince(db'.ramps[id], start)
            else db' == db
  {
  }

  lemma CardinalityBound<A>(small: set<A>, large: set<A>)
    requires small <= large
    ensures |small| <= |large|
  {
    assert large == small + (large - small);
  }

  function Elements(batch: seq<Id>): set<Id> { set id | id in batch }

  lemma {:induction false} ElementsCount(batch: seq<Id>)
    requires forall i, j | 0 <= i < j < |batch| :: batch[i] != batch[j]
    ensures |Elements(batch)| == |batch|
  {
    if batch != [] {
      var n := |batch| - 1;
      ElementsCount(batch[..n]);
      assert batch == batch[..n] + [batch[n]];
      assert Elements(batch) == Elements(batch[..n]) + {batch[n]};
    }
  }

  // ---------------------------------------------------------------- waiting for one's turn

  /** The eligible ramps, `e` among them, that the polling order does not put after `e`. */
  function Ahead(db: Db, now: Time, e: Id): set<Id>
    requires e in db.ramps
  {
    set id | id in EligibleIds(db, now) && PolledNoLater(db.ramps[id], db.ramps[e])
  }

  /** The failing ramps ahead of `e`. */
  function Blockers(db: Db, now: Time, failing: set<Id>, e: Id): set<Id>
    requires e in db.ramps
  {
    Ahead(db, now, e) * failing
  }

  /** The ramps whose turn comes no later than that of `e`, failing ones left out. */
  function Turn(db: Db, now: Time, failing: set<Id>, e: Id): set<Id>
    requires e in db.ramps
  {
    Ahead(db, now, e) - failing
  }

  /** A batch without an eligible `e` consists of twenty ramps ahead of `e`. */
  lemma BatchAhead(db: Db, now: Time, batch: seq<Id>, e: Id)
    requires IsBatch(db, now, batch) && e in EligibleIds(db, now) && e !in batch
    ensures Elements(batch) <= Ahead(db, now, e) && |Elements(batch)| == BATCH
  {
    ElementsCount(batch);
    var all := EligibleIds(db, now);
    assert Elements(batch) <= all - {e};
    CardinalityBound(Elements(batch), all - {e});
  }

  /** After a pass that did not select `e`, nobody new is ahead of `e`, and those that were
      selected and did not fail are behind it. */
  lemma ServedGoBehind(db: Db, p: Pass, failing: set<Id>, start: Time, later: Time, e: Id)
    requires IsBatch(db, p.now, p.batch) && Succeeds(db, p, failing, start) && p.now <= later
    requires e in EligibleIds(db, p.now) && e !in p.batch && !PolledSince(db.ramps[e], start)
    ensures var db' := Refreshed(db, p.batch, p.poll);
            && e in db'.ramps && db'.ramps[e] == db.ramps[e]
            && Ahead(db', later, e) <= Ahead(db, p.now, e)
            && Turn(db', later, failing, e) <= Turn(db, p.now, failing, e) - Elements(p.batch)
  {
    var db' := Refreshed(db, p.batch, p.poll);
    PassPolls(db, p, failing, start, e);
    RefreshedKeys(db, p.batch, p.poll);
    forall id | id in Ahead(db', later, e) ensures id in Ahead(db, p.now, e) && (id in p.batch ==> id in failing) {
      PassPolls(db, p, failing, start, id);
    }
  }

  lemma {:induction false} RefreshedKeys(db: Db, batch: seq<Id>, poll: Id -> Poll)
    ensures Refreshed(db, batch, poll).ramps.Keys == db.ramps.Keys
  {
    if batch != [] {
      RefreshedKeys(db, batch[..|batch| - 1], poll);
    }
  }

  lemma {:induction false} RefreshedNames(db: Db, batch: seq<Id>, poll: Id -> Poll)
    ensures Nameless(Refreshed(db, batch, poll)) == Nameless(db)
  {
    if batch != [] {
      var n, id := |batch| - 1, batch[|batch| - 1];
      RefreshedNames(db, batch[..n], poll);
      RefreshNames(Refreshed(db, batch[..n], poll), id, poll(id));
    }
  }

  lemma RefreshNames(db: Db, id: Id, poll: Poll)
    ensures Nameless(Refresh(db, id, poll.answer, poll.at)) == Nameless(db)
  {
  }

  lemma ServedCount<A>(left: set<A>, turn: set<A>, blockers: set<A>, served: set<A>)
    requires served <= turn + blockers && turn !! blockers && left <= turn - served
    ensures |left| <= |turn| - (|served| - |blockers|)
  {
    CardinalityBound(left, turn - served);
    CardinalityBound(served * blockers, blockers);
    assert served == served * turn + served * blockers;
    assert turn == (turn - served) + served * turn;
  }

  /** A pass that does not select `e` serves twenty ramps ahead of it, all but the blockers
      for good. */
  lemma PassServesTwenty(db: Db, p: Pass, failing: set<Id>, start: Time, later: Time, e: Id)
    requires IsBatch(db, p.now, p.batch) && Succeeds(db, p, failing, start) && p.now <= later
    requires e in EligibleIds(db, p.now) && e !in p.batch && !PolledSince(db.ramps[e], start)
    ensures var db' := Refreshed(db, p.batch, p.poll);
            && e in db'.ramps && db'.ramps[e] == db.ramps[e]
            && Ahead(db', later, e) <= Ahead(db, p.now, e)
            && |Turn(db', later, failing, e)| <= |Turn(db, p.now, failing, e)| - (BATCH - |Blockers(db, p.now, failing, e)|)
  {
    BatchAhead(db, p.now, p.batch, e);
    ServedGoBehind(db, p, failing, start, later, e);
    ServedCount(Turn(Refreshed(db, p.batch, p.poll), later, failing, e), Turn(db, p.now, failing, e),
                Blockers(db, p.now, failing, e), Elements(p.batch));
  }

  // ---------------------------------------------------------------- fairness

  function Passed(db: Db, passes: seq<Pass>): Db {
    if passes == [] then db
    else
      var p := passes[|passes| - 1];
      Refreshed(Passed(db, passes[..|passes| - 1]), p.batch, p.poll)
  }

  /** The time of the last pass, or `first` before any. */
  function Clock(first: Time, passes: seq<Pass>): Time {
    if passes == [] then first else passes[|passes| - 1].now
  }

  /** Passes one after another: each selects a legal batch, only ramps in `failing` may stay
      unmarked when selected, the clock never goes back and only the poller touches the ramps. */
  ghost predicate Undisturbed(db: Db, first: Time, passes: seq<Pass>, failing: set<Id>, start: Time) {
    passes == [] ||
      var n, p := |passes| - 1, passes[|passes| - 1];
      && Undisturbed(db, first, passes[..n], failing, start)
      && Clock(first, passes[..n]) <= p.now
      && IsBatch(Passed(db, passes[..n]), p.now, p.batch)
      && Succeeds(Passed(db, passes[..n]), p, failing, start)
  }

  lemma PassAppend(db: Db, first: Time, passes: seq<Pass>, p: Pass, failing: set<Id>, start: Time)
    requires Undisturbed(db, first, passes, failing, start) && Clock(first, passes) <= p.now
    requires IsBatch(Passed(db, passes), p.now, p.batch) && Succeeds(Passed(db, passes), p, failing, start)
    ensures Undisturbed(db, first, passes + [p], failing, start)
    ensures Passed(db, passes + [p]) == Refreshed(Passed(db, passes), p.batch, p.poll)
  {
    assert (passes + [p])[..|passes|] == passes;
  }

  /** Where a ramp stands that was waiting when the passes began: polled, no longer eligible,
      or unchanged, with nobody new ahead of it and fewer ramps to be served before it. */
  ghost predicate Standing(db: Db, db': Db, k: nat, failing: set<Id>, start: Time, first: Time, later: Time, e: Id)
    requires e in db.ramps
  {
    && e in db'.ramps
    && (|| PolledSince(db'.ramps[e], start)
        || !Eligible(db'.ramps[e], later)
        || (&& db'.ramps[e] == db.ramps[e]
            && Ahead(db', later, e) <= Ahead(db, first, e)
            && |Turn(db', later, failing, e)| <= |Turn(db, first, failing, e)| - (BATCH - |Blockers(db, first, failing, e)|) * k))
  }

  lemma {:induction false} TurnComes(db: Db, first: Time, passes: seq<Pass>, failing: set<Id>, start: Time, later: Time, e: Id)
    requires Undisturbed(db, first, passes, failing, start) && e in db.ramps && e !in failing
    requires Clock(first, passes) <= later
    ensures Standing(db, Passed(db, passes), |passes|, failing, start, first, later, e)
    decreases |passes|
  {
    if passes == [] {
      AheadShrinksWithTime(db, failing, first, later, e);
    } else {
      var n, p := |passes| - 1, passes[|passes| - 1];
      TurnComes(db, first, passes[..n], failing, start, p.now, e);
      TurnStep(db, Passed(db, passes[..n]), n, p, failing, start, first, later, e);
    }
  }

  lemma AheadShrinksWithTime(db: Db, failing: set<Id>, first: Time, later: Time, e: Id)
    requires e in db.ramps && first <= later
    ensures Ahead(db, later, e) <= Ahead(db, first, e)
    ensures |Turn(db, later, failing, e)| <= |Turn(db, first, failing, e)|
  {
    CardinalityBound(Turn(db, later, failing, e), Turn(db, first, failing, e));
  }

  lemma TurnStep(db: Db, db1: Db, k: nat, p: Pass, failing: set<Id>, start: Time, first: Time, later: Time, e: Id)
    requires e in db.ramps && e !in failing && p.now <= later
    requires Standing(db, db1, k, failing, start, first, p.now, e)
    requires IsBatch(db1, p.now, p.batch) && Succeeds(db1, p, failing, start)
    ensures Standing(db, Refreshed(db1, p.batch, p.poll), k + 1, failing, start, first, later, e)
  {
    PassPolls(db1, p, failing, start, e);
    if e !in p.batch && e in EligibleIds(db1, p.now) && !PolledSince(db1.ramps[e], start) {
      PassServesTwenty(db1, p, failing, start, later, e);
      var b0, b1 := Blockers(db, first, failing, e), Blockers(db1, p.now, failing, e);
      assert b1 <= b0;
      CardinalityBound(b1, b0);
      assert (BATCH - |b0|) * (k + 1) == (BATCH - |b0|) * k + (BATCH - |b0|);
    }
  }

  /** A ramp that does not fail gets its turn as long as fewer than twenty failing ramps are
      ahead of it: after enough passes for the ramps ahead, at twenty less the blockers a
      pass, it has been polled or is no longer eligible. */
  lemma PolledInTurn(db: Db, first: Time, passes: seq<Pass>, failing: set<Id>, start: Time, e: Id, later: Time)
    requires Undisturbed(db, first, passes, failing, start) && Clock(first, passes) <= later
    requires e in EligibleIds(db, first) && e !in failing
    requires |Turn(db, first, failing, e)| <= (BATCH - |Blockers(db, first, failing, e)|) * |passes|
    ensures var db' := Passed(db, passes);
            e in db'.ramps && (PolledSince(db'.ramps[e], start) || !Eligible(db'.ramps[e], later))
  {
    TurnComes(db, first, passes, failing, start, later, e);
    var db' := Passed(db, passes);
    if Eligible(db'.ramps[e], later) {
      assert e in Turn(db', later, failing, e);
    }
  }

  /** With N ramps eligible at first that do not fail, and F < 20 that may or have no id,
      every one of the N has been polled or left eligibility after k passes with (20 - F) k >= N. When none
      fails this is N / 20 passes, rounded up. */
  lemma EveryRampPolled(db: Db, first: Time, passes: seq<Pass>, failing: set<Id>, start: Time, e: Id, later: Time)
    requires Undisturbed(db, first, passes, failing, start) && Clock(first, passes) <= later
    requires |failing| < 20
    requires |EligibleIds(db, first) - failing| <= (20 - |failing|) * |passes|
    requires e in EligibleIds(db, first) && e !in failing
    ensures var db' := Passed(db, passes);
            e in db'.ramps && (PolledSince(db'.ramps[e], start) || !Eligible(db'.ramps[e], later))
  {
    QueueBound(db, first, failing, e, |passes|);
    PolledInTurn(db, first, passes, failing, start, e, later);
  }

  lemma QueueBound(db: Db, first: Time, failing: set<Id>, e: Id, k: nat)
    requires e in db.ramps && |failing| < BATCH
    requires |EligibleIds(db, first) - failing| <= (BATCH - |failing|) * k
    ensures |Turn(db, first, failing, e)| <= (BATCH - |Blockers(db, first, failing, e)|) * k
  {
    var blockers, turn := Blockers(db, first, failing, e), Turn(db, first, failing, e);
    CardinalityBound(blockers, failing);
    CardinalityBound(turn, EligibleIds(db, first) - failing);
    MoreServed(BATCH - |failing|, BATCH - |blockers|, k);
  }

  lemma MoreServed(a: nat, b: nat, k: nat)
    requires a <= b
    ensures a * k <= b * k
  {
  }

  // ---------------------------------------------------------------- failures that move about

  /** The selected ramps that a pass leaves unmarked. */
  function Unmarked(db: Db, p: Pass): set<Id> {
    set id | id in p.batch && !Marked(db, p.poll, id)
  }

  /** Each pass leaves at most `f` ramps unmarked, not always the same ones. */
  ghost predicate FewUnmarked(db: Db, passes: seq<Pass>, f: nat) {
    passes == [] ||
      var n := |passes| - 1;
      FewUnmarked(db, passes[..n], f) && |Unmarked(Passed(db, passes[..n]), passes[n])| <= f
  }

  /** A pass that does not select `e` puts all it marks behind `e`, whatever fails. */
  lemma PassTakesAhead(db: Db, p: Pass, failing: set<Id>, start: Time, later: Time, e: Id)
    requires IsBatch(db, p.now, p.batch) && Succeeds(db, p, failing, start) && p.now <= later
    requires e in EligibleIds(db, p.now) && e !in p.batch && !PolledSince(db.ramps[e], start)
    ensures var db' := Refreshed(db, p.batch, p.poll);
            && e in db'.ramps && db'.ramps[e] == db.ramps[e]
            && |Ahead(db', later, e)| <= |Ahead(db, p.now, e)| - (BATCH - |Unmarked(db, p)|)
  {
    var unmarked, batch := Unmarked(db, p), Elements(p.batch);
    BatchAhead(db, p.now, p.batch, e);
    ServedGoBehind(db, p, unmarked, start, later, e);
    TakenCount(Ahead(Refreshed(db, p.batch, p.poll), later, e), Ahead(db, p.now, e), unmarked, batch);
  }

  lemma TakenCount<A>(left: set<A>, ahead: set<A>, unmarked: set<A>, batch: set<A>)
    requires unmarked <= batch <= ahead && left <= ahead && left - unmarked <= ahead - unmarked - batch
    ensures |left| <= |ahead| - (|batch| - |unmarked|)
  {
    CardinalityBound(left, ahead - (batch - unmarked));
    assert ahead == (ahead - (batch - unmarked)) + (batch - unmarked);
    assert batch == (batch - unmarked) + unmarked;
  }

  /** Where a waiting ramp stands after `k` passes that leave at most `f` unmarked each. */
  ghost predicate Nearing(db: Db, db': Db, k: nat, f: nat, start: Time, first: Time, later: Time, e: Id)
    requires e in db.ramps
  {
    && e in db'.ramps
    && (|| PolledSince(db'.ramps[e], start)
        || !Eligible(db'.ramps[e], later)
        || |Ahead(db', later, e)| <= |Ahead(db, first, e)| - (BATCH - f) * k)
  }

  lemma {:induction false} NearingKept(db: Db, first: Time, passes: seq<Pass>, failing: set<Id>, f: nat, start: Time, later: Time, e: Id)
    requires Undisturbed(db, first, passes, failing, start) && FewUnmarked(db, passes, f)
    requires e in db.ramps && e !in failing && Clock(first, passes) <= later
    ensures Nearing(db, Passed(db, passes), |passes|, f, start, first, later, e)
    decreases |passes|
  {
    if passes == [] {
      CardinalityBound(Ahead(db, later, e), Ahead(db, first, e));
    } else {
      var n, p := |passes| - 1, passes[|passes| - 1];
      NearingKept(db, first, passes[..n], failing, f, start, p.now, e);
      NearingStep(db, Passed(db, passes[..n]), n, p, failing, f, start, first, later, e);
    }
  }

  lemma NearingStep(db: Db, db1: Db, k: nat, p: Pass, failing: set<Id>, f: nat, start: Time, first: Time, later: Time, e: Id)
    requires e in db.ramps && e !in failing && p.now <= later
    requires Nearing(db, db1, k, f, start, first, p.now, e)
    requires IsBatch(db1, p.now, p.batch) && Succeeds(db1, p, failing, start) && |Unmarked(db1, p)| <= f
    ensures Nearing(db, Refreshed(db1, p.batch, p.poll), k + 1, f, start, first, later, e)
  {
    PassPolls(db1, p, failing, start, e);
    if e !in p.batch && e in EligibleIds(db1, p.now) && !PolledSince(db1.ramps[e], start) {
      PassTakesAhead(db1, p, failing, start, later, e);
      assert (BATCH - f) * (k + 1) == (BATCH - f) * k + (BATCH - f);
    }
  }

  /** Failures may move from ramp to ramp, and every ramp but `e` may fail at one time or
      another: with at most f < 20 of them a pass, `e` has been polled or left eligibility
      after k passes with (20 - f) k >= the number of ramps not behind it at first. */
  lemma PolledDespiteFailures(db: Db, first: Time, passes: seq<Pass>, failing: set<Id>, f: nat, start: Time, e: Id, later: Time)
    requires Undisturbed(db, first, passes, failing, start) && FewUnmarked(db, passes, f)
    requires Clock(first, passes) <= later
    requires e in EligibleIds(db, first) && e !in failing
    requires |Ahead(db, first, e)| <= (20 - f) * |passes|
    ensures var db' := Passed(db, passes);
            e in db'.ramps && (PolledSince(db'.ramps[e], start) || !Eligible(db'.ramps[e], later))
  {
    NearingKept(db, first, passes, failing, f, start, later, e);
    var db' := Passed(db, passes);
    if Eligible(db'.ramps[e], later) {
      assert e in Ahead(db', later, e);
    }
  }

  // ---------------------------------------------------------------- where fairness ends

  /** Passes at the given times can go by without `e` ever being selected, although no ramp
      outside `failing` is left unmarked. */
  ghost predicate Starvable(db: Db, first: Time, nows: seq<Time>, failing: set<Id>, start: Time, e: Id) {
    exists passes :: Undisturbed(db, first, passes, failing, start) && Skips(passes, nows, e)
  }

  predicate Skips(passes: seq<Pass>, nows: seq<Time>, e: Id) {
    && |passes| == |nows|
    && forall i | 0 <= i < |passes| :: passes[i].now == nows[i] && e !in passes[i].batch
  }

  predicate Forward(first: Time, nows: seq<Time>) {
    && (forall i | 0 <= i < |nows| :: first <= nows[i])
    && (forall i, j | 0 <= i < j < |nows| :: nows[i] <= nows[j])
  }

  /** With twenty blockers ahead of `e` there is a legal batch without `e`. */
  lemma BlockedBatch(db: Db, now: Time, blockers: set<Id>, e: Id) returns (batch: seq<Id>)
    requires e in db.ramps && BATCH <= |blockers| && e !in blockers && blockers <= Ahead(db, now, e)
    ensures IsBatch(db, now, batch) && e !in batch
  {
    var all := EligibleIds(db, now);
    CardinalityBound(blockers, all - {e});
    CardinalityBound(all - {e}, all);
    batch := OldestFirst(db, all - {e}, BATCH);
    if e in all {
      assert all == (all - {e}) + {e};
      BlockedOrder(db, now, blockers, e, batch);
    } else {
      assert all - {e} == all;
    }
  }

  lemma BlockedOrder(db: Db, now: Time, blockers: set<Id>, e: Id, batch: seq<Id>)
    requires e in db.ramps && BATCH <= |blockers| && blockers <= Ahead(db, now, e) && e !in blockers
    requires |batch| == BATCH && forall i | 0 <= i < |batch| :: batch[i] in EligibleIds(db, now)
    requires forall i, j | 0 <= i < j < |batch| :: batch[i] != batch[j]
    requires forall i, x | 0 <= i < |batch| && x in EligibleIds(db, now) - {e} && x !in batch :: PolledNoLater(db.ramps[batch[i]], db.ramps[x])
    ensures forall i | 0 <= i < |batch| :: PolledNoLater(db.ramps[batch[i]], db.ramps[e])
  {
    ElementsCount(batch);
    if f :| f in blockers && f !in batch {
      forall i | 0 <= i < |batch| ensures PolledNoLater(db.ramps[batch[i]], db.ramps[e]) {
        assert PolledNoLater(db.ramps[batch[i]], db.ramps[f]);
      }
    } else {
      assert blockers <= Elements(batch);
      SameSize(blockers, Elements(batch));
      forall i | 0 <= i < |batch| ensures PolledNoLater(db.ramps[batch[i]], db.ramps[e]) {
        assert batch[i] in blockers;
      }
    }
  }

  lemma SameSize<A>(small: set<A>, large: set<A>)
    requires small <= large && |large| <= |small|
    ensures small == large
  {
    assert large == small + (large - small);
    assert |large - small| == 0;
  }

  /** The pass in which exactly the failing ramps of the batch fail. */
  function FailingPass(now: Time, batch: seq<Id>, failing: set<Id>, start: Time): Pass {
    Pass(now, batch, id => if id in failing then Poll(None, start) else Poll(Some(StatusResult("incomplete", map[])), start + 1))
  }

  lemma FailingPassSucceeds(db: Db, now: Time, batch: seq<Id>, failing: set<Id>, start: Time)
    requires Nameless(db) <= failing && IsBatch(db, now, batch)
    ensures Succeeds(db, FailingPass(now, batch, failing, start), failing, start)
  {
  }

  /** A ramp that is not selected or not marked is left as it was. */
  lemma {:induction false} UnmarkedUntouched(db: Db, batch: seq<Id>, poll: Id -> Poll, id: Id)
    requires id in db.ramps && (id in batch ==> !Marked(db, poll, id))
    ensures id in Refreshed(db, batch, poll).ramps && Refreshed(db, batch, poll).ramps[id] == db.ramps[id]
  {
    if batch != [] {
      UnmarkedUntouched(db, batch[..|batch| - 1], poll, id);
    }
  }

  /** Twenty failing ramps ahead of `e` keep it from being selected at any number of passes,
      as long as they stay eligible. The ramps without an id count as failing. */
  lemma {:induction false} TwentyStarve(db: Db, first: Time, nows: seq<Time>, failing: set<Id>, blockers: set<Id>, start: Time, e: Id)
      returns (passes: seq<Pass>)
    requires e in db.ramps && e !in failing && blockers <= failing && BATCH <= |blockers|
    requires Forward(first, nows) && Nameless(db) <= failing
    requires forall i | 0 <= i < |nows| :: blockers <= Ahead(db, nows[i], e)
    ensures Undisturbed(db, first, passes, failing, start) && Skips(passes, nows, e)
    ensures Waits(db, Passed(db, passes), blockers, e)
    decreases |nows|
  {
    passes := [];
    if nows != [] {
      var n := |nows| - 1;
      var earlier := TwentyStarve(db, first, nows[..n], failing, blockers, start, e);
      var p := StarvePass(db, first, earlier, nows[n], failing, blockers, start, e);
      passes := earlier + [p];
      SkipsAppend(earlier, p, nows, e);
    }
  }

  lemma SkipsAppend(passes: seq<Pass>, p: Pass, nows: seq<Time>, e: Id)
    requires nows != [] && Skips(passes, nows[..|nows| - 1], e) && p.now == nows[|nows| - 1] && e !in p.batch
    ensures Skips(passes + [p], nows, e)
  {
  }

  /** The ramp and those that block it are as they were, and nobody has lost its id. */
  predicate Waits(db: Db, db': Db, blockers: set<Id>, e: Id) {
    Nameless(db') == Nameless(db) &&
    forall id | id in db.ramps && (id == e || id in blockers) :: id in db'.ramps && db'.ramps[id] == db.ramps[id]
  }

  lemma StarvePass(db: Db, first: Time, passes: seq<Pass>, now: Time, failing: set<Id>, blockers: set<Id>, start: Time, e: Id)
      returns (p: Pass)
    requires e in db.ramps && e !in failing && blockers <= failing && BATCH <= |blockers| && blockers <= Ahead(db, now, e)
    requires Undisturbed(db, first, passes, failing, start) && Clock(first, passes) <= now
    requires Waits(db, Passed(db, passes), blockers, e) && Nameless(db) <= failing
    ensures p.now == now && e !in p.batch
    ensures Undisturbed(db, first, passes + [p], failing, start)
    ensures Waits(db, Passed(db, passes + [p]), blockers, e)
  {
    var db1 := Passed(db, passes);
    var batch := BlockedBatch(db1, now, blockers, e);
    p := FailingPass(now, batch, failing, start);
    RefreshedNames(db1, batch, p.poll);
    FailingPassSucceeds(db1, now, batch, failing, start);
    PassAppend(db, first, passes, p, failing, start);
    forall id | id in db.ramps && (id == e || id in blockers)
      ensures id in Passed(db, passes + [p]).ramps && Passed(db, passes + [p]).ramps[id] == db.ramps[id]
    {
      UnmarkedUntouched(db1, batch, p.poll, id);
    }
  }

  /** The exact limit of fairness. Take a waiting ramp that does not fail itself, and a
      stretch of passes at least as long as its queue in which nobody ages out: it can be
      passed over throughout exactly when twenty ramps that fail or have no id are ahead of
      it. */
  lemma StarvationIff(db: Db, first: Time, nows: seq<Time>, failing: set<Id>, start: Time, e: Id)
    requires nows != [] && Forward(first, nows)
    requires EligibleIds(db, nows[|nows| - 1]) == EligibleIds(db, first)
    requires e in EligibleIds(db, first) && e !in failing && !PolledSince(db.ramps[e], start)
    requires |Turn(db, first, failing, e)| <= |nows| && Nameless(db) <= failing
    ensures Starvable(db, first, nows, failing, start, e) <==> 20 <= |Blockers(db, first, failing, e)|
  {
    var blockers := Blockers(db, first, failing, e);
    if BATCH <= |blockers| {
      forall i | 0 <= i < |nows| ensures blockers <= Ahead(db, nows[i], e) {
        WindowEligible(db, first, nows[i], nows[|nows| - 1]);
      }
      var passes := TwentyStarve(db, first, nows, failing, blockers, start, e);
    } else {
      forall passes | Undisturbed(db, first, passes, failing, start) ensures !Skips(passes, nows, e) {
        if Skips(passes, nows, e) {
          MoreServed(1, BATCH - |blockers|, |passes|);
          PolledInTurn(db, first, passes, failing, start, e, nows[|nows| - 1]);
          SkippedUnchanged(db, passes, e);
        }
      }
    }
  }

  lemma WindowEligible(db: Db, first: Time, now: Time, last: Time)
    requires first <= now <= last && EligibleIds(db, last) == EligibleIds(db, first)
    ensures EligibleIds(db, now) == EligibleIds(db, first)
  {
    forall id | id in EligibleIds(db, first) ensures id in EligibleIds(db, now) {
      assert id in EligibleIds(db, last);
    }
  }

  lemma {:induction false} SkippedUnchanged(db: Db, passes: seq<Pass>, e: Id)
    requires e in db.ramps && forall i | 0 <= i < |passes| :: e !in passes[i].batch
    ensures e in Passed(db, passes).ramps && Passed(db, passes).ramps[e] == db.ramps[e]
  {
    if passes != [] {
      var n := |passes| - 1;
      SkippedUnchanged(db, passes[..n], e);
      UnmarkedUntouched(Passed(db, passes[..n]), passes[n].batch, passes[n].poll, e);
    }
  }

  /** Passes that select the same batch again and again. */
  function Again(nows: seq<Time>, batch: seq<Id>, poll: Id -> Poll): seq<Pass> {
    if nows == [] then []
    else Again(nows[..|nows| - 1], batch, poll) + [Pass(nows[|nows| - 1], batch, poll)]
  }

  /** A failing refresh leaves no mark, not even the time of the poll: when every ramp of a
      batch fails or has no id, the batch is a legal answer of the query pass after pass, as long as the
      same ramps are eligible, and nothing ever changes. */
  lemma {:induction false} FailuresLeaveNoMark(db: Db, first: Time, nows: seq<Time>, batch: seq<Id>, poll: Id -> Poll, start: Time)
    requires IsBatch(db, first, batch) && Forward(first, nows)
    requires forall id | id in batch :: !Marked(db, poll, id)
    requires forall i | 0 <= i < |nows| :: EligibleIds(db, nows[i]) == EligibleIds(db, first)
    ensures Undisturbed(db, first, Again(nows, batch, poll), Elements(batch), start)
    ensures Passed(db, Again(nows, batch, poll)) == db
  {
    if nows != [] {
      var n := |nows| - 1;
      FailuresLeaveNoMark(db, first, nows[..n], batch, poll, start);
      AgainClock(first, nows[..n], batch, poll);
      FailAgain(db, first, Again(nows[..n], batch, poll), nows[n], batch, poll, start);
    }
  }

  lemma AgainClock(first: Time, nows: seq<Time>, batch: seq<Id>, poll: Id -> Poll)
    ensures Clock(first, Again(nows, batch, poll)) == if nows == [] then first else nows[|nows| - 1]
  {
  }

  lemma FailAgain(db: Db, first: Time, passes: seq<Pass>, now: Time, batch: seq<Id>, poll: Id -> Poll, start: Time)
    requires Undisturbed(db, first, passes, Elements(batch), start) && Passed(db, passes) == db
    requires IsBatch(db, first, batch) && EligibleIds(db, now) == EligibleIds(db, first) && Clock(first, passes) <= now
    requires forall id | id in batch :: !Marked(db, poll, id)
    ensures var all := passes + [Pass(now, batch, poll)];
            Undisturbed(db, first, all, Elements(batch), start) && Passed(db, all) == db
  {
    SameBatch(db, first, now, batch);
    PassAppend(db, first, passes, Pass(now, batch, poll), Elements(batch), start);
    FailedPassChangesNothing(db, batch, poll);
  }

  lemma SameBatch(db: Db, now: Time, later: Time, batch: seq<Id>)
    requires IsBatch(db, now, batch) && EligibleIds(db, later) == EligibleIds(db, now)
    ensures IsBatch(db, later, batch)
  {
  }

  lemma {:induction false} FailedPassChangesNothing(db: Db, batch: seq<Id>, poll: Id -> Poll)
    requires forall id | id in batch :: !Marked(db, poll, id)
    ensures Refreshed(db, batch, poll) == db
  {
    if batch != [] {
      var last := batch[|batch| - 1];
      FailedPassChangesNothing(db, batch[..|batch| - 1], poll);
      assert !Marked(db, poll, last);
    }
  }

  // ---------------------------------------------------------------- a starved ramp

  /** Ramps 0 to n - 1, opened one after the other at a provider that works and gives each
      its own id. */
  function Crowd(n: nat): seq<Tx> {
    seq(n, i requires 0 <= i < n => Initiation(i, Request(OnRamp, true, true, true), Working(Name(i)), 0))
  }

  function Name(id: Id): string { seq(id + 1, i => 'x') }

  predicate Fresh(r: Ramp) {
    r.status == PendingUserTransfer && Named(r) && r.lastPolledAt.None? && r.createdAt == 0
  }

  predicate IsCrowd(db: Db, n: nat) {
    && |db.ramps| == n
    && forall id | id in db.ramps :: id < n && Fresh(db.ramps[id]) && db.ramps[id].providerTxId == Some(Name(id))
  }

  lemma {:induction false} CrowdWaits(n: nat)
    ensures IsCrowd(After(Crowd(n)), n)
    ensures n > 0 ==> n - 1 in After(Crowd(n)).ramps
  {
    if n > 0 {
      CrowdWaits(n - 1);
      assert Crowd(n)[..n - 1] == Crowd(n - 1) && Crowd(n) != [];
      assert After(Crowd(n)) == Step(After(Crowd(n - 1)), Crowd(n)[n - 1]);
      CrowdGrows(After(Crowd(n - 1)), n - 1);
    }
  }

  lemma CrowdGrows(db: Db, n: nat)
    requires IsCrowd(db, n)
    ensures var db' := Initiate(db, n, Request(OnRamp, true, true, true), Working(Name(n)), 0);
            IsCrowd(db', n + 1) && n in db'.ramps
  {
    WorkingStarts(Name(n));
    var all := Opened(db, n, OnRamp, 0);
    forall other | other in all.ramps ensures all.ramps[other].providerTxId != Some(Name(n)) {
      assert other != n ==> |Name(other)| != |Name(n)|;
    }
    assert Storable(all.ramps, StartOutcome(Working(Name(n))));
  }

  /** Of at least 21 fresh ramps any one can starve when all the others fail. */
  lemma FreshStarves(db: Db, nows: seq<Time>, start: Time, e: Id)
    requires e in db.ramps && BATCH < |db.ramps| && forall id | id in db.ramps :: Fresh(db.ramps[id])
    requires Forward(0, nows) && forall i | 0 <= i < |nows| :: nows[i] <= MAX_AGE
    ensures Starvable(db, 0, nows, db.ramps.Keys - {e}, start, e)
  {
    var others := db.ramps.Keys - {e};
    assert db.ramps.Keys == others + {e};
    forall i | 0 <= i < |nows| ensures others <= Ahead(db, nows[i], e) {
      FreshAhead(db, nows[i], e);
    }
    var passes := TwentyStarve(db, 0, nows, others, others, start, e);
  }

  lemma FreshAhead(db: Db, now: Time, e: Id)
    requires e in db.ramps && now <= MAX_AGE && forall id | id in db.ramps :: Fresh(db.ramps[id])
    ensures Ahead(db, now, e) == db.ramps.Keys
  {
  }

  /** In the reachable state after 21 ramps have been opened under different ids and none has been polled: when
      the provider fails for the first twenty, the last one, for which it works, need not be
      polled in any number of passes on the first day. */
  lemma TwentyFirstStarves(nows: seq<Time>, start: Time)
    requires Forward(0, nows) && forall i | 0 <= i < |nows| :: nows[i] <= MAX_AGE
    ensures var db := After(Crowd(21));
            20 in db.ramps && |db.ramps| == 21 && Starvable(db, 0, nows, db.ramps.Keys - {20}, start, 20)
  {
    CrowdWaits(21);
    FreshStarves(After(Crowd(21)), nows, start, 20);
  }

  // ---------------------------------------------------------------- a ramp without an id

  /** In the reachable state after a provider has answered with the empty string as the id,
      the query selects the ramp all day long and no refresh ever writes anything. */
  lemma EmptyIdNeverPolled(now: Time, answer: Option<StatusResult>, at: Time)
    requires now <= MAX_AGE
    ensures var db := After([Initiation(0, Request(OnRamp, true, true, true), Working(""), 0)]);
            0 in EligibleIds(db, now) && Refresh(db, 0, answer, at) == db
  {
    var db := FirstRamp("");
  }

  /** The unique index lets in one such ramp at most. */
  lemma OneNameless(txs: seq<Tx>)
    ensures |Nameless(After(txs))| <= 1
  {
    ProviderIdsDistinct(txs);
    var nameless := Nameless(After(txs));
    if a :| a in nameless {
      assert nameless == {a};
    }
  }
}
