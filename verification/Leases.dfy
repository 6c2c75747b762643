/**
 What every run promises about one outbox row: leases, attempts, backoff.
 */
module Leases {
  import opened Model
  import opened Transactions
  import opened Protocol
  import opened Invariant
  import opened TableProofs
  import opened StepProofs
  import opened Runs

  // The row of `m` at point `n` of a run.
  function Row(states: seq<State>, n: nat, m: Uuid): Message
    requires n < |states| && m in states[n].db.messages
  {
    states[n].db.messages[m]
  }

  lemma RowStepAt(cfg: Config, states: seq<State>, events: seq<Event>, n: nat, m: Uuid)
    requires IsRun(cfg, states, events) && n < |events| && m in states[n].db.messages
    ensures RowMoves(cfg, states[n], events[n], states[n + 1], m)
  {
    ReachableInv(cfg, states, events, n);
    assert StepAt(cfg, states, events, n);
    RowStep(cfg, states[n], events[n], m);
  }

  lemma RowOkAt(cfg: Config, states: seq<State>, events: seq<Event>, n: nat, m: Uuid)
    requires IsRun(cfg, states, events) && n < |states| && m in states[n].db.messages
    ensures RowOk(cfg.maxAttempts, Row(states, n, m))
  {
    ReachableInv(cfg, states, events, n);
  }

  // A claim finds the row due, and leases it.
  lemma ClaimAt(cfg: Config, states: seq<State>, events: seq<Event>, n: nat, m: Uuid)
    requires IsRun(cfg, states, events) && n < |events| && Claims(events[n], m)
    ensures m in states[n].db.messages && Due(Row(states, n, m), cfg.lockTimeout, events[n].now)
    ensures m in states[n + 1].db.messages
            && Row(states, n + 1, m) == Leased(Row(states, n, m), events[n].w, events[n].now)
  {
    assert StepAt(cfg, states, events, n);
    RowStepAt(cfg, states, events, n, m);
  }

  // While a worker holds the lease its snapshot was made with, the row is that snapshot.
  lemma HolderKnowsRow(cfg: Config, states: seq<State>, events: seq<Event>, n: nat, w: WorkerId, m: Uuid)
    requires IsRun(cfg, states, events) && n < |states| && Holds(states[n], w, m)
    ensures var d := states[n].workers[w];
            d.todo[0] == Row(states, n, m) && d.todo[0].availableAt <= d.now && d.todo[0].lockedAt == Some(d.now)
            && d.todo[0].publishedAt.None? && d.todo[0].deadLetteredAt.None?
  {
    ReachableInv(cfg, states, events, n);
    var s := states[n];
    assert DispatchOk(cfg, s.db, s.executions, w, s.workers[w]);
    assert SnapshotOk(s.db.messages, w, s.workers[w].now, s.workers[w].todo[0]);
    assert RowOk(cfg.maxAttempts, s.db.messages[m]);
  }

  // ---------------------------------------------------------------- attempts

  // How many failures of `m` the first `n` events recorded.
  function Failures(states: seq<State>, events: seq<Event>, n: nat, m: Uuid): nat
    requires n <= |events| && |states| == |events| + 1
  {
    if n == 0 then 0
    else Failures(states, events, n - 1, m) + if Fails(states[n - 1], events[n - 1], m) then 1 else 0
  }

  predicate FreshRow(m: Message) {
    (m.attemptCount, m.lockedBy, m.publishedAt, m.deadLetteredAt) == (0, None, None, None)
  }

  lemma WritesInsertNothing(cfg: Config, s: State, e: Event)
    requires e.CommitDecision? || e.CommitExecution? || e.ClaimBatch? || e.RecordFailed?
    requires Enabled(cfg, s, e)
    ensures Next(cfg, s, e).db.messages.Keys == s.db.messages.Keys
  {
    match e
    case CommitDecision(r) => assert AfterCommitDecision(s, r).db.messages == s.db.messages;
    case CommitExecution(r) => assert AfterCommitExecution(s, r).db.messages == s.db.messages;
    case ClaimBatch(w, now, _, claimed) => assert AfterClaim(s, w, now, claimed).db.messages.Keys == s.db.messages.Keys;
    case RecordFailed(w) => assert AfterRecordFailed(cfg, s, w).db.messages.Keys == s.db.messages.Keys;
  }

  lemma OnlyProposalsInsert(cfg: Config, s: State, e: Event)
    requires Enabled(cfg, s, e) && !e.CommitProposal? && Inv(cfg, s)
    ensures Next(cfg, s, e).db.messages.Keys == s.db.messages.Keys
  {
    if e.Acknowledge? {
      AcknowledgeMoves(cfg, s, e.w);
    } else if Writes(e) {
      WritesInsertNothing(cfg, s, e);
    } else {
      OthersLeaveTables(cfg, s, e);
    }
  }

  lemma FreshRowAt(cfg: Config, states: seq<State>, events: seq<Event>, n: nat, m: Uuid)
    requires IsRun(cfg, states, events) && n < |events| && m !in states[n].db.messages && m in states[n + 1].db.messages
    ensures FreshRow(Row(states, n + 1, m))
  {
    assert StepAt(cfg, states, events, n);
    ReachableInv(cfg, states, events, n);
    if !events[n].CommitProposal? {
      OnlyProposalsInsert(cfg, states[n], events[n]);
    }
  }

  // `attempt_count` is the number of recorded failures, whatever crashed in between; the message is dead-lettered
  // exactly when it reaches the maximum.
  lemma {:induction false} AttemptsCountFailures(cfg: Config, states: seq<State>, events: seq<Event>, n: nat, m: Uuid)
    requires IsRun(cfg, states, events) && n < |states|
    ensures m in states[n].db.messages ==> Row(states, n, m).attemptCount == Failures(states, events, n, m)
    ensures m !in states[n].db.messages ==> Failures(states, events, n, m) == 0
    ensures m in states[n].db.messages ==>
              && Failures(states, events, n, m) <= cfg.maxAttempts
              && (Row(states, n, m).deadLetteredAt.Some? <==> Failures(states, events, n, m) == cfg.maxAttempts)
    decreases n
  {
    if n > 0 {
      AttemptsCountFailures(cfg, states, events, n - 1, m);
      if m in states[n - 1].db.messages {
        RowStepAt(cfg, states, events, n - 1, m);
      } else if m in states[n].db.messages {
        FreshRowAt(cfg, states, events, n - 1, m);
      }
    }
    if m in states[n].db.messages {
      RowOkAt(cfg, states, events, n, m);
    }
  }

  // A published or dead-lettered message holds no lease and never changes again.
  lemma {:induction false} FinishedRowsStay(cfg: Config, states: seq<State>, events: seq<Event>, i: nat, j: nat,
                                            m: Uuid)
    requires IsRun(cfg, states, events) && i <= j < |states| && m in states[i].db.messages
    requires Row(states, i, m).publishedAt.Some? || Row(states, i, m).deadLetteredAt.Some?
    ensures Row(states, i, m).lockedBy.None?
            && (Row(states, i, m).publishedAt.None? || Row(states, i, m).deadLetteredAt.None?)
    ensures m in states[j].db.messages && Row(states, j, m) == Row(states, i, m)
    decreases j
  {
    RowOkAt(cfg, states, events, i, m);
    if i < j {
      FinishedRowsStay(cfg, states, events, i, j - 1, m);
      RowStepAt(cfg, states, events, j - 1, m);
      if Claims(events[j - 1], m) {
        ClaimAt(cfg, states, events, j - 1, m);
      }
    }
  }

  // ---------------------------------------------------------------- backoff

  // A failure is recorded against the true count, and delays the row by base * 2^count, capped.
  lemma FailureBacksOff(cfg: Config, states: seq<State>, events: seq<Event>, n: nat, m: Uuid)
    requires IsRun(cfg, states, events) && n < |events| && Fails(states[n], events[n], m)
    ensures var d := states[n].workers[events[n].w];
            var count := Failures(states, events, n, m);
            && m in states[n + 1].db.messages && d.todo[0].attemptCount == count
            && (count + 1 < cfg.maxAttempts ==>
                  Row(states, n + 1, m).availableAt == d.now + RetryDelay(cfg.retryBase, cfg.retryMax, count))
            && Row(states, n + 1, m).availableAt >= Row(states, n, m).availableAt
            && Row(states, n + 1, m).lockedBy.None?
  {
    HolderKnowsRow(cfg, states, events, n, events[n].w, m);
    AttemptsCountFailures(cfg, states, events, n, m);
    RowStepAt(cfg, states, events, n, m);
  }

  // Whatever the clocks read, a row's retry time never moves back.
  lemma {:induction false} AvailabilityNeverMovesBack(cfg: Config, states: seq<State>, events: seq<Event>, i: nat,
                                                      j: nat, m: Uuid)
    requires IsRun(cfg, states, events) && i <= j < |states| && m in states[i].db.messages
    ensures m in states[j].db.messages && Row(states, i, m).availableAt <= Row(states, j, m).availableAt
    decreases j
  {
    if i < j {
      AvailabilityNeverMovesBack(cfg, states, events, i, j - 1, m);
      RowStepAt(cfg, states, events, j - 1, m);
      if Fails(states[j - 1], events[j - 1], m) {
        FailureBacksOff(cfg, states, events, j - 1, m);
      }
    }
  }

  // After a failure that was the `count`-th (from zero), no worker claims the message before that dispatch's
  // time plus min(base * 2^count, max).
  lemma BackoffIsHonoured(cfg: Config, states: seq<State>, events: seq<Event>, i: nat, j: nat, m: Uuid)
    requires IsRun(cfg, states, events) && i < j < |events|
    requires Fails(states[i], events[i], m) && Claims(events[j], m)
    ensures var count := Failures(states, events, i, m);
            events[j].now >= states[i].workers[events[i].w].now + RetryDelay(cfg.retryBase, cfg.retryMax, count)
  {
    FailureBacksOff(cfg, states, events, i, m);
    AttemptsCountFailures(cfg, states, events, i + 1, m);
    if Row(states, i + 1, m).deadLetteredAt.Some? {
      FinishedRowsStay(cfg, states, events, i + 1, j, m);
    }
    AvailabilityNeverMovesBack(cfg, states, events, i + 1, j, m);
    ClaimAt(cfg, states, events, j, m);
  }

  lemma {:induction false} Pow2Grows(a: nat, b: nat)
    requires a <= b
    ensures Pow2(a) <= Pow2(b)
    decreases b
  {
    if a < b {
      Pow2Grows(a, b - 1);
    }
  }

  // Within the configured ranges the cap on the exponent never shortens a delay, and delays never shrink.
  lemma ExponentCapIsHarmless(base: Duration, max: Duration, attempts: nat, more: nat)
    requires 1 <= base <= 3_600 && 1 <= max <= 86_400 && attempts <= more
    ensures RetryDelay(base, max, attempts)
            == if base * Pow2(attempts) <= max then base * Pow2(attempts) else max
    ensures RetryDelay(base, max, attempts) <= RetryDelay(base, max, more)
  {
    Pow2Of20();
    BasePow(base, attempts, more);
    if attempts > 20 {
      BasePow(base, 20, attempts);
    }
    var a, b := if attempts <= 20 then attempts else 20, if more <= 20 then more else 20;
    BasePow(base, a, b);
  }

  // The first delay is the base, each failure doubles it, twenty times at most, and the maximum bounds it.
  lemma DelaysDouble(base: Duration, max: Duration, attempts: nat)
    ensures RetryDelay(base, max, 0) == if base <= max then base else max
    ensures RetryDelay(base, max, attempts + 1)
            == if attempts >= 20 then RetryDelay(base, max, attempts)
               else if 2 * RetryDelay(base, max, attempts) <= max then 2 * RetryDelay(base, max, attempts)
               else max
  {
    assert Pow2(0) == 1;
    if attempts < 20 {
      assert Pow2(attempts + 1) == 2 * Pow2(attempts);
      assert base * Pow2(attempts + 1) == 2 * (base * Pow2(attempts));
    }
  }

  lemma BasePow(base: Duration, a: nat, b: nat)
    requires base >= 1 && a <= b
    ensures base * Pow2(a) <= base * Pow2(b)
    ensures base * Pow2(a) >= Pow2(a)
  {
    Pow2Grows(a, b);
  }

  lemma Pow2Of20()
    ensures Pow2(20) == 1_048_576
  {
    assert Pow2(4) == 16;
    assert Pow2(8) == 256;
    assert Pow2(12) == 4_096;
    assert Pow2(16) == 65_536;
  }

  // ---------------------------------------------------------------- leases

  // No failure and no publication of `m` among events i..j.
  predicate NoRelease(states: seq<State>, events: seq<Event>, i: nat, j: nat, m: Uuid)
    requires j <= |events| <= |states|
  {
    forall k | i <= k < j :: !Releases(states[k], events[k], m)
  }

  lemma {:induction false} LeaseLasts(cfg: Config, states: seq<State>, events: seq<Event>, i: nat, j: nat, m: Uuid)
    requires IsRun(cfg, states, events) && i < j < |states| && Claims(events[i], m)
             && NoRelease(states, events, i + 1, j, m)
    ensures m in states[j].db.messages
    ensures Row(states, j, m).lockedAt.Some? && Row(states, j, m).lockedAt.value >= events[i].now
    decreases j
  {
    if j == i + 1 {
      ClaimAt(cfg, states, events, i, m);
    } else {
      LeaseLasts(cfg, states, events, i, j - 1, m);
      assert !Releases(states[j - 1], events[j - 1], m);
      RowStepAt(cfg, states, events, j - 1, m);
      if Claims(events[j - 1], m) {
        ClaimAt(cfg, states, events, j - 1, m);
      }
    }
  }

  // Two claims of one message with no release between them are at least the lock timeout apart.
  lemma TakeoverWaitsForTimeout(cfg: Config, states: seq<State>, events: seq<Event>, i: nat, j: nat, m: Uuid)
    requires IsRun(cfg, states, events) && i < j < |events|
    requires Claims(events[i], m) && Claims(events[j], m) && NoRelease(states, events, i + 1, j, m)
    ensures events[j].now >= events[i].now + cfg.lockTimeout
  {
    LeaseLasts(cfg, states, events, i, j, m);
    ClaimAt(cfg, states, events, j, m);
  }

  predicate NoClaimBy(events: seq<Event>, i: nat, j: nat, w: WorkerId, m: Uuid)
    requires j <= |events|
  {
    forall k | i <= k < j :: !(Claims(events[k], m) && events[k].w == w)
  }

  lemma {:induction false} LostLeaseStaysLost(cfg: Config, states: seq<State>, events: seq<Event>, i: nat, j: nat,
                                              w: WorkerId, m: Uuid)
    requires IsRun(cfg, states, events) && i <= j < |states| && m in states[i].db.messages
    requires Row(states, i, m).lockedBy != Some(w) && NoClaimBy(events, i, j, w, m)
    ensures m in states[j].db.messages && Row(states, j, m).lockedBy != Some(w)
    decreases j
  {
    if i < j {
      LostLeaseStaysLost(cfg, states, events, i, j - 1, w, m);
      assert !(Claims(events[j - 1], m) && events[j - 1].w == w);
      RowStepAt(cfg, states, events, j - 1, m);
    }
  }

  // The event is worker `w`'s own acknowledgement or failure record for `m`.
  predicate ActsOn(s: State, e: Event, w: WorkerId, m: Uuid) {
    (e == Acknowledge(w) || e == RecordFailed(w)) && Busy(s, w) && s.workers[w].todo[0].id == m
  }

  // A worker whose lease was taken over cannot change the row again unless it reclaims it: its failure record
  // raises, and its acknowledgement raises or finds the row published. No table changes either way.
  lemma TakenOverWorkerIsHarmless(cfg: Config, states: seq<State>, events: seq<Event>, i: nat, j: nat, w: WorkerId,
                                  m: Uuid)
    requires IsRun(cfg, states, events) && i < j < |events|
    requires Claims(events[i], m) && events[i].w != w && NoClaimBy(events, i + 1, j, w, m)
    requires ActsOn(states[j], events[j], w, m)
    ensures states[j + 1].db == states[j].db
    ensures w in states[j + 1].workers
            ==> events[j] == Acknowledge(w) && m in states[j].db.messages && Row(states, j, m).publishedAt.Some?
  {
    ClaimAt(cfg, states, events, i, m);
    LostLeaseStaysLost(cfg, states, events, i + 1, j, w, m);
    assert StepAt(cfg, states, events, j);
    ReachableInv(cfg, states, events, j);
    if events[j] == Acknowledge(w) {
      AcknowledgeMoves(cfg, states[j], w);
    }
  }

  // ---------------------------------------------------------------- two processes with one worker id

  // A process with that worker id claims message `m`.
  ghost predicate ClaimsNow(cfg: Config, before: Database, m: Uuid, w: WorkerId, now: Time, after: Database) {
    && Selects(before.messages, {}, cfg.batchSize, cfg.lockTimeout, now, [m])
    && after == before.(messages := Claim(before.messages, [m], w, now))
  }

  // A process records the failure of the snapshot it claimed at `now`.
  predicate FailsNow(cfg: Config, before: Database, m: Message, w: WorkerId, now: Time, after: Database) {
    var retryAt := now + RetryDelay(cfg.retryBase, cfg.retryMax, m.attemptCount);
    RecordFailure(before, m.id, w, "", retryAt, cfg.maxAttempts, now) == Ok((after, false))
  }

  // From empty tables, with two live processes `a` and `b` under one worker id: `a` claims the only message and
  // stalls, `b` takes over after the lock timeout, fails, and claims again after the backoff. Then `a` records its
  // failure: it passes the lease check with a stale count, and the retry time moves back behind the backoff.
  lemma SharedWorkerIdBreaksBackoff(cfg: Config, action: Action, w: WorkerId) returns (tables: seq<Database>)
    requires cfg.lockTimeout > 0 && cfg.batchSize > 0 && cfg.maxAttempts > 2 && cfg.retryBase > 0 && cfg.retryMax > 0
    ensures |tables| == 6 && tables[0] == InsertProposal(INITIAL.db, action, 0, 0)
    ensures forall k | 0 <= k < 6 :: 0 in tables[k].messages
    ensures var again := cfg.lockTimeout + RetryDelay(cfg.retryBase, cfg.retryMax, 0);
            && ClaimsNow(cfg, tables[0], 0, w, 0, tables[1])
            && ClaimsNow(cfg, tables[1], 0, w, cfg.lockTimeout, tables[2])
            && FailsNow(cfg, tables[2], tables[2].messages[0], w, cfg.lockTimeout, tables[3])
            && ClaimsNow(cfg, tables[3], 0, w, again, tables[4])
            && FailsNow(cfg, tables[4], tables[1].messages[0], w, 0, tables[5])
    ensures tables[1].messages[0].attemptCount == 0 && tables[4].messages[0].attemptCount == 1
    ensures tables[5].messages[0].availableAt < tables[4].messages[0].availableAt
  {
    var zero := InsertProposal(INITIAL.db, action, 0, 0);
    var one, two, three := StalledAndReplaced(cfg, zero, w);
    var four := ClaimOfOne(cfg, three, w, cfg.lockTimeout + RetryDelay(cfg.retryBase, cfg.retryMax, 0));
    var five := FailureOfOne(cfg, four, one.messages[0], w, 0);
    tables := [zero, one, two, three, four, five];
  }

  // The first three steps: a claim, another after the lock timeout, and its failure.
  lemma StalledAndReplaced(cfg: Config, zero: Database, w: WorkerId)
    returns (one: Database, two: Database, three: Database)
    requires cfg.batchSize > 0 && cfg.maxAttempts > 2 && zero.messages.Keys == {0}
    requires Due(zero.messages[0], cfg.lockTimeout, 0) && zero.messages[0].attemptCount == 0 && zero.messages[0].id == 0
    ensures ClaimsNow(cfg, zero, 0, w, 0, one) && ClaimsNow(cfg, one, 0, w, cfg.lockTimeout, two)
    ensures one.messages == map[0 := Leased(zero.messages[0], w, 0)]
    ensures two.messages == map[0 := Leased(one.messages[0], w, cfg.lockTimeout)]
    ensures FailsNow(cfg, two, two.messages[0], w, cfg.lockTimeout, three)
    ensures var retryAt := cfg.lockTimeout + RetryDelay(cfg.retryBase, cfg.retryMax, 0);
            three.messages == map[0 := FailedRow(two.messages[0], "", retryAt, cfg.maxAttempts, cfg.lockTimeout)]
  {
    one := ClaimOfOne(cfg, zero, w, 0);
    two := ClaimOfOne(cfg, one, w, cfg.lockTimeout);
    three := FailureOfOne(cfg, two, two.messages[0], w, cfg.lockTimeout);
  }

  lemma ClaimOfOne(cfg: Config, before: Database, w: WorkerId, now: Time) returns (after: Database)
    requires before.messages.Keys == {0} && Due(before.messages[0], cfg.lockTimeout, now) && cfg.batchSize > 0
    ensures ClaimsNow(cfg, before, 0, w, now, after)
    ensures after.messages == map[0 := Leased(before.messages[0], w, now)]
  {
    after := before.(messages := Claim(before.messages, [0], w, now));
  }

  lemma FailureOfOne(cfg: Config, before: Database, m: Message, w: WorkerId, now: Time) returns (after: Database)
    requires before.messages.Keys == {0} && before.messages[0].lockedBy == Some(w) && m.id == 0
    requires before.messages[0].attemptCount + 1 < cfg.maxAttempts
    ensures FailsNow(cfg, before, m, w, now, after)
    ensures var retryAt := now + RetryDelay(cfg.retryBase, cfg.retryMax, m.attemptCount);
            after.messages == map[0 := FailedRow(before.messages[0], "", retryAt, cfg.maxAttempts, now)]
  {
    var retryAt := now + RetryDelay(cfg.retryBase, cfg.retryMax, m.attemptCount);
    after := RecordFailure(before, 0, w, "", retryAt, cfg.maxAttempts, now).value.0;
  }
}
