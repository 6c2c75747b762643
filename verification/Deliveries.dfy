/**
 What an undisturbed dispatch achieves, message by message (packages/outbox/dispatcher.py): which messages it
 publishes, what it writes into their rows, their actions and the workflow service, and what its counters count.
 */
module Deliveries {
  import opened Model
  import opened Transactions
  import opened Approvals
  import opened Protocol
  import opened Invariant
  import opened StepProofs
  import opened Runs
  import opened Dispatcher

  // ---------------------------------------------------------------- what is promised

  // The input that an action's workflow is started with.
  function InputOf(a: Action): StartInput {
    StartInput(a.id, a.caseId, a.tenant, a.status)
  }

  // The action was readable, the start was answered, and the service took the name and the input, or the reference
  // could be rebuilt because the ARN is unqualified.
  predicate Succeeds(cfg: Config, before: World, m: Message, c: Condition)
    requires m.aggregateId in before.db.actions
  {
    var name := "supplier-action-" + cfg.hex(m.aggregateId);
    var input := InputOf(before.db.actions[m.aggregateId]);
    && c.readable && c.fortune == Answered
    && (cfg.machine.qualifier == None || name !in before.executions
        || before.executions[name] == Execution(input, Running))
  }

  function FailureName(c: Condition): string {
    if !c.readable then "DatabaseError"
    else match c.fortune
      case Refused => "ClientError"
      case AnswerLost => "RuntimeError"
      case Answered => "ValueError"
  }

  function Least(a: nat, b: nat): nat {
    if a <= b then a else b
  }

  // The row is as it was, but published or counted as failed.
  predicate RowAfter(cfg: Config, now: Time, m: Message, c: Condition, succeeds: bool, row: Message) {
    var reference := cfg.machine.prefix + ":execution:" + cfg.machine.name
                     + ":supplier-action-" + cfg.hex(m.aggregateId);
    var retryAt := now + Least(cfg.retryBase * Pow2(Least(m.attemptCount, 20)), cfg.retryMax);
    var dead := m.attemptCount + 1 >= cfg.maxAttempts;
    if succeeds then
      row == m.(publishedAt := Some(now), lockedAt := None, lockedBy := None, lastError := None,
                deliveryResult := Some(reference))
    else
      row == m.(attemptCount := m.attemptCount + 1, lockedAt := None, lockedBy := None,
                lastError := Some(FailureName(c)),
                deadLetteredAt := if dead then Some(now) else m.deadLetteredAt,
                availableAt := if dead then m.availableAt else retryAt)
  }

  // Only a success sets the reference.
  predicate ActionAfter(cfg: Config, succeeds: bool, was: Action, now: Action) {
    var reference := cfg.machine.prefix + ":execution:" + cfg.machine.name + ":supplier-action-" + cfg.hex(was.id);
    now == was.(reference := if succeeds then Some(reference) else was.reference)
  }

  // The workflow runs from then on if the service got a start for a free name.
  predicate ExecutionAfter(before: Executions, after: Executions, name: string, input: StartInput, c: Condition) {
    if name in before then name in after && after[name] == before[name]
    else if c.readable && c.fortune != Refused then name in after && after[name] == Execution(input, Running)
    else name !in after
  }

  predicate DeliveredAs(cfg: Config, before: World, after: World, now: Time, m: Message, c: Condition) {
    && m.aggregateId in before.db.actions && m.aggregateId in after.db.actions && m.id in after.db.messages
    && var succeeds, was := Succeeds(cfg, before, m, c), before.db.actions[m.aggregateId];
       && RowAfter(cfg, now, m, c, succeeds, after.db.messages[m.id])
       && ActionAfter(cfg, succeeds, was, after.db.actions[m.aggregateId])
       && ExecutionAfter(before.executions, after.executions, "supplier-action-" + cfg.hex(m.aggregateId),
                         InputOf(was), c)
  }

  // ---------------------------------------------------------------- one delivery

  predicate Deliverable(db: Database, w: WorkerId, m: Message) {
    Owned(db, w, m) && m.aggregateId in db.actions && db.actions[m.aggregateId].id == m.aggregateId
  }

  // Everything that a delivery of `m` may look at or write is the same in both.
  predicate SameFor(cfg: Config, a: World, b: World, m: Message) {
    var name := "supplier-action-" + cfg.hex(m.aggregateId);
    && (m.id in a.db.messages <==> m.id in b.db.messages)
    && (m.id in a.db.messages ==> a.db.messages[m.id] == b.db.messages[m.id])
    && (m.aggregateId in a.db.actions <==> m.aggregateId in b.db.actions)
    && (m.aggregateId in a.db.actions ==> a.db.actions[m.aggregateId] == b.db.actions[m.aggregateId])
    && (name in a.executions <==> name in b.executions)
    && (name in a.executions ==> a.executions[name] == b.executions[name])
  }

  predicate Apart(m: Message, n: Message) {
    m.id != n.id && m.aggregateId != n.aggregateId
  }

  lemma NamesAreText(cfg: Config, i: ActionId)
    requires Sound(cfg)
    ensures ReferenceFor(cfg, i)
            == cfg.machine.prefix + ":execution:" + cfg.machine.name + ":supplier-action-" + cfg.hex(i)
    ensures ReferenceFor(cfg, i) != ""
    ensures ExecutionArn(MachineArn(cfg.machine), NameFor(cfg, i))
            == if cfg.machine.qualifier == None then Ok(ReferenceFor(cfg, i)) else Err(QualifiedMachineArn)
  {
    ReferenceText(cfg.machine, cfg.hex(i));
    ReferenceIsText(cfg, i);
    RebuiltReference(cfg.machine, NameFor(cfg, i));
  }

  lemma HandlingIs(cfg: Config, world: World, w: WorkerId, m: Message, c: Condition)
    requires Sound(cfg) && Deliverable(world.db, w, m)
    ensures var (x, handled) := Handled(cfg, world, m, c);
            && handled == (if Succeeds(cfg, world, m, c) then Ok(ReferenceFor(cfg, m.aggregateId))
                           else Err(FailureName(c)))
            && ExecutionAfter(world.executions, x, "supplier-action-" + cfg.hex(m.aggregateId),
                              InputOf(world.db.actions[m.aggregateId]), c)
            && forall name | name != "supplier-action-" + cfg.hex(m.aggregateId) ::
                 (name in x <==> name in world.executions) && (name in x ==> x[name] == world.executions[name])
  {
    NamesAreText(cfg, m.aggregateId);
  }

  lemma ConcludingIs(cfg: Config, db: Database, w: WorkerId, now: Time, m: Message, c: Condition, succeeds: bool)
    requires Sound(cfg) && Deliverable(db, w, m)
    ensures var handled := if succeeds then Ok(ReferenceFor(cfg, m.aggregateId)) else Err(FailureName(c));
            var (after, r) := Conclude(cfg, db, w, now, m, handled);
            && r == Ok(if succeeds then Delivered else if m.attemptCount + 1 >= cfg.maxAttempts then DeadLettered
                       else Retried)
            && after.messages.Keys == db.messages.Keys && after.actions.Keys == db.actions.Keys
            && RowAfter(cfg, now, m, c, succeeds, after.messages[m.id])
            && ActionAfter(cfg, succeeds, db.actions[m.aggregateId], after.actions[m.aggregateId])
            && (forall k | k in db.messages && k != m.id :: after.messages[k] == db.messages[k])
            && (forall i | i in db.actions && i != m.aggregateId :: after.actions[i] == db.actions[i])
            && after.audit == db.audit
  {
    NamesAreText(cfg, m.aggregateId);
    assert Truncated(FailureName(c)) == FailureName(c);
  }

  // One delivery does exactly what is promised to its own message, and nothing to others.
  lemma DeliveryIs(cfg: Config, world: World, w: WorkerId, now: Time, m: Message, c: Condition)
    requires Sound(cfg) && Deliverable(world.db, w, m)
    ensures var (after, r) := Deliver(cfg, world, w, now, m, c);
            && r == Ok(if Succeeds(cfg, world, m, c) then Delivered
                       else if m.attemptCount + 1 >= cfg.maxAttempts then DeadLettered else Retried)
            && DeliveredAs(cfg, world, after, now, m, c)
            && forall n | Apart(m, n) :: SameFor(cfg, world, after, n)
  {
    HandlingIs(cfg, world, w, m, c);
    ConcludingIs(cfg, world.db, w, now, m, c, Succeeds(cfg, world, m, c));
    forall n | Apart(m, n) ensures SameFor(cfg, world, Deliver(cfg, world, w, now, m, c).0, n) {
      assert cfg.hex(m.aggregateId) != cfg.hex(n.aggregateId);
      var name, other := "supplier-action-" + cfg.hex(m.aggregateId), "supplier-action-" + cfg.hex(n.aggregateId);
      assert name[16..] == cfg.hex(m.aggregateId) && other[16..] == cfg.hex(n.aggregateId);
    }
  }

  // ---------------------------------------------------------------- the batch

  predicate AllDeliverable(db: Database, w: WorkerId, todo: seq<Message>) {
    && (forall i {:trigger Deliverable(db, w, todo[i])} | 0 <= i < |todo| :: Deliverable(db, w, todo[i]))
    && forall i, j {:trigger Apart(todo[i], todo[j])} | 0 <= i < j < |todo| :: Apart(todo[i], todo[j])
  }

  predicate AllDelivered(cfg: Config, before: World, after: World, now: Time, todo: seq<Message>,
                         conditions: Uuid -> Condition)
  {
    forall i {:trigger DeliveredAs(cfg, before, after, now, todo[i], conditions(todo[i].id))} | 0 <= i < |todo| ::
      DeliveredAs(cfg, before, after, now, todo[i], conditions(todo[i].id))
  }

  // The rest of the batch looks the same after the first delivery.
  predicate RestSame(cfg: Config, before: World, after: World, todo: seq<Message>)
    requires todo != []
  {
    forall i {:trigger todo[1..][i]} | 0 <= i < |todo| - 1 ::
      Apart(todo[0], todo[1..][i]) && SameFor(cfg, before, after, todo[1..][i])
  }

  lemma RestStaysDeliverable(cfg: Config, world: World, w: WorkerId, now: Time, todo: seq<Message>, c: Condition)
    requires Sound(cfg) && todo != [] && AllDeliverable(world.db, w, todo)
    ensures var after := Deliver(cfg, world, w, now, todo[0], c).0;
            && AllDeliverable(after.db, w, todo[1..])
            && RestSame(cfg, world, after, todo)
  {
    assert Deliverable(world.db, w, todo[0]);
    DeliveryIs(cfg, world, w, now, todo[0], c);
    var after, rest := Deliver(cfg, world, w, now, todo[0], c).0, todo[1..];
    forall i | 0 <= i < |rest|
      ensures Deliverable(after.db, w, rest[i]) && Apart(todo[0], rest[i]) && SameFor(cfg, world, after, rest[i])
    {
      assert Deliverable(world.db, w, todo[i + 1]) && Apart(todo[0], todo[i + 1]);
    }
    forall i, j | 0 <= i < j < |rest| ensures Apart(rest[i], rest[j]) {
      assert Apart(todo[i + 1], todo[j + 1]);
    }
  }

  // Messages outside the batch, their actions and their workflows stay as they were.
  lemma {:induction false} OthersStaySame(cfg: Config, world: World, w: WorkerId, now: Time, todo: seq<Message>,
                                          conditions: Uuid -> Condition, s: Summary, n: Message)
    requires Sound(cfg) && AllDeliverable(world.db, w, todo) && forall i | 0 <= i < |todo| :: Apart(todo[i], n)
    ensures SameFor(cfg, world, DeliverAll(cfg, world, w, now, todo, conditions, s).0, n)
    decreases |todo|
  {
    if todo != [] {
      var c := conditions(todo[0].id);
      var (after, r) := Deliver(cfg, world, w, now, todo[0], c);
      assert Deliverable(world.db, w, todo[0]) && Apart(todo[0], n);
      DeliveryIs(cfg, world, w, now, todo[0], c);
      RestStaysDeliverable(cfg, world, w, now, todo, c);
      OthersStaySame(cfg, after, w, now, todo[1..], conditions, Count(s, r.value), n);
    }
  }

  // What was promised of a message in one world is promised in another that is the same for it.
  lemma PromiseMoves(cfg: Config, a: World, b: World, y: World, z: World, now: Time, m: Message, c: Condition)
    requires SameFor(cfg, a, b, m) && SameFor(cfg, y, z, m) && DeliveredAs(cfg, b, y, now, m, c)
    ensures DeliveredAs(cfg, a, z, now, m, c)
  {
  }

  lemma {:induction false} BatchIsDelivered(cfg: Config, world: World, w: WorkerId, now: Time, todo: seq<Message>,
                                            conditions: Uuid -> Condition, s: Summary)
    requires Sound(cfg) && AllDeliverable(world.db, w, todo)
    ensures var (after, r) := DeliverAll(cfg, world, w, now, todo, conditions, s);
            r.Ok? && AllDelivered(cfg, world, after, now, todo, conditions)
    decreases |todo|
  {
    if todo != [] {
      var c, rest := conditions(todo[0].id), todo[1..];
      var (after, r) := Deliver(cfg, world, w, now, todo[0], c);
      assert Deliverable(world.db, w, todo[0]);
      DeliveryIs(cfg, world, w, now, todo[0], c);
      RestStaysDeliverable(cfg, world, w, now, todo, c);
      BatchIsDelivered(cfg, after, w, now, rest, conditions, Count(s, r.value));
      var end := DeliverAll(cfg, world, w, now, todo, conditions, s).0;
      forall i | 0 <= i < |todo| ensures DeliveredAs(cfg, world, end, now, todo[i], conditions(todo[i].id)) {
        if i == 0 {
          forall j | 0 <= j < |rest| ensures Apart(rest[j], todo[0]) {
            assert Apart(todo[0], rest[j]);
          }
          OthersStaySame(cfg, after, w, now, rest, conditions, Count(s, r.value), todo[0]);
          PromiseMoves(cfg, world, world, after, end, now, todo[0], c);
        } else {
          assert rest[i - 1] == todo[i] && DeliveredAs(cfg, after, end, now, rest[i - 1], conditions(rest[i - 1].id));
          PromiseMoves(cfg, world, after, end, end, now, todo[i], conditions(todo[i].id));
        }
      }
    }
  }

  // ---------------------------------------------------------------- counters

  // The ids of the messages marked in `marks`.
  function Marked(todo: seq<Message>, marks: seq<bool>): set<Uuid>
    requires |todo| == |marks|
  {
    set i | 0 <= i < |todo| && marks[i] :: todo[i].id
  }

  predicate Stored(before: World, todo: seq<Message>) {
    forall i | 0 <= i < |todo| :: todo[i].aggregateId in before.db.actions
  }

  predicate FailsLast(cfg: Config, before: World, m: Message, c: Condition)
    requires m.aggregateId in before.db.actions
  {
    !Succeeds(cfg, before, m, c) && m.attemptCount + 1 >= cfg.maxAttempts
  }

  function SuccessMarks(cfg: Config, before: World, todo: seq<Message>, conditions: Uuid -> Condition): seq<bool>
    requires Stored(before, todo)
  {
    seq(|todo|, i requires 0 <= i < |todo| => Succeeds(cfg, before, todo[i], conditions(todo[i].id)))
  }

  function LastFailureMarks(cfg: Config, before: World, todo: seq<Message>, conditions: Uuid -> Condition): seq<bool>
    requires Stored(before, todo)
  {
    seq(|todo|, i requires 0 <= i < |todo| => FailsLast(cfg, before, todo[i], conditions(todo[i].id)))
  }

  // The messages that succeed, and those whose failure is the last attempt.
  function Successes(cfg: Config, before: World, todo: seq<Message>, conditions: Uuid -> Condition): set<Uuid>
    requires Stored(before, todo)
  {
    Marked(todo, SuccessMarks(cfg, before, todo, conditions))
  }

  function LastFailures(cfg: Config, before: World, todo: seq<Message>, conditions: Uuid -> Condition): set<Uuid>
    requires Stored(before, todo)
  {
    Marked(todo, LastFailureMarks(cfg, before, todo, conditions))
  }

  lemma DeliverableActions(db: Database, w: WorkerId, todo: seq<Message>)
    requires AllDeliverable(db, w, todo)
    ensures forall i | 0 <= i < |todo| :: todo[i].aggregateId in db.actions
  {
    forall i | 0 <= i < |todo| ensures todo[i].aggregateId in db.actions {
      assert Deliverable(db, w, todo[i]);
    }
  }

  // Ids that differ from the first one's count separately from it.
  lemma MarkedOfRest(todo: seq<Message>, marks: seq<bool>)
    requires |todo| == |marks| && todo != [] && forall i | 0 < i < |todo| :: todo[i].id != todo[0].id
    ensures |Marked(todo, marks)| == |Marked(todo[1..], marks[1..])| + if marks[0] then 1 else 0
  {
    var all, rest := Marked(todo, marks), Marked(todo[1..], marks[1..]);
    var own: set<Uuid> := if marks[0] then {todo[0].id} else {};
    forall m | m in all ensures m in rest + own {
      var i :| 0 <= i < |todo| && marks[i] && todo[i].id == m;
      assert i > 0 ==> todo[1..][i - 1] == todo[i] && marks[1..][i - 1];
    }
    forall m | m in rest ensures m in all && m !in own {
      var i :| 0 <= i < |todo| - 1 && marks[1..][i] && todo[1..][i].id == m;
      assert todo[i + 1].id == m && marks[i + 1];
    }
    assert all == rest + own;
  }

  lemma RestSucceedsAsBefore(cfg: Config, before: World, after: World, todo: seq<Message>,
                             conditions: Uuid -> Condition, i: nat)
    requires todo != [] && RestSame(cfg, before, after, todo) && 0 < i < |todo|
    requires todo[i].aggregateId in before.db.actions
    ensures todo[1..][i - 1] == todo[i] && todo[i].id != todo[0].id && todo[i].aggregateId in after.db.actions
    ensures Succeeds(cfg, after, todo[i], conditions(todo[i].id))
            == Succeeds(cfg, before, todo[i], conditions(todo[i].id))
  {
    assert Apart(todo[0], todo[1..][i - 1]) && SameFor(cfg, before, after, todo[1..][i - 1]);
  }

  // The first message's own contribution to each count.
  lemma CountsOfRest(cfg: Config, before: World, after: World, todo: seq<Message>, conditions: Uuid -> Condition)
    requires todo != [] && RestSame(cfg, before, after, todo) && Stored(before, todo) && Stored(after, todo[1..])
    ensures |Successes(cfg, before, todo, conditions)|
            == |Successes(cfg, after, todo[1..], conditions)|
               + if Succeeds(cfg, before, todo[0], conditions(todo[0].id)) then 1 else 0
    ensures |LastFailures(cfg, before, todo, conditions)|
            == |LastFailures(cfg, after, todo[1..], conditions)|
               + if FailsLast(cfg, before, todo[0], conditions(todo[0].id)) then 1 else 0
  {
    var rest := todo[1..];
    var good, last := SuccessMarks(cfg, before, todo, conditions), LastFailureMarks(cfg, before, todo, conditions);
    forall i | 0 < i < |todo|
      ensures todo[i].id != todo[0].id && good[i] == SuccessMarks(cfg, after, rest, conditions)[i - 1]
      ensures last[i] == LastFailureMarks(cfg, after, rest, conditions)[i - 1]
    {
      RestSucceedsAsBefore(cfg, before, after, todo, conditions, i);
    }
    assert good[1..] == SuccessMarks(cfg, after, rest, conditions);
    assert last[1..] == LastFailureMarks(cfg, after, rest, conditions);
    MarkedOfRest(todo, good);
    MarkedOfRest(todo, last);
  }

  lemma {:induction false} BatchIsCounted(cfg: Config, world: World, w: WorkerId, now: Time, todo: seq<Message>,
                                          conditions: Uuid -> Condition, s: Summary)
    requires Sound(cfg) && AllDeliverable(world.db, w, todo)
    ensures Stored(world, todo)
    ensures var r := DeliverAll(cfg, world, w, now, todo, conditions, s).1;
            && r.Ok? && r.value.claimed == s.claimed
            && r.value.published == s.published + |Successes(cfg, world, todo, conditions)|
            && r.value.deadLettered == s.deadLettered + |LastFailures(cfg, world, todo, conditions)|
    decreases |todo|
  {
    DeliverableActions(world.db, w, todo);
    if todo != [] {
      var c, rest := conditions(todo[0].id), todo[1..];
      var (after, r) := Deliver(cfg, world, w, now, todo[0], c);
      assert Deliverable(world.db, w, todo[0]);
      DeliveryIs(cfg, world, w, now, todo[0], c);
      RestStaysDeliverable(cfg, world, w, now, todo, c);
      BatchIsCounted(cfg, after, w, now, rest, conditions, Count(s, r.value));
      CountsOfRest(cfg, world, after, todo, conditions);
    }
  }

  // ---------------------------------------------------------------- from every reachable state

  lemma ClaimIsDeliverable(cfg: Config, s: State, w: WorkerId, now: Time, skipped: set<Uuid>, claimed: seq<Uuid>)
    requires Selects(s.db.messages, skipped, cfg.batchSize, cfg.lockTimeout, now, claimed)
    requires Inv(cfg, s)
    ensures var messages := Claim(s.db.messages, claimed, w, now);
            AllDeliverable(s.db.(messages := messages), w, Snapshots(messages, claimed))
  {
    ClaimIsOwned(cfg, s, w, now, skipped, claimed);
    var messages := Claim(s.db.messages, claimed, w, now);
    var db, todo := s.db.(messages := messages), Snapshots(messages, claimed);
    forall i | 0 <= i < |todo| ensures Deliverable(db, w, todo[i]) {
      assert Owned(db, w, todo[i]) && LinkOk(s.db.actions, s.db.messages[claimed[i]]);
    }
    forall i, j | 0 <= i < j < |todo| ensures Apart(todo[i], todo[j]) {
      assert Owned(db, w, todo[i]) && Owned(db, w, todo[j]);
      assert !MessageClash(s.db.messages, claimed[i], claimed[j]);
    }
  }

  // A dispatch that nobody interferes with, from any reachable state: a claimed message is published, and its action
  // gets its reference, exactly when its start succeeds; every other one is counted as failed under its error's name;
  // the workflow service starts what it was asked to; and the counters are the numbers of these messages.
  lemma QuietDispatchPublishes(cfg: Config, states: seq<State>, events: seq<Event>, n: nat, w: WorkerId, now: Time,
                               skipped: set<Uuid>, claimed: seq<Uuid>, conditions: Uuid -> Condition)
    requires IsRun(cfg, states, events) && n < |states|
    requires Selects(states[n].db.messages, skipped, cfg.batchSize, cfg.lockTimeout, now, claimed)
    ensures var messages := Claim(states[n].db.messages, claimed, w, now);
            var todo := Snapshots(messages, claimed);
            var before := World(states[n].db.(messages := messages), states[n].executions);
            var (after, r) := DeliverAll(cfg, before, w, now, todo, conditions, Summary(|claimed|, 0, 0, 0));
            && Stored(before, todo) && AllDelivered(cfg, before, after, now, todo, conditions)
            && var published, dead := |Successes(cfg, before, todo, conditions)|,
                 |LastFailures(cfg, before, todo, conditions)|;
               r.Ok? && r.value.claimed == |claimed| && r.value.published == published && r.value.deadLettered == dead
               && r.value.retried == |claimed| - published - dead
  {
    ReachableInv(cfg, states, events, n);
    ClaimIsDeliverable(cfg, states[n], w, now, skipped, claimed);
    var messages := Claim(states[n].db.messages, claimed, w, now);
    var before, todo, zero := World(states[n].db.(messages := messages), states[n].executions),
      Snapshots(messages, claimed), Summary(|claimed|, 0, 0, 0);
    BatchIsDelivered(cfg, before, w, now, todo, conditions, zero);
    BatchIsCounted(cfg, before, w, now, todo, conditions, zero);
    CountersAddUp(cfg, before, w, now, todo, conditions, zero);
  }

  lemma {:induction false} AllMarked(todo: seq<Message>, marks: seq<bool>)
    requires |todo| == |marks| && forall i | 0 <= i < |todo| :: marks[i]
    requires forall i, j {:trigger todo[i], todo[j]} | 0 <= i < j < |todo| :: todo[i].id != todo[j].id
    ensures |Marked(todo, marks)| == |todo|
    decreases |todo|
  {
    if todo != [] {
      MarkedOfRest(todo, marks);
      AllMarked(todo[1..], marks[1..]);
    }
  }

  predicate AllGood(conditions: Uuid -> Condition, claimed: seq<Uuid>) {
    forall i | 0 <= i < |claimed| :: conditions(claimed[i]) == Condition(true, Answered)
  }

  lemma GoodMarks(cfg: Config, before: World, todo: seq<Message>, conditions: Uuid -> Condition)
    requires Stored(before, todo) && cfg.machine.qualifier == None
    requires forall i | 0 <= i < |todo| :: conditions(todo[i].id) == Condition(true, Answered)
    ensures forall i | 0 <= i < |todo| :: Succeeds(cfg, before, todo[i], conditions(todo[i].id))
  {
  }

  // The ids of the claimed snapshots.
  lemma SnapshotIds(cfg: Config, s: State, w: WorkerId, now: Time, skipped: set<Uuid>, claimed: seq<Uuid>)
    requires Selects(s.db.messages, skipped, cfg.batchSize, cfg.lockTimeout, now, claimed)
    requires Inv(cfg, s)
    ensures var todo := Snapshots(Claim(s.db.messages, claimed, w, now), claimed);
            (forall i | 0 <= i < |todo| :: todo[i].id == claimed[i])
            && forall i, j {:trigger todo[i], todo[j]} | 0 <= i < j < |todo| :: todo[i].id != todo[j].id
  {
    forall i | 0 <= i < |claimed| ensures claimed[i] in s.db.messages && s.db.messages[claimed[i]].id == claimed[i] {
      assert claimed[i] in Candidates(s.db.messages, skipped, cfg.lockTimeout, now);
    }
  }

  // With every read and start answered and an unqualified ARN, everything claimed is published.
  lemma GoodDispatchPublishesAll(cfg: Config, states: seq<State>, events: seq<Event>, n: nat, w: WorkerId, now: Time,
                                 skipped: set<Uuid>, claimed: seq<Uuid>, conditions: Uuid -> Condition)
    requires IsRun(cfg, states, events) && n < |states| && cfg.machine.qualifier == None
    requires Selects(states[n].db.messages, skipped, cfg.batchSize, cfg.lockTimeout, now, claimed)
    requires AllGood(conditions, claimed)
    ensures var messages := Claim(states[n].db.messages, claimed, w, now);
            var todo := Snapshots(messages, claimed);
            var before := World(states[n].db.(messages := messages), states[n].executions);
            var (after, r) := DeliverAll(cfg, before, w, now, todo, conditions, Summary(|claimed|, 0, 0, 0));
            && r == Ok(Summary(|claimed|, |claimed|, 0, 0))
            && forall i {:trigger claimed[i]} | 0 <= i < |claimed| :: claimed[i] in after.db.messages
                 && after.db.messages[claimed[i]].publishedAt == Some(now)
  {
    QuietDispatchPublishes(cfg, states, events, n, w, now, skipped, claimed, conditions);
    ReachableInv(cfg, states, events, n);
    SnapshotIds(cfg, states[n], w, now, skipped, claimed);
    var messages := Claim(states[n].db.messages, claimed, w, now);
    var before, todo := World(states[n].db.(messages := messages), states[n].executions), Snapshots(messages, claimed);
    GoodMarks(cfg, before, todo, conditions);
    AllMarked(todo, SuccessMarks(cfg, before, todo, conditions));
    AllPublished(cfg, before, DeliverAll(cfg, before, w, now, todo, conditions, Summary(|claimed|, 0, 0, 0)).0, now,
                 todo, conditions);
  }

  lemma AllPublished(cfg: Config, before: World, after: World, now: Time, todo: seq<Message>,
                     conditions: Uuid -> Condition)
    requires Stored(before, todo) && AllDelivered(cfg, before, after, now, todo, conditions)
    requires forall i | 0 <= i < |todo| :: Succeeds(cfg, before, todo[i], conditions(todo[i].id))
    ensures forall i {:trigger todo[i]} | 0 <= i < |todo| ::
              todo[i].id in after.db.messages && after.db.messages[todo[i].id].publishedAt == Some(now)
  {
    forall i | 0 <= i < |todo|
      ensures todo[i].id in after.db.messages && after.db.messages[todo[i].id].publishedAt == Some(now)
    {
      assert DeliveredAs(cfg, before, after, now, todo[i], conditions(todo[i].id));
    }
  }
}
