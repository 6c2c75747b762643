/**
 The delivery loop of one worker (packages/outbox/dispatcher.py): `dispatch_once` as a method over the
 mutable tables, what its outcome means, and that it is a run of the protocol.
 */
module Dispatcher {
  import opened Model
  import opened Transactions
  import opened Approvals
  import opened Protocol
  import opened Invariant
  import opened Runs
  import opened Store

  // How reading the action and starting its workflow fare for one message.
  datatype Condition = Condition(readable: bool, fortune: Fortune)
  datatype World = World(db: Database, executions: Executions)
  datatype Summary = Summary(claimed: nat, published: nat, retried: nat, deadLettered: nat)
  datatype Delivery = Delivered | Retried | DeadLettered

  // ---------------------------------------------------------------- what one batch does

  // `handle`: start the workflow of the authoritative stored action.
  function Handled(cfg: Config, world: World, m: Message, c: Condition): (Executions, Result<string, string>) {
    match Fetched(world.db, m, c.readable)
    case Starting(action) =>
      (match Start(world.executions, cfg.machine, cfg.hex(action.id), action, c.fortune)
       case (x, Ok(reference)) => (x, Ok(reference))
       case (x, Err(e)) => (x, Err(ErrorName(e))))
    case Failing(error) => (world.executions, Err(error))
    case Fetching => (world.executions, Err(""))
    case Acknowledging(_) => (world.executions, Err(""))
  }

  // Acknowledge a started workflow, or record the failure to start it.
  function Conclude(cfg: Config, db: Database, w: WorkerId, now: Time, m: Message, handled: Result<string, string>)
    : (Database, Result<Delivery, OutboxError>)
  {
    match handled
    case Ok(reference) =>
      (match MarkPublished(db, m.id, w, reference, now)
       case Ok(after) => (after, Ok(Delivered))
       case Err(e) => (db, Err(e)))
    case Err(error) =>
      var retryAt := now + RetryDelay(cfg.retryBase, cfg.retryMax, m.attemptCount);
      (match RecordFailure(db, m.id, w, error, retryAt, cfg.maxAttempts, now)
       case Ok((after, dead)) => (after, Ok(if dead then DeadLettered else Retried))
       case Err(e) => (db, Err(e)))
  }

  // An error is an acknowledgement that raised.
  function Deliver(cfg: Config, world: World, w: WorkerId, now: Time, m: Message, c: Condition)
    : (World, Result<Delivery, OutboxError>)
  {
    var (x, handled) := Handled(cfg, world, m, c);
    var (db, r) := Conclude(cfg, world.db, w, now, m, handled);
    (World(db, x), r)
  }

  function Count(s: Summary, d: Delivery): Summary {
    match d
    case Delivered => s.(published := s.published + 1)
    case Retried => s.(retried := s.retried + 1)
    case DeadLettered => s.(deadLettered := s.deadLettered + 1)
  }

  // The loop over the batch, up to the first acknowledgement that raises.
  function DeliverAll(cfg: Config, world: World, w: WorkerId, now: Time, todo: seq<Message>,
                      conditions: Uuid -> Condition, s: Summary)
    : (World, Result<Summary, OutboxError>)
    decreases |todo|
  {
    if todo == [] then (world, Ok(s))
    else
      match Deliver(cfg, world, w, now, todo[0], conditions(todo[0].id))
      case (after, Ok(d)) => DeliverAll(cfg, after, w, now, todo[1..], conditions, Count(s, d))
      case (after, Err(e)) => (after, Err(e))
  }

  lemma DeliverAllStep(cfg: Config, world: World, w: WorkerId, now: Time, all: seq<Message>, k: nat,
                       conditions: Uuid -> Condition, s: Summary)
    requires k < |all|
    ensures var (after, r) := Deliver(cfg, world, w, now, all[k], conditions(all[k].id));
            DeliverAll(cfg, world, w, now, all[k..], conditions, s)
            == if r.Ok? then DeliverAll(cfg, after, w, now, all[k + 1..], conditions, Count(s, r.value))
               else (after, Err(r.error))
  {
    assert all[k..][0] == all[k] && all[k..][1..] == all[k + 1..];
  }

  // ---------------------------------------------------------------- counters

  // When the loop ends, every claimed message is counted once.
  lemma {:induction false} CountersAddUp(cfg: Config, world: World, w: WorkerId, now: Time, todo: seq<Message>,
                                         conditions: Uuid -> Condition, s: Summary)
    ensures var r := DeliverAll(cfg, world, w, now, todo, conditions, s).1;
            r.Ok? ==> r.value.claimed == s.claimed
                      && r.value.published + r.value.retried + r.value.deadLettered
                         == s.published + s.retried + s.deadLettered + |todo|
    decreases |todo|
  {
    if todo != [] {
      var (after, r) := Deliver(cfg, world, w, now, todo[0], conditions(todo[0].id));
      if r.Ok? {
        CountersAddUp(cfg, after, w, now, todo[1..], conditions, Count(s, r.value));
      }
    }
  }

  // ---------------------------------------------------------------- rows

  predicate DistinctIds(todo: seq<Message>) {
    forall i, j | 0 <= i < j < |todo| :: todo[i].id != todo[j].id
  }

  // The row is published, or released after a failure counted against the snapshot.
  predicate Settled(cfg: Config, now: Time, m: Message, row: Message) {
    || (row.deliveryResult.Some? && row == Published(m, row.deliveryResult.value, now))
    || (row.lastError.Some?
        && row == FailedRow(m, row.lastError.value, now + RetryDelay(cfg.retryBase, cfg.retryMax, m.attemptCount),
             cfg.maxAttempts, now))
  }

  predicate SettledIn(cfg: Config, messages: map<Uuid, Message>, now: Time, m: Message) {
    m.id in messages && Settled(cfg, now, m, messages[m.id]) && messages[m.id].lockedBy.None?
  }

  // The worker still holds the lease its snapshot was made with, and the message is in order.
  predicate Owned(db: Database, w: WorkerId, m: Message) {
    && m.id in db.messages && db.messages[m.id] == m && m.lockedBy == Some(w) && m.publishedAt.None?
    && m.eventType == ApprovalWorkflowStart && m.payload.actionId == m.aggregateId
  }

  lemma HandledReferenceIsText(cfg: Config, world: World, m: Message, c: Condition)
    ensures Handled(cfg, world, m, c).1.Ok? ==>
              Handled(cfg, world, m, c).1.value != "" && m.payload.actionId in world.db.actions
                && m.eventType == ApprovalWorkflowStart
  {
    var phase := Fetched(world.db, m, c.readable);
    if phase.Starting? {
      var name := ExecutionName(cfg.hex(phase.action.id));
      assert |ServiceArn(cfg.machine, name)| >= |":execution:"|;
      var rebuilt := ExecutionArn(MachineArn(cfg.machine), name);
      assert rebuilt.Ok? ==> |rebuilt.value| >= |":execution:"|;
    }
  }

  // One delivery touches its own row only, and settles it while the lease is held.
  lemma DeliverSettles(cfg: Config, world: World, w: WorkerId, now: Time, m: Message, c: Condition)
    ensures var (after, r) := Deliver(cfg, world, w, now, m, c);
            && after.db.messages.Keys == world.db.messages.Keys
            && (forall k | k in world.db.messages && k != m.id :: after.db.messages[k] == world.db.messages[k])
            && (r.Err? ==> after.db == world.db)
            && (Owned(world.db, w, m) ==>
                  && r.Ok? && SettledIn(cfg, after.db.messages, now, m)
                  && (r.value == Delivered <==> after.db.messages[m.id].publishedAt.Some?)
                  && (r.value == DeadLettered ==> after.db.messages[m.id].deadLetteredAt == Some(now)))
  {
    HandledReferenceIsText(cfg, world, m, c);
    var (x, handled) := Handled(cfg, world, m, c);
    if handled.Err? {
      TruncatedTwice(handled.error);
    }
  }

  lemma TruncatedTwice(s: string)
    ensures Truncated(Truncated(s)) == Truncated(s)
  {
  }

  lemma {:induction false} OthersUntouched(cfg: Config, world: World, w: WorkerId, now: Time, todo: seq<Message>,
                                           conditions: Uuid -> Condition, s: Summary, k: Uuid)
    requires forall i | 0 <= i < |todo| :: todo[i].id != k
    ensures var after := DeliverAll(cfg, world, w, now, todo, conditions, s).0;
            && after.db.messages.Keys == world.db.messages.Keys
            && (k in world.db.messages ==> after.db.messages[k] == world.db.messages[k])
    decreases |todo|
  {
    if todo != [] {
      DeliverSettles(cfg, world, w, now, todo[0], conditions(todo[0].id));
      var (after, r) := Deliver(cfg, world, w, now, todo[0], conditions(todo[0].id));
      if r.Ok? {
        OthersUntouched(cfg, after, w, now, todo[1..], conditions, Count(s, r.value), k);
      }
    }
  }

  predicate AllOwned(db: Database, w: WorkerId, todo: seq<Message>) {
    DistinctIds(todo) && forall i {:trigger Owned(db, w, todo[i])} | 0 <= i < |todo| :: Owned(db, w, todo[i])
  }

  lemma RestStaysOwned(cfg: Config, world: World, w: WorkerId, now: Time, todo: seq<Message>, c: Condition)
    requires todo != [] && AllOwned(world.db, w, todo)
    ensures AllOwned(Deliver(cfg, world, w, now, todo[0], c).0.db, w, todo[1..])
    ensures forall i | 0 <= i < |todo[1..]| :: todo[1..][i].id != todo[0].id
  {
    DeliverSettles(cfg, world, w, now, todo[0], c);
    var after, rest := Deliver(cfg, world, w, now, todo[0], c).0, todo[1..];
    forall i | 0 <= i < |rest| ensures Owned(after.db, w, rest[i]) && rest[i].id != todo[0].id {
      assert rest[i] == todo[i + 1] && Owned(world.db, w, todo[i + 1]) && todo[0].id != todo[i + 1].id;
    }
  }

  // Without interference nothing raises, and every claimed message ends up settled and unlocked.
  lemma {:induction false} QuietBatchSettles(cfg: Config, world: World, w: WorkerId, now: Time, todo: seq<Message>,
                                             conditions: Uuid -> Condition, s: Summary)
    requires AllOwned(world.db, w, todo)
    ensures DeliverAll(cfg, world, w, now, todo, conditions, s).1.Ok?
    ensures var messages := DeliverAll(cfg, world, w, now, todo, conditions, s).0.db.messages;
            forall i {:trigger SettledIn(cfg, messages, now, todo[i])} | 0 <= i < |todo| ::
              SettledIn(cfg, messages, now, todo[i])
    decreases |todo|
  {
    if todo != [] {
      var c, rest := conditions(todo[0].id), todo[1..];
      var (after, r) := Deliver(cfg, world, w, now, todo[0], c);
      assert Owned(world.db, w, todo[0]);
      DeliverSettles(cfg, world, w, now, todo[0], c);
      RestStaysOwned(cfg, world, w, now, todo, c);
      QuietBatchSettles(cfg, after, w, now, rest, conditions, Count(s, r.value));
      OthersUntouched(cfg, after, w, now, rest, conditions, Count(s, r.value), todo[0].id);
      var messages := DeliverAll(cfg, world, w, now, todo, conditions, s).0.db.messages;
      forall i | 0 <= i < |todo| ensures SettledIn(cfg, messages, now, todo[i]) {
        if i > 0 {
          assert todo[i] == rest[i - 1];
          assert SettledIn(cfg, messages, now, rest[i - 1]);
        }
      }
    }
  }

  // What a claim in a reachable state returns is owned by its worker.
  lemma ClaimIsOwned(cfg: Config, s: State, w: WorkerId, now: Time, skipped: set<Uuid>, claimed: seq<Uuid>)
    requires Selects(s.db.messages, skipped, cfg.batchSize, cfg.lockTimeout, now, claimed)
    requires Inv(cfg, s)
    ensures var messages := Claim(s.db.messages, claimed, w, now);
            AllOwned(s.db.(messages := messages), w, Snapshots(messages, claimed))
  {
    var messages := Claim(s.db.messages, claimed, w, now);
    var db, snapshots := s.db.(messages := messages), Snapshots(messages, claimed);
    forall i | 0 <= i < |claimed| ensures Owned(db, w, snapshots[i]) && snapshots[i].id == claimed[i] {
      assert claimed[i] in Candidates(s.db.messages, skipped, cfg.lockTimeout, now);
      assert LinkOk(s.db.actions, s.db.messages[claimed[i]]);
    }
  }

  // So a dispatch that nobody interferes with, in any reachable state, raises nothing, counts every message it
  // claimed, and leaves each of them published, dead-lettered, or unlocked with its retry time.
  lemma QuietDispatchSettles(cfg: Config, states: seq<State>, events: seq<Event>, n: nat, w: WorkerId, now: Time,
                             skipped: set<Uuid>, claimed: seq<Uuid>,
                             conditions: Uuid -> Condition)
    requires IsRun(cfg, states, events) && n < |states|
    requires Selects(states[n].db.messages, skipped, cfg.batchSize, cfg.lockTimeout, now, claimed)
    ensures var messages := Claim(states[n].db.messages, claimed, w, now);
            var todo := Snapshots(messages, claimed);
            var (after, r) := DeliverAll(cfg, World(states[n].db.(messages := messages), states[n].executions), w, now,
                todo, conditions,
                                         Summary(|claimed|, 0, 0, 0));
            && r.Ok? && r.value.claimed == |claimed| == r.value.published + r.value.retried + r.value.deadLettered
            && forall i {:trigger SettledIn(cfg, after.db.messages, now, todo[i])} | 0 <= i < |todo| ::
               SettledIn(cfg, after.db.messages, now, todo[i])
  {
    ReachableInv(cfg, states, events, n);
    var s, messages := states[n], Claim(states[n].db.messages, claimed, w, now);
    var world, todo, zero := World(s.db.(messages := messages), s.executions), Snapshots(messages, claimed),
      Summary(|claimed|, 0, 0, 0);
    ClaimIsOwned(cfg, s, w, now, skipped, claimed);
    QuietBatchSettles(cfg, world, w, now, todo, conditions, zero);
    CountersAddUp(cfg, world, w, now, todo, conditions, zero);
  }

  // If the dispatch raises, it does so at one message `n`: every message before it was delivered, its own
  // acknowledgement or failure record raised and wrote nothing, and its row and every later one are as the loop
  // found them, whatever other workers had done before: leases that were held are still held, attempts unchanged.
  lemma {:induction false} RaisedSuffixStays(cfg: Config, world: World, w: WorkerId, now: Time, todo: seq<Message>,
                                             conditions: Uuid -> Condition, s: Summary)
    returns (n: nat)
    requires DistinctIds(todo) && DeliverAll(cfg, world, w, now, todo, conditions, s).1.Err?
    ensures n < |todo|
    ensures var (mid, delivered) := DeliverAll(cfg, world, w, now, todo[..n], conditions, s);
            var (last, raised) := Deliver(cfg, mid, w, now, todo[n], conditions(todo[n].id));
            && delivered.Ok? && raised.Err? && last.db == mid.db
            && DeliverAll(cfg, world, w, now, todo, conditions, s) == (last, Err(raised.error))
    ensures var after := DeliverAll(cfg, world, w, now, todo, conditions, s).0;
            && after.db.messages.Keys == world.db.messages.Keys
            && forall i | n <= i < |todo| && todo[i].id in world.db.messages ::
                 after.db.messages[todo[i].id] == world.db.messages[todo[i].id]
    decreases |todo|
  {
    var rest := todo[1..];
    DeliverSettles(cfg, world, w, now, todo[0], conditions(todo[0].id));
    var (after, r) := Deliver(cfg, world, w, now, todo[0], conditions(todo[0].id));
    if r.Err? {
      n := 0;
      assert todo[..0] == [];
    } else {
      forall i, j | 0 <= i < j < |rest| ensures rest[i].id != rest[j].id {
        assert rest[i] == todo[i + 1] && rest[j] == todo[j + 1];
      }
      var m := RaisedSuffixStays(cfg, after, w, now, rest, conditions, Count(s, r.value));
      n := m + 1;
      assert todo[..n][0] == todo[0] && todo[..n][1..] == rest[..m] && todo[n] == rest[m];
      DeliverSettles(cfg, DeliverAll(cfg, after, w, now, rest[..m], conditions, Count(s, r.value)).0, w, now, todo[n],
          conditions(todo[n].id));
      forall i | n <= i < |todo| ensures todo[i] == rest[i - 1] && todo[i].id != todo[0].id {
      }
    }
  }

  // ---------------------------------------------------------------- a dispatch is a run of the protocol

  predicate AtStart(s: State, w: WorkerId) {
    Busy(s, w) && s.workers[w].phase == Fetching
  }

  // The state after `w` handled its first message.
  function AfterDelivery(cfg: Config, s: State, w: WorkerId, c: Condition): State
    requires AtStart(s, w)
  {
    var d := s.workers[w];
    var (after, r) := Deliver(cfg, World(s.db, s.executions), w, d.now, d.todo[0], c);
    s.(db := after.db, executions := after.executions,
       workers := if r.Ok? then Advance(s.workers, w) else s.workers - {w})
  }

  function PhaseOf(handled: Result<string, string>): Phase {
    match handled
    case Ok(reference) => Acknowledging(reference)
    case Err(error) => Failing(error)
  }

  // Acknowledging, or recording the failure, is one step.
  lemma ConcludeIsStep(cfg: Config, s: State, w: WorkerId, handled: Result<string, string>) returns (e: Event)
    requires Busy(s, w)
    ensures var d, t := s.workers[w], WithPhase(s, w, PhaseOf(handled));
            var (db, r) := Conclude(cfg, s.db, w, d.now, d.todo[0], handled);
            Leads(cfg, t, [e], s.(db := db, workers := if r.Ok? then Advance(s.workers, w) else s.workers - {w}))
  {
    var t := WithPhase(s, w, PhaseOf(handled));
    assert t.workers - {w} == s.workers - {w};
    assert Advance(t.workers, w) == Advance(s.workers, w);
    e := if handled.Ok? then Acknowledge(w) else RecordFailed(w);
    OneStep(cfg, t, e);
  }

  lemma DeliveryIsRun(cfg: Config, s: State, w: WorkerId, c: Condition) returns (es: seq<Event>)
    requires AtStart(s, w)
    ensures Leads(cfg, s, es, AfterDelivery(cfg, s, w, c))
  {
    var d := s.workers[w];
    var phase := Fetched(s.db, d.todo[0], c.readable);
    var fetch := FetchAction(w, c.readable);
    OneStep(cfg, s, fetch);
    if phase.Failing? {
      var last := ConcludeIsStep(cfg, s, w, Err(phase.error));
      LeadsOn(cfg, s, [fetch], WithPhase(s, w, phase), [last], AfterDelivery(cfg, s, w, c));
      es := [fetch] + [last];
    } else {
      var tail := StartedDeliveryIsRun(cfg, s, w, c, phase.action);
      es := [fetch] + tail;
      LeadsOn(cfg, s, [fetch], WithPhase(s, w, phase), tail, AfterDelivery(cfg, s, w, c));
    }
  }

  lemma StartedDeliveryIsRun(cfg: Config, s: State, w: WorkerId, c: Condition,
                             action: Action) returns (es: seq<Event>)
    requires AtStart(s, w) && Fetched(s.db, s.workers[w].todo[0], c.readable) == Starting(action)
    ensures Leads(cfg, WithPhase(s, w, Starting(action)), es, AfterDelivery(cfg, s, w, c))
  {
    var fetched := WithPhase(s, w, Starting(action));
    var (x, handled) := Handled(cfg, World(s.db, s.executions), s.workers[w].todo[0], c);
    var called := s.(executions := x);
    OneStep(cfg, fetched, StartWorkflow(w, c.fortune));
    assert AfterStart(cfg, fetched, w, c.fortune) == WithPhase(called, w, PhaseOf(handled));
    var last := ConcludeIsStep(cfg, called, w, handled);
    LeadsOn(cfg, fetched, [StartWorkflow(w, c.fortune)], WithPhase(called, w, PhaseOf(handled)), [last],
        AfterDelivery(cfg, s, w, c));
    es := [StartWorkflow(w, c.fortune)] + [last];
  }

  // The loop, run without interruption, is a run of the protocol that ends with the worker idle and the same
  // tables and executions.
  lemma {:induction false} DispatchIsRun(cfg: Config, s: State, w: WorkerId, conditions: Uuid -> Condition,
                                         summary: Summary)
    returns (es: seq<Event>, t: State)
    requires AtStart(s, w)
    ensures Leads(cfg, s, es, t)
    ensures var d := s.workers[w];
            var after := DeliverAll(cfg, World(s.db, s.executions), w, d.now, d.todo, conditions, summary).0;
            t == s.(db := after.db, executions := after.executions, workers := s.workers - {w})
    decreases |s.workers[w].todo|
  {
    var d := s.workers[w];
    var c := conditions(d.todo[0].id);
    es := DeliveryIsRun(cfg, s, w, c);
    t := AfterDelivery(cfg, s, w, c);
    var (after, r) := Deliver(cfg, World(s.db, s.executions), w, d.now, d.todo[0], c);
    if r.Ok? && |d.todo| > 1 {
      var fs, u := DispatchIsRun(cfg, t, w, conditions, Count(summary, r.value));
      LeadsOn(cfg, s, es, t, fs, u);
      es, t := es + fs, u;
      assert Advance(s.workers, w) - {w} == s.workers - {w};
    } else if r.Ok? {
      assert d.todo[1..] == [];
    }
  }

  // And so is a whole `dispatch_once`, from the claim on.
  lemma DispatchOnceIsRun(cfg: Config, s: State, w: WorkerId, now: Time, skipped: set<Uuid>, claimed: seq<Uuid>,
                          conditions: Uuid -> Condition)
    returns (es: seq<Event>, t: State)
    requires w !in s.workers && Selects(s.db.messages, skipped, cfg.batchSize, cfg.lockTimeout, now, claimed)
    ensures Leads(cfg, s, es, t)
    ensures var messages := Claim(s.db.messages, claimed, w, now);
            var after := DeliverAll(cfg, World(s.db.(messages := messages), s.executions), w, now,
                Snapshots(messages, claimed), conditions,
                                    Summary(|claimed|, 0, 0, 0)).0;
            t == s.(db := after.db, executions := after.executions)
  {
    var claim := ClaimBatch(w, now, skipped, claimed);
    OneStep(cfg, s, claim);
    es, t := [claim], AfterClaim(s, w, now, claimed);
    if claimed != [] {
      var fs, u := DispatchIsRun(cfg, t, w, conditions, Summary(|claimed|, 0, 0, 0));
      LeadsOn(cfg, s, es, t, fs, u);
      assert t.workers - {w} == s.workers;
      es, t := es + fs, u;
    }
  }

  // ---------------------------------------------------------------- the dispatcher object

  class WorkflowService {
    var executions: Executions
    const machine: Machine
    const hex: ActionId -> string

    constructor (machine: Machine, hex: ActionId -> string)
      ensures this.machine == machine && this.hex == hex && executions == map[]
    {
      this.machine, this.hex, executions := machine, hex, map[];
    }

    method StartApproval(action: Action, fortune: Fortune) returns (r: Result<string, StartError>)
      modifies this
      ensures (executions, r) == Start(old(executions), machine, hex(action.id), action, fortune)
    {
      var (after, result) := Start(executions, machine, hex(action.id), action, fortune);
      executions := after;
      r := result;
    }
  }

  class ApprovalWorkflowStartHandler {
    const actions: SqlActionRepository
    const workflow: WorkflowService

    constructor (actions: SqlActionRepository, workflow: WorkflowService)
      ensures this.actions == actions && this.workflow == workflow
    {
      this.actions, this.workflow := actions, workflow;
    }

    // The result's error is the exception's type name.
    method Handle(message: Message, condition: Condition, ghost cfg: Config, ghost db: Database)
      returns (r: Result<string, string>)
      requires actions.tables.Hold(db) && cfg.machine == workflow.machine && cfg.hex == workflow.hex
      modifies workflow
      ensures (workflow.executions, r) == Handled(cfg, World(db, old(workflow.executions)), message, condition)
    {
      if message.eventType != ApprovalWorkflowStart {
        return Err("ValueError");
      }
      if !condition.readable {
        return Err("DatabaseError");
      }
      var found := actions.Get(message.payload.actionId);
      if found.Err? {
        return Err("ActionNotFoundError");
      }
      if found.value.id != message.aggregateId {
        return Err("ValueError");
      }
      var started := workflow.StartApproval(found.value, condition.fortune);
      if started.Err? {
        return Err(ErrorName(started.error));
      }
      return Ok(started.value);
    }
  }

  class OutboxDispatcher {
    const repository: SqlOutboxRepository
    const handler: ApprovalWorkflowStartHandler
    const workerId: WorkerId
    const cfg: Config

    constructor (repository: SqlOutboxRepository, handler: ApprovalWorkflowStartHandler, workerId: WorkerId,
        cfg: Config)
      ensures this.repository == repository && this.handler == handler && this.workerId == workerId && this.cfg == cfg
    {
      this.repository, this.handler, this.workerId, this.cfg := repository, handler, workerId, cfg;
    }

    ghost predicate Wired()
      reads this, repository, handler
    {
      && handler.actions.tables == repository.tables
      && cfg.machine == handler.workflow.machine && cfg.hex == handler.workflow.hex
    }

    // The tables and the workflow service are in the state `world`.
    ghost predicate Standing(world: World)
      reads repository, repository.tables, repository.tables.Rows(), handler, handler.workflow
    {
      repository.tables.Hold(world.db) && handler.workflow.executions == world.executions
    }

    // The body of the loop: deliver one message and acknowledge it, or record its failure.
    method DeliverOne(message: Message, condition: Condition, now: Time, ghost db: Database)
      returns (r: Result<Delivery, OutboxError>, ghost after: World)
      requires Wired() && repository.tables.Hold(db)
      modifies repository.tables.Rows(), handler.workflow
      ensures (after, r) == Deliver(cfg, World(db, old(handler.workflow.executions)), workerId, now, message, condition)
      ensures Standing(after) && repository.tables.Rows() == old(repository.tables.Rows())
    {
      var handled := handler.Handle(message, condition, cfg, db);
      r := ConcludeOne(message, handled, now, db);
      after := World(Conclude(cfg, db, workerId, now, message, handled).0, handler.workflow.executions);
    }

    method ConcludeOne(message: Message, handled: Result<string, string>, now: Time, ghost db: Database)
      returns (r: Result<Delivery, OutboxError>)
      requires repository.tables.Hold(db)
      modifies repository.tables.Rows()
      ensures r == Conclude(cfg, db, workerId, now, message, handled).1
      ensures repository.tables.Hold(Conclude(cfg, db, workerId, now, message, handled).0)
      ensures repository.tables.Rows() == old(repository.tables.Rows())
    {
      if handled.Err? {
        var retryAt := now + RetryDelay(cfg.retryBase, cfg.retryMax, message.attemptCount);
        var dead := repository.RecordFailure(message.id, workerId, handled.error, retryAt, cfg.maxAttempts, now, db);
        if dead.Err? {
          return Err(dead.error);
        }
        return Ok(if dead.value then DeadLettered else Retried);
      }
      var published := repository.MarkPublished(message.id, workerId, handled.value, now, db);
      if published.Err? {
        return Err(published.error);
      }
      return Ok(Delivered);
    }

    /**
     Claim a batch, then deliver it. The tables and executions end as `DeliverAll` says, from the claim on; an
     acknowledgement that raises ends the dispatch with its error.
     */
    method DispatchOnce(now: Time, skipped: set<Uuid>, conditions: Uuid -> Condition)
      returns (r: Result<Summary, OutboxError>, ghost claimed: seq<Uuid>)
      requires Wired() && repository.tables.Valid()
      modifies repository.tables.Rows(), handler.workflow
      ensures repository.tables.Valid()
      ensures Selects(old(repository.tables.MessageValues()), skipped, cfg.batchSize, cfg.lockTimeout, now, claimed)
      ensures var messages := Claim(old(repository.tables.MessageValues()), claimed, workerId, now);
              var (after, result) :=
                DeliverAll(cfg, World(old(repository.tables.Contents()).(messages := messages),
                      old(handler.workflow.executions)),
                           workerId, now, Snapshots(messages, claimed), conditions, Summary(|claimed|, 0, 0, 0));
              && r == result && repository.tables.Contents() == after.db
                 && handler.workflow.executions == after.executions
    {
      var messages: seq<Message>;
      messages, claimed := repository.ClaimBatch(workerId, cfg.batchSize, cfg.lockTimeout, now, skipped);
      r := DeliverBatch(messages, now, conditions, repository.tables.Contents());
    }

    // One turn of the loop.
    method DeliverNext(messages: seq<Message>, k: nat, now: Time, conditions: Uuid -> Condition, s: Summary,
                       ghost world: World)
      returns (r: Result<Summary, OutboxError>, ghost after: World)
      requires Wired() && k < |messages| && Standing(world)
      modifies repository.tables.Rows(), handler.workflow
      ensures DeliverAll(cfg, world, workerId, now, messages[k..], conditions, s)
              == if r.Ok? then DeliverAll(cfg, after, workerId, now, messages[k + 1..], conditions, r.value)
                else (after, r)
      ensures Standing(after) && repository.tables.Rows() == old(repository.tables.Rows())
    {
      var message := messages[k];
      DeliverAllStep(cfg, world, workerId, now, messages, k, conditions, s);
      var delivery;
      delivery, after := DeliverOne(message, conditions(message.id), now, world.db);
      r := if delivery.Err? then Err(delivery.error) else Ok(Count(s, delivery.value));
    }

    method DeliverBatch(messages: seq<Message>, now: Time, conditions: Uuid -> Condition, ghost db: Database)
      returns (r: Result<Summary, OutboxError>)
      requires Wired() && repository.tables.Hold(db)
      modifies repository.tables.Rows(), handler.workflow
      ensures var (after, result) :=
                DeliverAll(cfg, World(db, old(handler.workflow.executions)), workerId, now, messages, conditions,
                           Summary(|messages|, 0, 0, 0));
              r == result && Standing(after)
    {
      ghost var world := World(db, handler.workflow.executions);
      var s := Summary(|messages|, 0, 0, 0);
      ghost var outcome := DeliverAll(cfg, world, workerId, now, messages, conditions, s);
      assert messages[0..] == messages;
      for k := 0 to |messages|
        invariant Standing(world) && repository.tables.Rows() == old(repository.tables.Rows())
        invariant outcome == DeliverAll(cfg, world, workerId, now, messages[k..], conditions, s)
      {
        r, world := DeliverNext(messages, k, now, conditions, s, world);
        if r.Err? {
          return;
        }
        s := r.value;
      }
      return Ok(s);
    }
  }
}
