/**
 A claim is a transaction of its own: it selects rows, skipping those other transactions hold locked, and holds
 the row locks until it commits (packages/outbox/repositories.py:104-125). However such transactions overlap,
 their rows are disjoint, and each commit is one atomic claim of the protocol.
 */
module RowLocks {
  import opened Model
  import opened Transactions
  import opened Protocol

  // A transaction between its select and its commit.
  datatype Claiming = Claiming(worker: WorkerId, now: Time, rows: seq<Uuid>)
  datatype Locks = Locks(messages: map<Uuid, Message>, open: map<nat, Claiming>)

  // `Write` is any other transaction: it may insert a row or change one it could lock.
  datatype Move =
    | Select(t: nat, worker: WorkerId, now: Time, rows: seq<Uuid>)
    | Commit(t: nat)
    | Abort(t: nat)
    | Write(m: Uuid, row: Message)

  function Locked(open: map<nat, Claiming>): set<Uuid> {
    set t, m | t in open && m in open[t].rows :: m
  }

  ghost predicate Possible(cfg: Config, k: Locks, move: Move) {
    match move
    case Select(t, _, now, rows) => t !in k.open
      && Selects(k.messages, Locked(k.open), cfg.batchSize, cfg.lockTimeout, now, rows)
    case Commit(t) => t in k.open
    case Abort(t) => t in k.open
    case Write(m, _) => m !in Locked(k.open)
  }

  function Moved(k: Locks, move: Move): Locks
    requires (move.Commit? || move.Abort?) ==> move.t in k.open
  {
    match move
    case Select(t, worker, now, rows) => k.(open := k.open[t := Claiming(worker, now, rows)])
    case Commit(t) => Locks(Claim(k.messages, k.open[t].rows, k.open[t].worker, k.open[t].now), k.open - {t})
    case Abort(t) => k.(open := k.open - {t})
    case Write(m, row) => k.(messages := k.messages[m := row])
  }

  ghost predicate LeadsTo(cfg: Config, k: Locks, moves: seq<Move>, end: Locks)
    decreases |moves|
  {
    if moves == [] then k == end else Possible(cfg, k, moves[0]) && LeadsTo(cfg, Moved(k, moves[0]), moves[1..], end)
  }

  // ---------------------------------------------------------------- what overlapping claims keep

  function Others(messages: map<Uuid, Message>, rows: seq<Uuid>): set<Uuid> {
    set m | m in messages && m !in rows
  }

  // The rows are what a claim that skips every other row would take now.
  ghost predicate Holds(cfg: Config, messages: map<Uuid, Message>, c: Claiming) {
    Selects(messages, Others(messages, c.rows), cfg.batchSize, cfg.lockTimeout, c.now, c.rows)
  }

  predicate Apart(a: Claiming, b: Claiming) {
    forall m | m in a.rows :: m !in b.rows
  }

  ghost predicate LocksOk(cfg: Config, k: Locks) {
    && (forall t {:trigger Holds(cfg, k.messages, k.open[t])} | t in k.open :: Holds(cfg, k.messages, k.open[t]))
    && (forall t, u {:trigger Apart(k.open[t], k.open[u])} | t in k.open && u in k.open && t != u ::
         Apart(k.open[t], k.open[u]))
  }

  // Rows chosen while skipping some others could have been chosen while skipping all others.
  lemma SelectedHolds(cfg: Config, messages: map<Uuid, Message>, skipped: set<Uuid>, c: Claiming)
    requires Selects(messages, skipped, cfg.batchSize, cfg.lockTimeout, c.now, c.rows)
    ensures Holds(cfg, messages, c)
    ensures forall m | m in c.rows :: m !in skipped && m in messages
  {
    forall m | m in c.rows ensures m in Candidates(messages, skipped, cfg.lockTimeout, c.now) {
      var i :| 0 <= i < |c.rows| && c.rows[i] == m;
    }
  }

  // A change to rows it does not hold leaves the transaction what it selected.
  lemma HoldsElsewhere(cfg: Config, before: map<Uuid, Message>, after: map<Uuid, Message>, c: Claiming)
    requires Holds(cfg, before, c)
    requires forall m | m in c.rows && m in before :: m in after && after[m] == before[m]
    ensures Holds(cfg, after, c)
  {
    forall i | 0 <= i < |c.rows|
      ensures c.rows[i] in before && c.rows[i] in Candidates(after, Others(after, c.rows), cfg.lockTimeout, c.now)
    {
      assert c.rows[i] in Candidates(before, Others(before, c.rows), cfg.lockTimeout, c.now);
    }
  }

  lemma SelectKeeps(cfg: Config, k: Locks, move: Move)
    requires move.Select? && Possible(cfg, k, move) && LocksOk(cfg, k)
    ensures LocksOk(cfg, Moved(k, move))
  {
    var c, after := Claiming(move.worker, move.now, move.rows), Moved(k, move);
    SelectedHolds(cfg, k.messages, Locked(k.open), c);
    forall t | t in after.open ensures Holds(cfg, after.messages, after.open[t]) {
      assert t == move.t || Holds(cfg, k.messages, k.open[t]);
    }
    forall t, u | t in after.open && u in after.open && t != u ensures Apart(after.open[t], after.open[u]) {
      assert t != move.t && u != move.t ==> Apart(k.open[t], k.open[u]);
      forall m | m in after.open[t].rows ensures m !in after.open[u].rows {
        assert t != move.t ==> m in Locked(k.open);
      }
    }
  }

  lemma EndKeeps(cfg: Config, k: Locks, move: Move)
    requires (move.Commit? || move.Abort?) && Possible(cfg, k, move) && LocksOk(cfg, k)
    ensures LocksOk(cfg, Moved(k, move))
  {
    var after := Moved(k, move);
    forall t | t in after.open ensures Holds(cfg, after.messages, after.open[t]) {
      assert Holds(cfg, k.messages, k.open[t]) && Apart(k.open[t], k.open[move.t]);
      HoldsElsewhere(cfg, k.messages, after.messages, k.open[t]);
    }
    forall t, u | t in after.open && u in after.open && t != u ensures Apart(after.open[t], after.open[u]) {
      assert Apart(k.open[t], k.open[u]);
    }
  }

  lemma WriteKeeps(cfg: Config, k: Locks, move: Move)
    requires move.Write? && Possible(cfg, k, move) && LocksOk(cfg, k)
    ensures LocksOk(cfg, Moved(k, move))
  {
    var after := Moved(k, move);
    forall t | t in after.open ensures Holds(cfg, after.messages, after.open[t]) {
      assert Holds(cfg, k.messages, k.open[t]);
      HoldsElsewhere(cfg, k.messages, after.messages, k.open[t]);
    }
    forall t, u | t in after.open && u in after.open && t != u ensures Apart(after.open[t], after.open[u]) {
      assert Apart(k.open[t], k.open[u]);
    }
  }

  lemma {:induction false} LocksKept(cfg: Config, k: Locks, moves: seq<Move>, end: Locks)
    requires LocksOk(cfg, k) && LeadsTo(cfg, k, moves, end)
    ensures LocksOk(cfg, end)
    decreases |moves|
  {
    if moves != [] {
      var move := moves[0];
      if move.Select? {
        SelectKeeps(cfg, k, move);
      } else if move.Write? {
        WriteKeeps(cfg, k, move);
      } else {
        EndKeeps(cfg, k, move);
      }
      LocksKept(cfg, Moved(k, move), moves[1..], end);
    }
  }

  // However claims overlap, and whatever else is written meanwhile, no two open claims hold the same message.
  lemma ConcurrentClaimsAreDisjoint(cfg: Config, messages: map<Uuid, Message>, moves: seq<Move>, end: Locks, t: nat,
                                    u: nat)
    requires LeadsTo(cfg, Locks(messages, map[]), moves, end) && t in end.open && u in end.open && t != u
    ensures forall m | m in end.open[t].rows :: m !in end.open[u].rows
  {
    LocksKept(cfg, Locks(messages, map[]), moves, end);
    assert Apart(end.open[t], end.open[u]);
  }

  // And when a claim commits, what it does is one claim step of the protocol at that moment, although its rows
  // were chosen earlier: no update made since is lost, and every row it leases is still due by its clock.
  lemma CommitIsClaimStep(cfg: Config, messages: map<Uuid, Message>, moves: seq<Move>, end: Locks, t: nat, s: State)
    requires LeadsTo(cfg, Locks(messages, map[]), moves, end) && t in end.open
    requires s.db.messages == end.messages && end.open[t].worker !in s.workers
    ensures var c := end.open[t];
            var claim := ClaimBatch(c.worker, c.now, Others(end.messages, c.rows), c.rows);
            && Enabled(cfg, s, claim)
            && Next(cfg, s, claim).db == s.db.(messages := Moved(end, Commit(t)).messages)
  {
    LocksKept(cfg, Locks(messages, map[]), moves, end);
    assert Holds(cfg, end.messages, end.open[t]);
  }
}
