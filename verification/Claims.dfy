/**
 Which rows a claim takes (packages/outbox/repositories.py:104-125): the choice is determined, and a later claim
 takes a leased row exactly when the lease has timed out.
 */
module Claims {
  import opened Model
  import opened Transactions

  // No two candidates were made available and created at the same time.
  predicate NoTies(messages: map<Uuid, Message>, candidates: set<Uuid>)
    requires candidates <= messages.Keys
  {
    forall m, n | m in candidates && n in candidates && m != n ::
      !(Before(messages[m], messages[n]) && Before(messages[n], messages[m]))
  }

  // In both claims, the row at position `i` comes before every row the first `i` positions leave over.
  lemma {:induction false} SelectionsAgree(messages: map<Uuid, Message>, skipped: set<Uuid>, batchSize: nat,
                                           lockTimeout: Duration, now: Time,
                        a: seq<Uuid>, b: seq<Uuid>, n: nat)
    requires Selects(messages, skipped, batchSize, lockTimeout, now, a)
             && Selects(messages, skipped, batchSize, lockTimeout, now, b)
    requires NoTies(messages, Candidates(messages, skipped, lockTimeout, now))
    requires n <= |a| && n <= |b|
    ensures a[..n] == b[..n]
    decreases n
  {
    if n > 0 {
      var i := n - 1;
      SelectionsAgree(messages, skipped, batchSize, lockTimeout, now, a, b, i);
      Precedes(messages, skipped, batchSize, lockTimeout, now, a, b, i);
      Precedes(messages, skipped, batchSize, lockTimeout, now, b, a, i);
      assert a[..n] == a[..i] + [a[i]] && b[..n] == b[..i] + [b[i]];
    }
  }

  lemma Precedes(messages: map<Uuid, Message>, skipped: set<Uuid>, batchSize: nat, lockTimeout: Duration, now: Time,
                 a: seq<Uuid>, b: seq<Uuid>, i: nat)
    requires Selects(messages, skipped, batchSize, lockTimeout, now, a)
             && Selects(messages, skipped, batchSize, lockTimeout, now, b)
    requires i < |a| && i < |b| && a[..i] == b[..i]
    ensures Before(messages[a[i]], messages[b[i]])
  {
    forall j | 0 <= j < i ensures a[j] == b[j] {
      assert a[..i][j] == b[..i][j];
    }
    if b[i] in a {
      var j :| 0 <= j < |a| && a[j] == b[i];
    }
  }

  // Without ties a claim has no choice: it takes the first `batchSize` candidates in dispatch order.
  lemma SelectionIsDetermined(messages: map<Uuid, Message>, skipped: set<Uuid>, batchSize: nat, lockTimeout: Duration,
                              now: Time,
                              a: seq<Uuid>, b: seq<Uuid>)
    requires Selects(messages, skipped, batchSize, lockTimeout, now, a)
             && Selects(messages, skipped, batchSize, lockTimeout, now, b)
    requires NoTies(messages, Candidates(messages, skipped, lockTimeout, now))
    ensures a == b
  {
    if |a| <= |b| {
      SameLength(messages, skipped, batchSize, lockTimeout, now, a, b);
    } else {
      SameLength(messages, skipped, batchSize, lockTimeout, now, b, a);
    }
    SelectionsAgree(messages, skipped, batchSize, lockTimeout, now, a, b, |a|);
    assert a[..|a|] == a && b[..|b|] == b;
  }

  lemma LongerHasMore(candidates: set<Uuid>, a: seq<Uuid>, b: seq<Uuid>)
    requires |a| <= |b| && b[..|a|] == a && Distinct(b) && forall i | 0 <= i < |b| :: b[i] in candidates
    ensures |a| < |b| ==> exists m :: m in candidates && m !in a
  {
    forall j | 0 <= j < |a| ensures a[j] == b[j] {
      assert b[..|a|][j] == b[j];
    }
    if |a| < |b| {
      assert b[|a|] in candidates && b[|a|] !in a;
    }
  }

  lemma SameLength(messages: map<Uuid, Message>, skipped: set<Uuid>, batchSize: nat, lockTimeout: Duration, now: Time,
                   a: seq<Uuid>, b: seq<Uuid>)
    requires Selects(messages, skipped, batchSize, lockTimeout, now, a)
             && Selects(messages, skipped, batchSize, lockTimeout, now, b)
    requires NoTies(messages, Candidates(messages, skipped, lockTimeout, now)) && |a| <= |b|
    ensures |a| == |b|
  {
    SelectionsAgree(messages, skipped, batchSize, lockTimeout, now, a, b, |a|);
    assert a[..|a|] == a;
    LongerHasMore(Candidates(messages, skipped, lockTimeout, now), a, b);
  }

  // After a claim commits, its rows are candidates again exactly from the end of the lock timeout on, by the
  // later claim's clock; and it changed no other candidate.
  lemma LeasedRowIsDueExactlyWhen(messages: map<Uuid, Message>, skipped: set<Uuid>, batchSize: nat,
                                  lockTimeout: Duration, now: Time,
                                  claimed: seq<Uuid>, worker: WorkerId, locked: set<Uuid>, later: Time, m: Uuid)
    requires Selects(messages, skipped, batchSize, lockTimeout, now, claimed)
    ensures var after := Candidates(Claim(messages, claimed, worker, now), locked, lockTimeout, later);
            m in after <==> if m in claimed then m !in locked && now + lockTimeout <= later
                            else m in Candidates(messages, locked, lockTimeout, later)
  {
    if m in claimed {
      var i :| 0 <= i < |claimed| && claimed[i] == m;
      assert claimed[i] in Candidates(messages, skipped, lockTimeout, now);
    }
  }

  // In words of the columns: due means unpublished, not dead-lettered, available by now, and not leased within the
  // timeout.
  predicate IsDue(m: Message, lockTimeout: Duration, now: Time) {
    && m.publishedAt == None && m.deadLetteredAt == None && m.availableAt <= now
    && (m.lockedAt == None || m.lockedAt.value + lockTimeout <= now)
  }

  // `a` became available earlier, or at the same time and was not created later.
  predicate NoLater(a: Message, b: Message) {
    a.availableAt < b.availableAt || (a.availableAt == b.availableAt && a.createdAt <= b.createdAt)
  }

  // A claim takes the oldest due rows: only due and unskipped ones, none twice, in ascending order, and it leaves one
  // out only when the batch is full of rows that are no later.
  lemma ClaimTakesOldestDue(messages: map<Uuid, Message>, skipped: set<Uuid>, batchSize: nat, lockTimeout: Duration,
                            now: Time, claimed: seq<Uuid>)
    requires Selects(messages, skipped, batchSize, lockTimeout, now, claimed)
    ensures |claimed| <= batchSize && forall i, j | 0 <= i < j < |claimed| :: claimed[i] != claimed[j]
    ensures forall i | 0 <= i < |claimed| ::
              claimed[i] in messages && claimed[i] !in skipped && IsDue(messages[claimed[i]], lockTimeout, now)
    ensures forall i, j | 0 <= i < j < |claimed| :: NoLater(messages[claimed[i]], messages[claimed[j]])
    ensures forall m | m in messages && m !in skipped && IsDue(messages[m], lockTimeout, now) && m !in claimed ::
              |claimed| == batchSize && forall i | 0 <= i < |claimed| :: NoLater(messages[claimed[i]], messages[m])
  {
    forall m | m in messages && m !in skipped && IsDue(messages[m], lockTimeout, now)
      ensures m in Candidates(messages, skipped, lockTimeout, now)
    {
    }
    forall i | 0 <= i < |claimed|
      ensures claimed[i] in messages && claimed[i] !in skipped && IsDue(messages[claimed[i]], lockTimeout, now)
    {
      assert claimed[i] in Candidates(messages, skipped, lockTimeout, now);
    }
  }
}
