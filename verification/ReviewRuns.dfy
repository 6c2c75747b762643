/**
 What start and resume requests do to one case over any sequence of requests, handled one at a time, where
 every start on the case uses one idempotency key. Models and checkpoint storage may fail in any request.
 */
module ReviewRuns {
  import opened Model
  import opened ReviewGraph
  import opened ReviewApi

  // ---------------------------------------------------------------- runs

  function After(s: System, requests: seq<Request>): System {
    if requests == [] then s else Handle(After(s, requests[..|requests| - 1]), requests[|requests| - 1]).0
  }

  predicate Untouched(s: System) {
    s.reviews == map[] && s.events == [] && s.threads == map[]
  }

  predicate OneKey(requests: seq<Request>, c: Uuid, k: Uuid) {
    forall i | 0 <= i < |requests| :: requests[i].StartReview? && requests[i].caseId == c ==> requests[i].key == k
  }

  function IdOf(s: System, c: Uuid, k: Uuid): ExecutionId
    requires c in s.cases
  {
    ExecutionId(s.cases[c].tenant, c, k)
  }

  // ---------------------------------------------------------------- counting the audit log

  datatype Tally = Tally(started: nat, failed: nat, awaiting: nat, resumed: nat, completed: nat, cancelled: nat)

  function Bump(t: Tally, kind: EventKind): Tally {
    match kind
    case StartedEvent => t.(started := t.started + 1)
    case FailedEvent => t.(failed := t.failed + 1)
    case AwaitingEvent => t.(awaiting := t.awaiting + 1)
    case ResumedEvent => t.(resumed := t.resumed + 1)
    case CompletedEvent => t.(completed := t.completed + 1)
    case CancelledEvent => t.(cancelled := t.cancelled + 1)
  }

  // The first `n` events, as far as they are about case `c`.
  function TallyUpTo(events: seq<ReviewEvent>, n: nat, c: Uuid): Tally
    requires n <= |events|
  {
    if n == 0 then Tally(0, 0, 0, 0, 0, 0)
    else
      var before := TallyUpTo(events, n - 1, c);
      if events[n - 1].caseId == c then Bump(before, events[n - 1].kind) else before
  }

  function TallyOf(events: seq<ReviewEvent>, c: Uuid): Tally {
    TallyUpTo(events, |events|, c)
  }

  lemma {:induction false} TallyOfPrefix(events: seq<ReviewEvent>, e: ReviewEvent, n: nat, c: Uuid)
    requires n <= |events|
    ensures TallyUpTo(events + [e], n, c) == TallyUpTo(events, n, c)
    decreases n
  {
    if n > 0 {
      TallyOfPrefix(events, e, n - 1, c);
    }
  }

  lemma LogTally(s: System, kind: EventKind, d: Uuid, x: ExecutionId, actor: Subject, c: Uuid)
    ensures TallyOf(Log(s, kind, d, x, actor).events, c) == if d == c then Bump(TallyOf(s.events, c), kind)
            else TallyOf(s.events, c)
  {
    TallyOfPrefix(s.events, ReviewEvent(kind, d, x, actor), |s.events|, c);
  }

  // ---------------------------------------------------------------- the invariant

  predicate ThreadOk(s: System, x: ExecutionId)
    requires x in s.threads
  {
    && InScope(s.threads[x], x.tenant, x.caseId, x) && GraphOk(s.threads[x])
    && x.caseId in s.cases && s.cases[x.caseId].tenant == x.tenant
  }

  // A stored review is the result of its finished execution.
  predicate ReviewOk(s: System, x: ExecutionId)
    requires x in s.reviews
  {
    x in s.threads && ExecutionOf(s.threads[x]).result == Some(s.reviews[x])
  }

  predicate StoresOk(s: System) {
    var stores :=
      && (forall x {:trigger ThreadOk(s, x)} | x in s.threads :: ThreadOk(s, x))
      && (forall x {:trigger ReviewOk(s, x)} | x in s.reviews :: ReviewOk(s, x));
    stores
  }

  predicate OneExecution(s: System, c: Uuid, x: ExecutionId) {
    forall y | y in s.threads && y.caseId == c :: y == x
  }

  // The case status an unfinished, or finished but not yet recorded, execution leaves.
  function OpenStatus(t: Tally, lost: nat): CaseStatus {
    if t.failed > lost then ReviewFailed else InReview
  }

  // The events and status of a case whose execution has the given status; `recorded` says its review is stored.
  predicate Fits(t: Tally, lost: nat, status: CaseStatus, execution: ExecutionStatus, recorded: bool) {
    var bounds := t.started == lost + 1 && lost <= t.failed <= lost + 1 && t.awaiting <= 1 && t.resumed <= 1;
    var progress := match execution
      case Running => t.resumed == t.completed == t.cancelled == 0 && status == OpenStatus(t, lost) && !recorded
      case AwaitingInput =>
        && t.resumed == t.completed == t.cancelled == 0 && status == OpenStatus(t, lost) && !recorded
        && t.awaiting + t.failed == lost + 1
      case Completed =>
        && t.cancelled == 0 && t.completed == (if recorded then 1 else 0)
        && status == (if recorded then AwaitingApproval else OpenStatus(t, lost))
      case Cancelled =>
        && t.completed == 0 && !recorded && t.cancelled <= 1
        && status == (if t.cancelled == 1 then NewCase else OpenStatus(t, lost));
    bounds && progress
  }

  predicate CaseOk(s: System, c: Uuid, x: ExecutionId, lost: nat, initial: CaseStatus)
    requires c in s.cases
  {
    var t, status := TallyOf(s.events, c), s.cases[c].status;
    var agrees :=
      if x in s.threads then Fits(t, lost, status, StatusOf(s.threads[x]), x in s.reviews)
      else
        && t == Tally(lost, lost, 0, 0, 0, 0) && x !in s.reviews
        && status == (if lost > 0 then ReviewFailed else initial);
    agrees
  }

  // ---------------------------------------------------------------- one request

  // A start that failed before the first checkpoint leaves no execution behind.
  predicate LosesStart(s: System, request: Request, c: Uuid) {
    && request.StartReview? && request.caseId == c && Denial(s, c, request.principal).None?
    && Load(s.threads, s.cases[c].tenant, c, ExecutionId(s.cases[c].tenant, c, request.key)).Err?
    && request.fate.lost
  }

  predicate SameEntry<V(==)>(before: map<ExecutionId, V>, after: map<ExecutionId, V>, x: ExecutionId) {
    (x in after <==> x in before) && (x in before ==> after[x] == before[x])
  }

  // Nothing about case `c` differs.
  ghost predicate SameFor(s: System, t: System, c: Uuid) {
    var same :=
      && (c in s.cases ==> c in t.cases && t.cases[c] == s.cases[c]) && TallyOf(t.events, c) == TallyOf(s.events, c)
      && (forall x: ExecutionId {:trigger SameEntry(s.threads, t.threads, x)} ::
            x.caseId == c ==> SameEntry(s.threads, t.threads, x))
      && (forall x: ExecutionId {:trigger SameEntry(s.reviews, t.reviews, x)} ::
            x.caseId == c ==> SameEntry(s.reviews, t.reviews, x));
    same
  }

  lemma SameForTransitive(s: System, t: System, u: System, c: Uuid)
    requires c in s.cases && SameFor(s, t, c) && SameFor(t, u, c)
    ensures SameFor(s, u, c)
  {
    forall x: ExecutionId | x.caseId == c
      ensures SameEntry(s.threads, u.threads, x) && SameEntry(s.reviews, u.reviews, x)
    {
      assert SameEntry(s.threads, t.threads, x) && SameEntry(t.threads, u.threads, x);
      assert SameEntry(s.reviews, t.reviews, x) && SameEntry(t.reviews, u.reviews, x);
    }
  }

  lemma PersistedElsewhere(s: System, d: Uuid, result: ReviewResult, c: Uuid)
    requires d in s.cases && d != c && result.review.caseId == d
    ensures SameFor(s, Persisted(s, d, result), c)
  {
    LogTally(WithStatus(s.(reviews := s.reviews[result.review := result]), d, AwaitingApproval), CompletedEvent, d,
        result.review, WORKFLOW, c);
  }

  lemma StartConcludedElsewhere(s: System, d: Uuid, x: ExecutionId, actor: Subject, before: CaseStatus, created: bool,
                                execution: ReviewExecution, c: Uuid)
    requires d in s.cases && d != c
             && (execution.status == Completed ==> execution.result.Some? && execution.result.value.review.caseId == d)
    ensures var after := StartConcluded(s, d, x, actor, before, created, execution);
            SameFor(s, after, c)
  {
    match execution.status
    case Completed => PersistedElsewhere(s, d, execution.result.value, c);
    case Cancelled => LogTally(WithStatus(s, d, NewCase), CancelledEvent, d, x, actor, c);
    case AwaitingInput => LogTally(s, AwaitingEvent, d, x, WORKFLOW, c);
    case Running =>
  }

  lemma ResumeConcludedElsewhere(s: System, d: Uuid, x: ExecutionId, actor: Subject, before: CaseStatus,
                                 awaited: bool, execution: ReviewExecution, c: Uuid)
    requires d in s.cases && c in s.cases && d != c
    requires execution.status == Completed ==> execution.result.Some? && execution.result.value.review.caseId == d
    ensures var after := ResumeConcluded(s, d, x, actor, before, awaited, execution);
            SameFor(s, after, c)
  {
    var resumed := if awaited then Log(s, ResumedEvent, d, x, actor) else s;
    LogTally(s, ResumedEvent, d, x, actor, c);
    LogTally(WithStatus(resumed, d, NewCase), CancelledEvent, d, x, actor, c);
    if execution.status == Completed {
      PersistedElsewhere(resumed, d, execution.result.value, c);
      SameForTransitive(s, resumed, Persisted(resumed, d, execution.result.value), c);
    }
  }

  // A graph call keeps its checkpoint in order and in scope, and touches no other.
  lemma CallKeepsThread(threads: map<ExecutionId, Checkpoint>, x: ExecutionId, c: Checkpoint, answer: Option<bool>,
                        fate: Fate)
    requires GraphOk(c) && InScope(c, x.tenant, x.caseId, x)
    ensures var (after, r) := Called(threads, x, c, answer, fate);
            && after.Keys == threads.Keys + {x} && GraphOk(after[x]) && InScope(after[x], x.tenant, x.caseId, x)
            && (forall y | y in threads && y != x :: after[y] == threads[y])
            && (r.Ok? ==> r.value == ExecutionOf(after[x]))
  {
    InvokeKeepsGraphOk(c, answer, fate);
    InvokeEndsWhere(c, answer, fate);
  }

  // The case is marked and the graph runs, before anything is concluded from it.
  lemma BegunElsewhere(s: System, d: Uuid, x: ExecutionId, gated: bool, fate: Fate, c: Uuid)
    requires d in s.cases && c in s.cases && d != c && x.caseId == d && x !in s.threads
    ensures var after := Begun(s, d, x).(threads := StartThread(s.threads, x, gated, fate).0);
            SameFor(s, after, c)
    ensures StartThread(s.threads, x, gated, fate).1.Ok? ==>
              var execution := StartThread(s.threads, x, gated, fate).1.value;
              execution.status == Completed ==> execution.result.value.review.caseId == d
  {
    CallKeepsThread(s.threads, x, NewCheckpoint(x, gated), None, fate);
    LogTally(WithStatus(s, d, InReview), StartedEvent, d, x, WORKFLOW, c);
  }

  lemma CreatedElsewhere(s: System, d: Uuid, x: ExecutionId, actor: Subject, gated: bool, fate: Fate, c: Uuid)
    requires d in s.cases && c in s.cases && d != c && x.caseId == d && x !in s.threads
    ensures SameFor(s, Created(s, d, x, actor, gated, fate).0, c)
  {
    BegunElsewhere(s, d, x, gated, fate, c);
    var (threads, r) := StartThread(s.threads, x, gated, fate);
    var called := Begun(s, d, x).(threads := threads);
    if r.Ok? {
      StartConcludedElsewhere(called, d, x, actor, s.cases[d].status, true, r.value, c);
    } else {
      LogTally(WithStatus(called, d, ReviewFailed), FailedEvent, d, x, WORKFLOW, c);
    }
    SameForTransitive(s, called, Created(s, d, x, actor, gated, fate).0, c);
  }

  // A request is about its own case: everything of every other case stays as it was.
  lemma OtherCasesStay(s: System, request: Request, c: Uuid)
    requires StoresOk(s) && request.caseId != c && c in s.cases
    ensures SameFor(s, Handle(s, request).0, c)
  {
    var d := request.caseId;
    if Denial(s, d, request.principal).None? {
      match request
      case StartReview(_, principal, key, gated, fate) =>
        var x := ExecutionId(s.cases[d].tenant, d, key);
        if x in s.threads {
          assert ThreadOk(s, x);
          StartConcludedElsewhere(s, d, x, principal.subject, s.cases[d].status, false, ExecutionOf(s.threads[x]), c);
        } else {
          CreatedElsewhere(s, d, x, principal.subject, gated, fate, c);
        }
      case ResumeReview(_, _, x, _, _) =>
        if Load(s.threads, s.cases[d].tenant, d, x).Ok? {
          ResumedElsewhere(s, request, c);
        }
    }
  }

  lemma ResumedElsewhere(s: System, request: Request, c: Uuid)
    requires StoresOk(s) && request.ResumeReview? && request.caseId != c && c in s.cases
    requires Denial(s, request.caseId, request.principal).None?
    requires Load(s.threads, s.cases[request.caseId].tenant, request.caseId, request.execution).Ok?
    ensures SameFor(s, Handle(s, request).0, c)
  {
    var d, x := request.caseId, request.execution;
    assert ThreadOk(s, x);
    CallKeepsThread(s.threads, x, s.threads[x], Some(request.confirmed), request.fate);
    var (threads, r) := ResumeThread(s.threads, s.cases[d].tenant, d, x, request.confirmed, request.fate);
    var called := s.(threads := threads);
    assert SameFor(s, called, c);
    if r.Ok? {
      var awaited := StatusOf(s.threads[x]) == AwaitingInput;
      ResumeConcludedElsewhere(called, d, x, request.principal.subject, s.cases[d].status, awaited, r.value, c);
      SameForTransitive(s, called, Handle(s, request).0, c);
    }
  }

  // ---------------------------------------------------------------- requests about the case itself

  // Tenants, threads and reviews stay in order.
  lemma PersistedKeepsStores(s: System, c: Uuid, x: ExecutionId)
    requires StoresOk(s) && c in s.cases && x in s.threads && StatusOf(s.threads[x]) == Completed
    ensures StoresOk(Persisted(s, c, ExecutionOf(s.threads[x]).result.value))
  {
    var after := Persisted(s, c, ExecutionOf(s.threads[x]).result.value);
    assert ThreadOk(s, x);
    forall y | y in after.threads ensures ThreadOk(after, y) {
      assert ThreadOk(s, y);
    }
    forall y | y in after.reviews ensures ReviewOk(after, y) {
      assert y == x || ReviewOk(s, y);
    }
  }

  // Only statuses and events differ.
  predicate SameStores(s: System, t: System) {
    && t.threads == s.threads && t.reviews == s.reviews && t.cases.Keys == s.cases.Keys
    && forall c | c in s.cases :: t.cases[c].tenant == s.cases[c].tenant
  }

  lemma SameStoresKeep(s: System, t: System)
    requires StoresOk(s) && SameStores(s, t)
    ensures StoresOk(t)
  {
    forall y | y in t.threads ensures ThreadOk(t, y) {
      assert ThreadOk(s, y);
    }
    forall y | y in t.reviews ensures ReviewOk(t, y) {
      assert ReviewOk(s, y);
    }
  }

  lemma StartConcludedKeepsStores(s: System, c: Uuid, x: ExecutionId, actor: Subject, before: CaseStatus,
                                  created: bool)
    requires StoresOk(s) && c in s.cases && x in s.threads
    ensures var after := StartConcluded(s, c, x, actor, before, created, ExecutionOf(s.threads[x]));
            StoresOk(after)
  {
    if StatusOf(s.threads[x]) == Completed {
      PersistedKeepsStores(s, c, x);
    } else {
      SameStoresKeep(s, StartConcluded(s, c, x, actor, before, created, ExecutionOf(s.threads[x])));
    }
  }

  lemma ResumeConcludedKeepsStores(s: System, c: Uuid, x: ExecutionId, actor: Subject, before: CaseStatus,
                                   awaited: bool)
    requires StoresOk(s) && c in s.cases && x in s.threads
    ensures var after := ResumeConcluded(s, c, x, actor, before, awaited, ExecutionOf(s.threads[x]));
            StoresOk(after)
  {
    var resumed := if awaited then Log(s, ResumedEvent, c, x, actor) else s;
    SameStoresKeep(s, resumed);
    if StatusOf(s.threads[x]) == Completed {
      PersistedKeepsStores(resumed, c, x);
    } else {
      SameStoresKeep(s, ResumeConcluded(s, c, x, actor, before, awaited, ExecutionOf(s.threads[x])));
    }
  }

  // A call stores the new checkpoint of an execution that has no review yet.
  lemma CalledKeepsStores(s: System, x: ExecutionId, c: Checkpoint, answer: Option<bool>, fate: Fate)
    requires StoresOk(s) && GraphOk(c) && InScope(c, x.tenant, x.caseId, x) && x !in s.reviews
    requires x.caseId in s.cases && s.cases[x.caseId].tenant == x.tenant
    ensures StoresOk(s.(threads := Called(s.threads, x, c, answer, fate).0))
  {
    CallKeepsThread(s.threads, x, c, answer, fate);
    var t := s.(threads := Called(s.threads, x, c, answer, fate).0);
    forall y | y in t.threads ensures ThreadOk(t, y) {
      assert y == x || ThreadOk(s, y);
    }
    forall y | y in t.reviews ensures ReviewOk(t, y) {
      assert ReviewOk(s, y);
    }
  }

  lemma Unreviewed(s: System, x: ExecutionId)
    requires StoresOk(s) && (x !in s.threads || StatusOf(s.threads[x]) != Completed)
    ensures x !in s.reviews
  {
    assert x in s.reviews ==> ReviewOk(s, x);
  }

  lemma CreatedKeepsStores(s: System, c: Uuid, x: ExecutionId, actor: Subject, gated: bool, fate: Fate)
    requires StoresOk(s) && c in s.cases && x == ExecutionId(s.cases[c].tenant, c, x.key) && x !in s.threads
    ensures StoresOk(Created(s, c, x, actor, gated, fate).0)
  {
    var begun := Begun(s, c, x);
    SameStoresKeep(s, begun);
    Unreviewed(begun, x);
    var (threads, r) := StartThread(s.threads, x, gated, fate);
    var called := begun.(threads := threads);
    if !fate.lost {
      CallKeepsThread(s.threads, x, NewCheckpoint(x, gated), None, fate);
      CalledKeepsStores(begun, x, NewCheckpoint(x, gated), None, fate);
    }
    if r.Ok? {
      StartConcludedKeepsStores(called, c, x, actor, s.cases[c].status, true);
    } else {
      SameStoresKeep(called, Created(s, c, x, actor, gated, fate).0);
    }
  }

  lemma ResumedKeepsStores(s: System, request: Request)
    requires StoresOk(s) && request.ResumeReview? && Denial(s, request.caseId, request.principal).None?
    ensures StoresOk(Handle(s, request).0)
  {
    var c, x := request.caseId, request.execution;
    if Load(s.threads, s.cases[c].tenant, c, x).Ok? {
      assert ThreadOk(s, x);
      var (threads, r) := ResumeThread(s.threads, s.cases[c].tenant, c, x, request.confirmed, request.fate);
      if StatusOf(s.threads[x]) == AwaitingInput && !request.fate.lost {
        Unreviewed(s, x);
        CallKeepsThread(s.threads, x, s.threads[x], Some(request.confirmed), request.fate);
        CalledKeepsStores(s, x, s.threads[x], Some(request.confirmed), request.fate);
      }
      assert StoresOk(s.(threads := threads));
      if r.Ok? {
        var awaited := StatusOf(s.threads[x]) == AwaitingInput;
        ResumeConcludedKeepsStores(s.(threads := threads), c, x, request.principal.subject, s.cases[c].status, awaited);
      }
    }
  }

  lemma HandleKeepsStores(s: System, request: Request)
    requires StoresOk(s)
    ensures StoresOk(Handle(s, request).0)
  {
    if Denial(s, request.caseId, request.principal).None? {
      match request
      case StartReview(c, principal, key, gated, fate) =>
        var x := ExecutionId(s.cases[c].tenant, c, key);
        if x in s.threads {
          assert ThreadOk(s, x);
          StartConcludedKeepsStores(s, c, x, principal.subject, s.cases[c].status, false);
        } else {
          CreatedKeepsStores(s, c, x, principal.subject, gated, fate);
        }
      case ResumeReview(_, _, _, _, _) => ResumedKeepsStores(s, request);
    }
  }

  lemma PersistedFits(s: System, c: Uuid, x: ExecutionId, lost: nat, initial: CaseStatus)
    requires c in s.cases && x in s.threads && s.threads[x].execution == x && StatusOf(s.threads[x]) == Completed
    requires CaseOk(s, c, x, lost, initial)
    ensures var after := Persisted(s, c, ExecutionOf(s.threads[x]).result.value);
            CaseOk(after, c, x, lost, initial)
    ensures x in Persisted(s, c, ExecutionOf(s.threads[x]).result.value).reviews
  {
    var result := ExecutionOf(s.threads[x]).result.value;
    LogTally(WithStatus(s.(reviews := s.reviews[x := result]), c, AwaitingApproval), CompletedEvent, c, x, WORKFLOW, c);
  }

  // A start of an execution that exists already.
  lemma ReplayedFits(s: System, c: Uuid, x: ExecutionId, actor: Subject, lost: nat, initial: CaseStatus)
    requires c in s.cases && x in s.threads && s.threads[x].execution == x && CaseOk(s, c, x, lost, initial)
    ensures var after := StartConcluded(s, c, x, actor, s.cases[c].status, false, ExecutionOf(s.threads[x]));
            CaseOk(after, c, x, lost, initial)
  {
    if StatusOf(s.threads[x]) == Completed {
      PersistedFits(s, c, x, lost, initial);
    }
    LogTally(WithStatus(s, c, NewCase), CancelledEvent, c, x, actor, c);
  }

  // A first start that raised: it was lost, or left a checkpoint behind.
  lemma FailedStartFits(s: System, c: Uuid, x: ExecutionId, actor: Subject, gated: bool, fate: Fate, lost: nat,
                        initial: CaseStatus)
    requires c in s.cases && x !in s.threads && CaseOk(s, c, x, lost, initial)
             && StartThread(s.threads, x, gated, fate).1.Err?
    ensures var after := Created(s, c, x, actor, gated, fate).0;
            CaseOk(after, c, x, if fate.lost then lost + 1 else lost, initial)
  {
    var called := Begun(s, c, x).(threads := StartThread(s.threads, x, gated, fate).0);
    LogTally(WithStatus(s, c, InReview), StartedEvent, c, x, WORKFLOW, c);
    LogTally(WithStatus(called, c, ReviewFailed), FailedEvent, c, x, WORKFLOW, c);
    if !fate.lost {
      InvokeEndsWhere(NewCheckpoint(x, gated), None, fate);
    }
  }

  // A first start that returned, paused or completed.
  lemma ReturnedStartFits(s: System, c: Uuid, x: ExecutionId, actor: Subject, gated: bool, fate: Fate, lost: nat,
                          initial: CaseStatus)
    requires c in s.cases && x !in s.threads && CaseOk(s, c, x, lost, initial)
             && StartThread(s.threads, x, gated, fate).1.Ok?
    ensures var after := Created(s, c, x, actor, gated, fate).0;
            CaseOk(after, c, x, lost, initial)
  {
    var (threads, r) := StartThread(s.threads, x, gated, fate);
    var called := Begun(s, c, x).(threads := threads);
    LogTally(WithStatus(s, c, InReview), StartedEvent, c, x, WORKFLOW, c);
    InvokeEndsWhere(NewCheckpoint(x, gated), None, fate);
    LogTally(called, AwaitingEvent, c, x, WORKFLOW, c);
    if r.value.status == Completed {
      PersistedFits(called, c, x, lost, initial);
    }
  }

  lemma CreatedFits(s: System, c: Uuid, x: ExecutionId, actor: Subject, gated: bool, fate: Fate, lost: nat,
                    initial: CaseStatus)
    requires c in s.cases && x !in s.threads && CaseOk(s, c, x, lost, initial)
    ensures var after := Created(s, c, x, actor, gated, fate).0;
            CaseOk(after, c, x, if fate.lost then lost + 1 else lost, initial)
  {
    if StartThread(s.threads, x, gated, fate).1.Ok? {
      ReturnedStartFits(s, c, x, actor, gated, fate, lost, initial);
    } else {
      FailedStartFits(s, c, x, actor, gated, fate, lost, initial);
    }
  }

  // Resuming an execution that is not waiting only records what was left unrecorded.
  lemma RepeatedResumeFits(s: System, c: Uuid, x: ExecutionId, actor: Subject, lost: nat, initial: CaseStatus)
    requires c in s.cases && x in s.threads && s.threads[x].execution == x && CaseOk(s, c, x, lost, initial)
    requires StatusOf(s.threads[x]) != AwaitingInput
    ensures var after := ResumeConcluded(s, c, x, actor, s.cases[c].status, false, ExecutionOf(s.threads[x]));
            CaseOk(after, c, x, lost, initial)
  {
    if StatusOf(s.threads[x]) == Completed {
      PersistedFits(s, c, x, lost, initial);
    }
    LogTally(WithStatus(s, c, NewCase), CancelledEvent, c, x, actor, c);
  }

  // The waiting execution moved to `after`; nothing is recorded yet.
  lemma MovedFits(s: System, c: Uuid, x: ExecutionId, after: Checkpoint, lost: nat, initial: CaseStatus)
    requires c in s.cases && x in s.threads && CaseOk(s, c, x, lost, initial) && StatusOf(s.threads[x]) == AwaitingInput
    ensures CaseOk(s.(threads := s.threads[x := after]), c, x, lost, initial)
  {
  }

  // Resuming the waiting execution.
  lemma AwaitedResumeFits(s: System, c: Uuid, x: ExecutionId, actor: Subject, after: Checkpoint, lost: nat,
                          initial: CaseStatus)
    requires c in s.cases && x in s.threads && CaseOk(s, c, x, lost, initial) && StatusOf(s.threads[x]) == AwaitingInput
    requires after.execution == x && (StatusOf(after) == Completed || StatusOf(after) == Cancelled)
    ensures var after := ResumeConcluded(s.(threads := s.threads[x := after]), c, x, actor, s.cases[c].status, true,
              ExecutionOf(after));
            CaseOk(after, c, x, lost, initial)
  {
    var moved := s.(threads := s.threads[x := after]);
    var resumed := Log(moved, ResumedEvent, c, x, actor);
    LogTally(moved, ResumedEvent, c, x, actor, c);
    LogTally(WithStatus(resumed, c, NewCase), CancelledEvent, c, x, actor, c);
    if StatusOf(after) == Completed {
      PersistedFits(resumed, c, x, lost, initial);
    }
  }

  // A resume call, however it ends.
  lemma ResumedFits(s: System, c: Uuid, principal: Principal, x: ExecutionId, confirmed: bool, fate: Fate, lost: nat,
                    initial: CaseStatus)
    requires Denial(s, c, principal).None? && x in s.threads && CaseOk(s, c, x, lost, initial)
    requires InScope(s.threads[x], s.cases[c].tenant, c, x) && ShapeOk(s.threads[x])
    ensures var after := Resumed(s, c, principal, x, confirmed, fate).0;
            CaseOk(after, c, x, lost, initial)
  {
    var current := s.threads[x];
    if StatusOf(current) != AwaitingInput {
      RepeatedResumeFits(s, c, x, principal.subject, lost, initial);
    } else if !fate.lost {
      var (after, ok) := Invoke(current, Some(confirmed), fate);
      InvokeEndsWhere(current, Some(confirmed), fate);
      if ok && !fate.unread {
        AwaitedResumeFits(s, c, x, principal.subject, after, lost, initial);
      } else {
        MovedFits(s, c, x, after, lost, initial);
      }
    }
  }

  lemma StartedFits(s: System, c: Uuid, principal: Principal, x: ExecutionId, gated: bool, fate: Fate, lost: nat,
                    initial: CaseStatus)
    requires StoresOk(s) && Denial(s, c, principal).None? && x == ExecutionId(s.cases[c].tenant, c, x.key)
    requires CaseOk(s, c, x, lost, initial)
    ensures var after := Started(s, c, principal, x.key, gated, fate).0;
            CaseOk(after, c, x, if x !in s.threads && fate.lost then lost + 1 else lost, initial)
  {
    if x in s.threads {
      assert ThreadOk(s, x);
      ReplayedFits(s, c, x, principal.subject, lost, initial);
    } else {
      CreatedFits(s, c, x, principal.subject, gated, fate, lost, initial);
    }
  }

  ghost predicate Inv(s: System, c: Uuid, x: ExecutionId, lost: nat, initial: CaseStatus) {
    var stores := StoresOk(s) && OneExecution(s, c, x);
    var about := c in s.cases && x.caseId == c && x.tenant == s.cases[c].tenant;
    var record := about && CaseOk(s, c, x, lost, initial);
    stores && record
  }

  lemma StartThreads(s: System, c: Uuid, principal: Principal, x: ExecutionId, gated: bool, fate: Fate)
    requires c in s.cases && x == ExecutionId(s.cases[c].tenant, c, x.key)
    ensures var after := Started(s, c, principal, x.key, gated, fate).0;
            after.threads.Keys <= s.threads.Keys + {x} && c in after.cases && after.cases[c].tenant == x.tenant
  {
  }

  lemma ResumeThreads(s: System, c: Uuid, principal: Principal, x: ExecutionId, confirmed: bool, fate: Fate)
    requires c in s.cases
    ensures var after := Resumed(s, c, principal, x, confirmed, fate).0;
            after.threads.Keys == s.threads.Keys && c in after.cases && after.cases[c].tenant == s.cases[c].tenant
  {
  }

  lemma HandleKeepsInv(s: System, request: Request, c: Uuid, x: ExecutionId, lost: nat, initial: CaseStatus)
    requires Inv(s, c, x, lost, initial)
    requires request.StartReview? && request.caseId == c ==> request.key == x.key
    ensures Inv(Handle(s, request).0, c, x, if LosesStart(s, request, c) then lost + 1 else lost, initial)
  {
    HandleKeepsStores(s, request);
    if request.caseId != c {
      OtherCasesStay(s, request, c);
      assert SameEntry(s.threads, Handle(s, request).0.threads, x);
      assert SameEntry(s.reviews, Handle(s, request).0.reviews, x);
      forall y | y in Handle(s, request).0.threads && y.caseId == c ensures y == x {
        assert SameEntry(s.threads, Handle(s, request).0.threads, y);
      }
    } else {
      match request {
        case StartReview(_, principal, _, gated, fate) => StartThreads(s, c, principal, x, gated, fate);
        case ResumeReview(_, principal, y, confirmed, fate) => ResumeThreads(s, c, principal, y, confirmed, fate);
      }
      OwnRequestFits(s, request, c, x, lost, initial);
    }
  }

  lemma OwnRequestFits(s: System, request: Request, c: Uuid, x: ExecutionId, lost: nat, initial: CaseStatus)
    requires Inv(s, c, x, lost, initial) && request.caseId == c && (request.StartReview? ==> request.key == x.key)
    requires c in Handle(s, request).0.cases
    ensures var after := Handle(s, request).0;
            CaseOk(after, c, x, if LosesStart(s, request, c) then lost + 1 else lost, initial)
  {
    if Denial(s, c, request.principal).None? {
      match request
      case StartReview(_, principal, _, gated, fate) =>
        assert x in s.threads ==> ThreadOk(s, x);
        StartedFits(s, c, principal, x, gated, fate, lost, initial);
      case ResumeReview(_, principal, y, confirmed, fate) =>
        if Load(s.threads, s.cases[c].tenant, c, y).Ok? {
          assert ThreadOk(s, y);
          assert y == x;
          ResumedFits(s, c, principal, x, confirmed, fate, lost, initial);
        }
    }
  }

  // ---------------------------------------------------------------- any sequence of requests

  // How many starts on the case failed before their first checkpoint.
  function LostStarts(s: System, requests: seq<Request>, c: Uuid): nat {
    if requests == [] then 0
    else
      var before, last := requests[..|requests| - 1], requests[|requests| - 1];
      LostStarts(s, before, c) + if LosesStart(After(s, before), last, c) then 1 else 0
  }

  lemma {:induction false} RunKeepsInv(s: System, requests: seq<Request>, c: Uuid, k: Uuid)
    requires Untouched(s) && c in s.cases && OneKey(requests, c, k)
    ensures Inv(After(s, requests), c, IdOf(s, c, k), LostStarts(s, requests, c), s.cases[c].status)
    decreases |requests|
  {
    if requests != [] {
      var before, last := requests[..|requests| - 1], requests[|requests| - 1];
      RunKeepsInv(s, before, c, k);
      HandleKeepsInv(After(s, before), last, c, IdOf(s, c, k), LostStarts(s, before, c), s.cases[c].status);
    }
  }

  // Whatever fails, waiting, resumption, completion and cancellation are audited at most once, and the last two
  // exclude each other; a start is audited once for the execution and once more for every start that was lost.
  lemma AuditedAtMostOnce(s: System, requests: seq<Request>, c: Uuid, k: Uuid)
    requires Untouched(s) && c in s.cases && OneKey(requests, c, k)
    ensures var after := After(s, requests);
            var t := TallyOf(after.events, c);
            && t.awaiting <= 1 && t.resumed <= 1 && t.completed <= 1 && t.cancelled <= 1
               && t.completed + t.cancelled <= 1
            && t.started == LostStarts(s, requests, c) + (if IdOf(s, c, k) in after.threads then 1 else 0)
  {
    RunKeepsInv(s, requests, c, k);
  }

  // The case status says where the execution is: a stored review awaits approval, an audited cancellation
  // made the case new again, and until either the case is in review, or failed since a start raised.
  lemma StatusFollowsExecution(s: System, requests: seq<Request>, c: Uuid, k: Uuid)
    requires Untouched(s) && c in s.cases && OneKey(requests, c, k) && IdOf(s, c, k) in After(s, requests).threads
    ensures var after, x := After(s, requests), IdOf(s, c, k);
            var t, execution := TallyOf(after.events, c), ExecutionOf(after.threads[x]);
            && c in after.cases
            && (t.completed == 1 <==> x in after.reviews)
            && (x in after.reviews ==>
                  && execution.status == Completed && execution.result == Some(after.reviews[x])
                  && after.reviews[x].caseId == c)
            && (t.cancelled == 1 ==> execution.status == Cancelled)
            && after.cases[c].status
               == if t.completed == 1 then AwaitingApproval
                  else if t.cancelled == 1 then NewCase
                  else if t.failed > LostStarts(s, requests, c) then ReviewFailed
                  else InReview
  {
    RunKeepsInv(s, requests, c, k);
    var after, x := After(s, requests), IdOf(s, c, k);
    assert ThreadOk(after, x);
    assert x in after.reviews ==> ReviewOk(after, x);
  }

  // ---------------------------------------------------------------- terminal states absorb

  // The execution ended and its end is recorded.
  predicate Recorded(s: System, c: Uuid, x: ExecutionId) {
    && c in s.cases && x in s.threads
    && ((StatusOf(s.threads[x]) == Completed && x in s.reviews)
         || (StatusOf(s.threads[x]) == Cancelled && s.cases[c].status == NewCase))
  }

  // Its end is recorded, or nothing will be: it broke off between two checkpoints, or was cancelled unrecorded
  // while the case is not in review.
  predicate Settled(s: System, c: Uuid, x: ExecutionId) {
    && c in s.cases && x in s.threads
    && match StatusOf(s.threads[x])
       case Running => true
       case AwaitingInput => false
       case Completed => x in s.reviews
       case Cancelled => s.cases[c].status != InReview
  }

  lemma SettledStep(s: System, request: Request, c: Uuid, x: ExecutionId, lost: nat, initial: CaseStatus)
    requires Inv(s, c, x, lost, initial) && Settled(s, c, x)
    requires request.StartReview? && request.caseId == c ==> request.key == x.key
    ensures var after := Handle(s, request).0;
            Settled(after, c, x) && SameFor(s, after, c)
    ensures request.StartReview? && request.caseId == c && Denial(s, c, request.principal).None? ==>
              Handle(s, request).1 == Ok(ExecutionOf(s.threads[x]))
  {
    assert ThreadOk(s, x);
    if request.caseId != c {
      OtherCasesStay(s, request, c);
      assert SameEntry(s.threads, Handle(s, request).0.threads, x);
      assert SameEntry(s.reviews, Handle(s, request).0.reviews, x);
    } else if request.ResumeReview? && request.execution in s.threads {
      assert ThreadOk(s, request.execution);
    }
  }

  // Once settled, no sequence of further requests changes the case, its execution, its review or its audit
  // trail, and every permitted start answers with that same execution.
  lemma {:induction false} SettledStays(s: System, requests: seq<Request>, more: seq<Request>, c: Uuid, k: Uuid)
    requires Untouched(s) && c in s.cases && OneKey(requests + more, c, k)
    requires Settled(After(s, requests), c, IdOf(s, c, k))
    ensures SameFor(After(s, requests), After(s, requests + more), c)
    ensures Settled(After(s, requests + more), c, IdOf(s, c, k))
    decreases |more|
  {
    if more == [] {
      assert requests + more == requests;
    } else {
      var front, last := more[..|more| - 1], more[|more| - 1];
      var all := requests + more;
      assert all[..|all| - 1] == requests + front && all[|all| - 1] == last;
      SettledStays(s, requests, front, c, k);
      RunKeepsInv(s, requests + front, c, k);
      SettledStep(After(s, requests + front), last, c, IdOf(s, c, k), LostStarts(s, requests + front, c),
          s.cases[c].status);
      assert forall i | 0 <= i < |requests| :: requests[i] == all[i];
      RunKeepsInv(s, requests, c, k);
      SameForTransitive(After(s, requests), After(s, requests + front), After(s, all), c);
    }
  }

  // An end the failed request did not record is recorded by the next permitted request, or never; a cancellation
  // exactly when no start of the execution had failed.
  lemma NextRequestRecords(s: System, requests: seq<Request>, request: Request, c: Uuid, k: Uuid)
    requires Untouched(s) && c in s.cases && OneKey(requests + [request], c, k)
    requires request.caseId == c && (request.ResumeReview? ==> request.execution == IdOf(s, c, k))
    requires Denial(After(s, requests), c, request.principal).None? && IdOf(s, c, k) in After(s, requests).threads
    ensures var before, x := After(s, requests), IdOf(s, c, k);
            var after := Handle(before, request).0;
            var status := StatusOf(before.threads[x]);
            && (status != AwaitingInput ==> Settled(after, c, x))
            && (status == Completed ==> Recorded(after, c, x))
            && (status == Cancelled ==>
                  (Recorded(after, c, x) <==>
                   Recorded(before, c, x) || TallyOf(before.events, c).failed == LostStarts(s, requests, c)))
  {
    assert (requests + [request])[|requests|] == request;
    assert requests == (requests + [request])[..|requests|];
    RunKeepsInv(s, requests, c, k);
    assert ThreadOk(After(s, requests), IdOf(s, c, k));
  }

  // Every report is in, but reading the state back fails.
  const UNREAD := Fate(false, map[Security := [], Legal := [], Financial := []], {}, Decision.Approve, true)

  // A cancelled execution whose case failed before it was recorded.
  predicate Lost(s: System, c: Uuid, x: ExecutionId) {
    var failed := c in s.cases && s.cases[c].status == ReviewFailed;
    var cancelled := x in s.threads && StatusOf(s.threads[x]) == Cancelled;
    failed && cancelled
  }

  lemma LostStays(s: System, requests: seq<Request>, more: seq<Request>, c: Uuid, k: Uuid)
    requires Untouched(s) && c in s.cases && OneKey(requests + more, c, k) && Lost(After(s, requests), c, IdOf(s, c, k))
    ensures Lost(After(s, requests + more), c, IdOf(s, c, k))
            && TallyOf(After(s, requests + more).events, c).cancelled == 0
  {
    var before, after := After(s, requests), After(s, requests + more);
    SettledStays(s, requests, more, c, k);
    RunKeepsInv(s, requests + more, c, k);
    assert SameEntry(before.threads, after.threads, IdOf(s, c, k));
  }

  // A gated start that cannot read the state back, a rejection that cannot either, and a resume.
  function LosingRequests(c: Uuid, k: Uuid, x: ExecutionId, analyst: Principal): (requests: seq<Request>)
    ensures |requests| == 3 && OneKey(requests, c, k)
  {
    var reject := ResumeReview(c, analyst, x, false, UNREAD);
    [StartReview(c, analyst, k, true, UNREAD), reject, reject]
  }

  lemma OneKeyJoined(a: seq<Request>, b: seq<Request>, c: Uuid, k: Uuid)
    requires OneKey(a, c, k) && OneKey(b, c, k)
    ensures OneKey(a + b, c, k)
  {
  }

  // Three requests after which a cancelled execution is never recorded, whatever is asked later. The case
  // stays failed for good.
  lemma CancellationCanBeLost(s: System, c: Uuid, k: Uuid, analyst: Principal,
                              more: seq<Request>) returns (requests: seq<Request>)
    requires Untouched(s) && c in s.cases && Denial(s, c, analyst).None? && OneKey(more, c, k)
    ensures |requests| == 3 && OneKey(requests, c, k) && LostStarts(s, requests, c) == 0
    ensures var after, x := After(s, requests + more), IdOf(s, c, k);
            Lost(after, c, x) && !Recorded(after, c, x) && TallyOf(after.events, c).cancelled == 0
  {
    requests := LosingRequests(c, k, IdOf(s, c, k), analyst);
    LostRun(s, c, k, analyst);
    OneKeyJoined(requests, more, c, k);
    LostStays(s, requests, more, c, k);
  }

  lemma ThreeRequests(s: System, c: Uuid, p: Request, q: Request, r: Request)
    ensures var one, two := Handle(s, p).0, Handle(Handle(s, p).0, q).0;
            && After(s, [p, q, r]) == Handle(two, r).0
            && (!p.fate.lost && !q.fate.lost && !r.fate.lost ==> LostStarts(s, [p, q, r], c) == 0)
  {
    assert [p, q, r][..2] == [p, q] && [p, q][..1] == [p] && [p][..0] == [];
    assert After(s, [p]) == Handle(After(s, []), p).0;
    assert After(s, [p, q]) == Handle(After(s, [p]), q).0;
    assert LostStarts(s, [p], c) == LostStarts(s, [], c) + if LosesStart(After(s, []), p, c) then 1 else 0;
    assert LostStarts(s, [p, q], c) == LostStarts(s, [p], c) + if LosesStart(After(s, [p]), q, c) then 1 else 0;
  }

  // The gated start leaves the execution waiting, the case failed.
  lemma UnreadStart(s: System, c: Uuid, k: Uuid, analyst: Principal)
    requires Untouched(s) && c in s.cases && Denial(s, c, analyst).None?
    ensures var after, x := Started(s, c, analyst, k, true, UNREAD).0, IdOf(s, c, k);
            && Denial(after, c, analyst).None? && after.cases[c] == s.cases[c].(status := ReviewFailed)
            && x in after.threads && ShapeOk(after.threads[x]) && InScope(after.threads[x], s.cases[c].tenant, c, x)
            && StatusOf(after.threads[x]) == AwaitingInput
  {
    var start := NewCheckpoint(IdOf(s, c, k), true);
    InvokeEndsWhere(start, None, UNREAD);
    InvokeKeepsGraphOk(start, None, UNREAD);
  }

  // A rejection that cannot be read back cancels the execution and nothing else.
  lemma UnreadRejection(s: System, c: Uuid, analyst: Principal, x: ExecutionId)
    requires Denial(s, c, analyst).None? && x in s.threads && InScope(s.threads[x], s.cases[c].tenant, c, x)
    requires ShapeOk(s.threads[x])
             && (StatusOf(s.threads[x]) == AwaitingInput
                  || (StatusOf(s.threads[x]) == Cancelled && s.cases[c].status != InReview))
    ensures var after := Resumed(s, c, analyst, x, false, UNREAD).0;
            && after.cases == s.cases && x in after.threads && StatusOf(after.threads[x]) == Cancelled
            && ShapeOk(after.threads[x]) && InScope(after.threads[x], s.cases[c].tenant, c, x)
  {
    InvokeEndsWhere(s.threads[x], Some(false), UNREAD);
  }

  lemma LostRun(s: System, c: Uuid, k: Uuid, analyst: Principal)
    requires Untouched(s) && c in s.cases && Denial(s, c, analyst).None?
    ensures var x := IdOf(s, c, k);
            var requests := LosingRequests(c, k, x, analyst);
            var after := After(s, requests);
            Lost(after, c, x) && LostStarts(s, requests, c) == 0
  {
    var x := IdOf(s, c, k);
    var start, reject := StartReview(c, analyst, k, true, UNREAD), ResumeReview(c, analyst, x, false, UNREAD);
    var one := Handle(s, start).0;
    var two := Handle(one, reject).0;
    ThreeRequests(s, c, start, reject, reject);
    UnreadStart(s, c, k, analyst);
    UnreadRejection(one, c, analyst, x);
    UnreadRejection(two, c, analyst, x);
  }

  // ---------------------------------------------------------------- nothing fails

  // The one history each end has.
  function CalmTally(c: Checkpoint): Tally {
    var gate := if c.gated then 1 else 0;
    match StatusOf(c)
    case Running => Tally(0, 0, 0, 0, 0, 0)
    case AwaitingInput => Tally(1, 0, 1, 0, 0, 0)
    case Completed => Tally(1, 0, gate, gate, 1, 0)
    case Cancelled => Tally(1, 0, 1, 1, 0, 1)
  }

  function CalmStatus(status: ExecutionStatus): CaseStatus {
    match status
    case Running => ReviewFailed
    case AwaitingInput => InReview
    case Completed => AwaitingApproval
    case Cancelled => NewCase
  }

  predicate CalmCase(s: System, c: Uuid, x: ExecutionId)
    requires c in s.cases
  {
    x in s.threads ==>
      var status := StatusOf(s.threads[x]);
      status != Running
      && (TallyOf(s.events, c), s.cases[c].status, x in s.reviews)
         == (CalmTally(s.threads[x]), CalmStatus(status), status == Completed)
  }

  lemma CalmCreated(s: System, c: Uuid, x: ExecutionId, actor: Subject, gated: bool, fate: Fate)
    requires c in s.cases && x !in s.threads && CaseOk(s, c, x, 0, s.cases[c].status) && Calm(fate)
    ensures c in Created(s, c, x, actor, gated, fate).0.cases && CalmCase(Created(s, c, x, actor, gated, fate).0, c, x)
  {
    var (after, ok) := Invoke(NewCheckpoint(x, gated), None, fate);
    InvokeEndsWhere(NewCheckpoint(x, gated), None, fate);
    var called := Begun(s, c, x).(threads := s.threads[x := after]);
    LogTally(WithStatus(s, c, InReview), StartedEvent, c, x, WORKFLOW, c);
    LogTally(called, AwaitingEvent, c, x, WORKFLOW, c);
    var result := ReviewResult(x, x.caseId, after.findings, after.recommendation.GetOr(Decision.Reject));
    LogTally(WithStatus(called.(reviews := s.reviews[x := result]), c, AwaitingApproval), CompletedEvent, c, x,
        WORKFLOW, c);
  }

  lemma AwaitedIsCalm(s: System, c: Uuid, x: ExecutionId, actor: Subject, after: Checkpoint)
    requires c in s.cases && x in s.threads && CalmCase(s, c, x) && StatusOf(s.threads[x]) == AwaitingInput
    requires after.execution == x && after.gated && (StatusOf(after) == Completed || StatusOf(after) == Cancelled)
    ensures var after := ResumeConcluded(s.(threads := s.threads[x := after]), c, x, actor, s.cases[c].status, true,
              ExecutionOf(after));
            CalmCase(after, c, x)
  {
    var moved := s.(threads := s.threads[x := after]);
    var resumed := Log(moved, ResumedEvent, c, x, actor);
    LogTally(moved, ResumedEvent, c, x, actor, c);
    LogTally(WithStatus(resumed, c, NewCase), CancelledEvent, c, x, actor, c);
    if StatusOf(after) == Completed {
      var reviews := s.reviews[x := ExecutionOf(after).result.value];
      LogTally(WithStatus(resumed.(reviews := reviews), c, AwaitingApproval), CompletedEvent, c, x, WORKFLOW, c);
    }
  }

  lemma CalmResumed(s: System, c: Uuid, principal: Principal, x: ExecutionId, confirmed: bool, fate: Fate)
    requires Denial(s, c, principal).None? && x in s.threads && CalmCase(s, c, x) && Calm(fate)
    requires InScope(s.threads[x], s.cases[c].tenant, c, x) && ShapeOk(s.threads[x])
    ensures var after := Resumed(s, c, principal, x, confirmed, fate).0;
            c in after.cases && CalmCase(after, c, x)
  {
    if StatusOf(s.threads[x]) == AwaitingInput {
      InvokeEndsWhere(s.threads[x], Some(confirmed), fate);
      AwaitedIsCalm(s, c, x, principal.subject, Invoke(s.threads[x], Some(confirmed), fate).0);
    }
  }

  lemma CalmStarted(s: System, c: Uuid, principal: Principal, x: ExecutionId, gated: bool, fate: Fate,
                    initial: CaseStatus)
    requires Denial(s, c, principal).None? && CaseOk(s, c, x, 0, initial) && CalmCase(s, c, x) && Calm(fate)
    requires x == ExecutionId(s.cases[c].tenant, c, x.key)
    requires x in s.threads ==> InScope(s.threads[x], s.cases[c].tenant, c, x)
    ensures var after := Started(s, c, principal, x.key, gated, fate).0;
            c in after.cases && CalmCase(after, c, x)
  {
    if x !in s.threads {
      CalmCreated(s, c, x, principal.subject, gated, fate);
    }
  }

  lemma OwnCalmStep(s: System, request: Request, c: Uuid, x: ExecutionId, initial: CaseStatus)
    requires Inv(s, c, x, 0, initial) && CalmCase(s, c, x) && Calm(request.fate)
    requires request.caseId == c && (request.StartReview? ==> request.key == x.key)
    ensures c in Handle(s, request).0.cases && CalmCase(Handle(s, request).0, c, x)
  {
    if Denial(s, c, request.principal).None? {
      match request
      case StartReview(_, principal, _, gated, fate) =>
        assert x in s.threads ==> ThreadOk(s, x);
        CalmStarted(s, c, principal, x, gated, fate, initial);
      case ResumeReview(_, principal, y, confirmed, fate) =>
        if Load(s.threads, s.cases[c].tenant, c, y).Ok? {
          assert ThreadOk(s, y);
          assert y == x;
          CalmResumed(s, c, principal, x, confirmed, fate);
        }
    }
  }

  lemma CalmStays(s: System, t: System, c: Uuid, x: ExecutionId)
    requires c in s.cases && x.caseId == c && SameFor(s, t, c) && CalmCase(s, c, x)
    ensures c in t.cases && CalmCase(t, c, x)
  {
    assert SameEntry(s.threads, t.threads, x) && SameEntry(s.reviews, t.reviews, x);
  }

  lemma CalmStep(s: System, request: Request, c: Uuid, x: ExecutionId, initial: CaseStatus)
    requires Inv(s, c, x, 0, initial) && CalmCase(s, c, x) && Calm(request.fate)
    requires request.StartReview? && request.caseId == c ==> request.key == x.key
    ensures c in Handle(s, request).0.cases && CalmCase(Handle(s, request).0, c, x)
  {
    if request.caseId == c {
      OwnCalmStep(s, request, c, x, initial);
    } else {
      OtherCasesStay(s, request, c);
      CalmStays(s, Handle(s, request).0, c, x);
    }
  }

  // When nothing fails, the status of the execution decides the case status, the stored review and the exact
  // number of every audit event, however often requests were repeated.
  lemma {:induction false} CalmHistory(s: System, requests: seq<Request>, c: Uuid, k: Uuid)
    requires Untouched(s) && c in s.cases && OneKey(requests, c, k)
    requires forall i | 0 <= i < |requests| :: Calm(requests[i].fate)
    ensures c in After(s, requests).cases && CalmCase(After(s, requests), c, IdOf(s, c, k))
    ensures LostStarts(s, requests, c) == 0
    decreases |requests|
  {
    if requests != [] {
      var before, last := requests[..|requests| - 1], requests[|requests| - 1];
      CalmHistory(s, before, c, k);
      RunKeepsInv(s, before, c, k);
      CalmStep(After(s, before), last, c, IdOf(s, c, k), s.cases[c].status);
    }
  }
}
