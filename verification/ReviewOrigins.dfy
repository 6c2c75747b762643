/**
 Where the contents of a review come from: the graph's outcome on the models' answers, and over any sequence of
 requests, with any keys and failures, the requests that gathered the findings and decided the recommendation
 (packages/graphs/supplier_review.py, apps/api/main.py).
 */
module ReviewOrigins {
  import opened Model
  import opened ReviewGraph
  import opened ReviewApi
  import opened ReviewRuns

  // ---------------------------------------------------------------- one call of the graph

  // Every specialist reported and the join saved their findings.
  predicate Gathers(fate: Fate) {
    Reviewing !in fate.raises && Security in fate.reports && Legal in fate.reports && Financial in fate.reports
  }

  function Gathered(fate: Fate): seq<Finding> {
    if Gathers(fate) then fate.reports[Financial] + fate.reports[Legal] + fate.reports[Security] else []
  }

  // The first call gathers the findings, then waits when gated, and otherwise takes the model's own decision.
  lemma FirstRun(x: ExecutionId, gated: bool, fate: Fate)
    ensures var (after, ok) := Invoke(NewCheckpoint(x, gated), None, fate);
            var passes := Gathers(fate) && Confirming !in fate.raises;
            var decides := passes && !gated && Synthesizing !in fate.raises;
            && (after.tenant, after.caseId, after.execution, after.gated) == (x.tenant, x.caseId, x, gated)
            && after.findings == Gathered(fate) && !after.cancelled && after.confirmation == None
            && after.recommendation == (if decides then Some(fate.decision) else None)
            && (after.position == Waiting <==> passes && gated) && (after.position == Reviewing <==> !Gathers(fate))
            && ok == (decides || (passes && gated))
  {
    var start := NewCheckpoint(x, gated);
    if Gathers(fate) {
      var joined := start.(reports := fate.reports, findings := Joined(fate.reports), position := Confirming);
      assert Invoke(start, None, fate) == Invoke(joined, None, fate);
      if Confirming !in fate.raises && !gated {
        assert Invoke(joined, None, fate) == Invoke(joined.(position := Synthesizing), None, fate);
      }
    }
  }

  // A resumed call keeps the findings; it cancels on a rejection, and on a confirmation takes the decision that the
  // model makes in this call.
  lemma ResumedRun(c: Checkpoint, confirmed: bool, fate: Fate)
    requires GraphOk(c) && c.position == Waiting
    ensures var (after, ok) := Invoke(c, Some(confirmed), fate);
            var takes := Waiting !in fate.raises;
            var decides := takes && confirmed && Synthesizing !in fate.raises;
            && (after.tenant, after.caseId, after.execution, after.gated) == (c.tenant, c.caseId, c.execution, c.gated)
            && after.findings == c.findings && after.cancelled == (takes && !confirmed)
            && after.confirmation == (if takes then Some(confirmed) else None)
            && after.recommendation == (if decides then Some(fate.decision) else None)
            && (after.position == Waiting <==> !takes) && after.position != Reviewing
            && ok == (decides || (takes && !confirmed))
  {
    if Waiting !in fate.raises && confirmed {
      var decided := c.(confirmation := Some(true), cancelled := false, completed := false, position := Synthesizing);
      assert Invoke(c, Some(true), fate) == Invoke(decided, None, fate);
    }
  }

  // ---------------------------------------------------------------- one request

  predicate Permitted(s: System, request: Request) {
    var roles := request.principal.roles;
    && request.caseId in s.cases && (Analyst in roles || Admin in roles)
    && (Admin in roles || request.principal.tenant == s.cases[request.caseId].tenant)
  }

  // The execution a permitted request is about.
  function Target(s: System, request: Request): ExecutionId
    requires request.caseId in s.cases
  {
    if request.StartReview? then ExecutionId(s.cases[request.caseId].tenant, request.caseId, request.key)
    else request.execution
  }

  // The request creates this execution.
  predicate Creates(s: System, request: Request, x: ExecutionId) {
    && request.StartReview? && Permitted(s, request) && x == Target(s, request) && x !in s.threads
    && !request.fate.lost
  }

  // The request resumes this execution, which is waiting.
  predicate Resumes(s: System, request: Request, x: ExecutionId) {
    && request.ResumeReview? && Permitted(s, request) && x == request.execution && request.caseId == x.caseId
    && x in s.threads && s.threads[x].position == Waiting && !request.fate.lost
  }

  lemma Waits(s: System, x: ExecutionId)
    requires StoresOk(s) && x in s.threads
    ensures GraphOk(s.threads[x]) && InScope(s.threads[x], x.tenant, x.caseId, x)
    ensures x.caseId in s.cases && s.cases[x.caseId].tenant == x.tenant
    ensures StatusOf(s.threads[x]) == AwaitingInput <==> s.threads[x].position == Waiting
  {
    assert ThreadOk(s, x);
  }

  lemma StartMovesThread(s: System, request: Request, x: ExecutionId)
    requires StoresOk(s) && request.StartReview?
    ensures var t := Handle(s, request).0;
            if Creates(s, request, x) then
              x in t.threads && t.threads[x] == Invoke(NewCheckpoint(x, request.gated), None, request.fate).0
            else SameEntry(s.threads, t.threads, x)
  {
    if x in s.threads {
      Waits(s, x);
    }
  }

  lemma ResumeMovesThread(s: System, request: Request, x: ExecutionId)
    requires StoresOk(s) && request.ResumeReview?
    ensures var t := Handle(s, request).0;
            if Resumes(s, request, x) then
              x in t.threads && t.threads[x] == Invoke(s.threads[x], Some(request.confirmed), request.fate).0
            else SameEntry(s.threads, t.threads, x)
  {
    if request.execution in s.threads {
      Waits(s, request.execution);
    }
  }

  // A request creates an execution, resumes a waiting one, or leaves it as it was.
  lemma ThreadMoves(s: System, request: Request, x: ExecutionId)
    requires StoresOk(s)
    ensures var t := Handle(s, request).0;
            if Creates(s, request, x) then
              x in t.threads && t.threads[x] == Invoke(NewCheckpoint(x, request.gated), None, request.fate).0
            else if Resumes(s, request, x) then
              x in t.threads && t.threads[x] == Invoke(s.threads[x], Some(request.confirmed), request.fate).0
            else SameEntry(s.threads, t.threads, x)
  {
    if request.StartReview? {
      StartMovesThread(s, request, x);
    } else {
      ResumeMovesThread(s, request, x);
    }
  }

  // ---------------------------------------------------------------- all requests

  // What a checkpoint owes to the request that created its execution.
  predicate StartedBy(c: Checkpoint, started: Request) {
    && started.StartReview? && !started.fate.lost
    && c.execution.caseId == started.caseId && c.execution.key == started.key
    && c.gated == started.gated && c.findings == Gathered(started.fate)
    && (c.position != Reviewing ==> Gathers(started.fate))
  }

  // And to the one that ended it: an ungated start itself, or the analyst's answer.
  predicate EndedBy(c: Checkpoint, ended: Request) {
    && !ended.fate.lost && (ended.ResumeReview? <==> c.gated)
    && (ended.ResumeReview? ==> ended.execution == c.execution)
    && (c.recommendation.Some? ==> c.recommendation == Some(ended.fate.decision))
    && (c.recommendation.Some? && ended.ResumeReview? ==> ended.confirmed)
    && (c.cancelled ==> ended.ResumeReview? && !ended.confirmed)
  }

  predicate Ended(s: System, x: ExecutionId) {
    x in s.threads && (s.threads[x].recommendation.Some? || s.threads[x].cancelled)
  }

  predicate EndsAt(s: System, requests: seq<Request>, n: nat, x: ExecutionId)
    requires n < |requests|
  {
    !Ended(After(s, requests[..n]), x) && Ended(After(s, requests[..n + 1]), x)
  }

  predicate StartsAt(s: System, requests: seq<Request>, n: nat, x: ExecutionId)
    requires n < |requests|
  {
    x !in After(s, requests[..n]).threads && x in After(s, requests[..n + 1]).threads
  }

  lemma AfterNext(s: System, requests: seq<Request>, n: nat)
    requires n < |requests|
    ensures After(s, requests[..n + 1]) == Handle(After(s, requests[..n]), requests[n]).0
  {
    assert requests[..n + 1][..n] == requests[..n];
  }

  lemma {:induction false} StoresStayOk(s: System, requests: seq<Request>)
    requires Untouched(s)
    ensures StoresOk(After(s, requests))
    decreases |requests|
  {
    if requests != [] {
      StoresStayOk(s, requests[..|requests| - 1]);
      HandleKeepsStores(After(s, requests[..|requests| - 1]), requests[|requests| - 1]);
    }
  }

  // What one request does to an execution's checkpoint, as far as its origin goes.
  lemma OriginMoves(s: System, request: Request, x: ExecutionId)
    requires StoresOk(s)
    ensures var t := Handle(s, request).0;
            && (x in s.threads ==>
                  && x in t.threads && (Ended(s, x) ==> t.threads[x] == s.threads[x])
                  && (t.threads[x].gated, t.threads[x].findings, t.threads[x].execution)
                     == (s.threads[x].gated, s.threads[x].findings, s.threads[x].execution)
                  && (t.threads[x].position == Reviewing <==> s.threads[x].position == Reviewing)
                  && (!Ended(s, x) && Ended(t, x) ==> request.ResumeReview?))
            && (x !in s.threads && x in t.threads ==> StartedBy(t.threads[x], request))
            && (!Ended(s, x) && Ended(t, x) ==> EndedBy(t.threads[x], request))
  {
    ThreadMoves(s, request, x);
    if x in s.threads {
      Waits(s, x);
    }
    if Creates(s, request, x) {
      FirstRun(x, request.gated, request.fate);
    } else if Resumes(s, request, x) {
      ResumedRun(s.threads[x], request.confirmed, request.fate);
    }
  }

  // Every execution was started by exactly one request of the sequence, and if it ended, was ended by exactly one.
  // The findings are those of the first, the recommendation is the decision made in the second.
  lemma {:induction false} ReviewsKeepTheirOrigin(s: System, requests: seq<Request>, x: ExecutionId)
    returns (a: nat, b: nat)
    requires Untouched(s) && x in After(s, requests).threads
    ensures a < |requests| && StartedBy(After(s, requests).threads[x], requests[a])
    ensures forall i {:trigger StartsAt(s, requests, i, x)} | 0 <= i < |requests| ::
              StartsAt(s, requests, i, x) <==> i == a
    ensures Ended(After(s, requests), x) ==>
              && a <= b < |requests| && EndedBy(After(s, requests).threads[x], requests[b])
              && (requests[b].StartReview? ==> a == b)
              && forall i {:trigger EndsAt(s, requests, i, x)} | 0 <= i < |requests| ::
                   EndsAt(s, requests, i, x) <==> i == b
    ensures !Ended(After(s, requests), x) ==>
              forall i {:trigger EndsAt(s, requests, i, x)} | 0 <= i < |requests| :: !EndsAt(s, requests, i, x)
    decreases |requests|
  {
    var n := |requests| - 1;
    var front, last := requests[..n], requests[n];
    assert requests == requests[..n + 1];
    StoresStayOk(s, front);
    AfterNext(s, requests, n);
    OriginMoves(After(s, front), last, x);
    if x in After(s, front).threads {
      a, b := ReviewsKeepTheirOrigin(s, front, x);
      SameBefore(s, requests, n, x);
      if !Ended(After(s, front), x) {
        b := n;
      }
    } else {
      a, b := n, n;
      NothingBefore(s, requests, x);
    }
  }

  // Looking at the first requests only changes nothing about where they start and end.
  lemma SameBefore(s: System, requests: seq<Request>, n: nat, x: ExecutionId)
    requires n <= |requests|
    ensures forall i {:trigger StartsAt(s, requests, i, x)} | 0 <= i < n ::
              StartsAt(s, requests, i, x) == StartsAt(s, requests[..n], i, x)
    ensures forall i {:trigger EndsAt(s, requests, i, x)} | 0 <= i < n ::
              EndsAt(s, requests, i, x) == EndsAt(s, requests[..n], i, x)
  {
    forall i | 0 <= i < n
      ensures StartsAt(s, requests, i, x) == StartsAt(s, requests[..n], i, x)
      ensures EndsAt(s, requests, i, x) == EndsAt(s, requests[..n], i, x)
    {
      assert requests[..n][..i] == requests[..i] && requests[..n][..i + 1] == requests[..i + 1];
    }
  }

  // An execution that is not there yet was neither started nor ended.
  lemma {:induction false} NothingBefore(s: System, requests: seq<Request>, x: ExecutionId)
    requires Untouched(s) && requests != [] && x !in After(s, requests[..|requests| - 1]).threads
    ensures forall i {:trigger StartsAt(s, requests, i, x)} | 0 <= i < |requests| - 1 :: !StartsAt(s, requests, i, x)
    ensures forall i {:trigger EndsAt(s, requests, i, x)} | 0 <= i < |requests| - 1 :: !EndsAt(s, requests, i, x)
  {
    forall i | 0 <= i < |requests| - 1 ensures !StartsAt(s, requests, i, x) && !EndsAt(s, requests, i, x) {
      if x in After(s, requests[..i + 1]).threads {
        ThreadsStay(s, requests, i + 1, |requests| - 1, x);
      }
    }
  }

  lemma {:induction false} ThreadsStay(s: System, requests: seq<Request>, i: nat, j: nat, x: ExecutionId)
    requires Untouched(s) && i <= j <= |requests| && x in After(s, requests[..i]).threads
    ensures x in After(s, requests[..j]).threads
    decreases j
  {
    if i < j {
      ThreadsStay(s, requests, i, j - 1, x);
      StoresStayOk(s, requests[..j - 1]);
      AfterNext(s, requests, j - 1);
      OriginMoves(After(s, requests[..j - 1]), requests[j - 1], x);
    }
  }

  // ---------------------------------------------------------------- results

  // The result carries the reports of one request and the decision of another.
  predicate Carries(result: ReviewResult, x: ExecutionId, started: Request, ended: Request) {
    var reports := started.fate.reports;
    && result.review == x && result.caseId == x.caseId && result.decision == ended.fate.decision
    && Security in reports && Legal in reports && Financial in reports
    && result.findings == reports[Financial] + reports[Legal] + reports[Security]
  }

  // A stored review, and every completed answer, carries the findings of the request that started its execution and
  // the decision made for the one request that completed it, however many came between and after.
  lemma ReviewsCarryTheirRequests(s: System, requests: seq<Request>, x: ExecutionId, result: ReviewResult)
    returns (a: nat, b: nat)
    requires Untouched(s) && x in After(s, requests).threads
    requires ExecutionOf(After(s, requests).threads[x]).result == Some(result)
             || (x in After(s, requests).reviews && After(s, requests).reviews[x] == result)
    ensures a <= b < |requests| && StartsAt(s, requests, a, x) && EndsAt(s, requests, b, x)
    ensures Carries(result, x, requests[a], requests[b])
    ensures requests[a].StartReview? && requests[a].caseId == x.caseId && requests[a].key == x.key
    ensures if requests[a].gated then
              requests[b].ResumeReview? && requests[b].execution == x && requests[b].confirmed
            else a == b
  {
    StoresStayOk(s, requests);
    var after := After(s, requests);
    Waits(after, x);
    assert x in after.reviews ==> ReviewOk(after, x);
    a, b := ReviewsKeepTheirOrigin(s, requests, x);
  }

  // ---------------------------------------------------------------- answers and records

  // The graph call that the request makes returns.
  predicate CallReturns(request: Request, gated: bool) {
    var fate := request.fate;
    && !fate.lost && !fate.unread
    && if request.StartReview? then
         Gathers(fate) && Confirming !in fate.raises && (gated || Synthesizing !in fate.raises)
       else Waiting !in fate.raises && (request.confirmed ==> Synthesizing !in fate.raises)
  }

  // What an answer says of a checkpoint.
  predicate Reports(e: ReviewExecution, x: ExecutionId, c: Checkpoint) {
    && e.id == x && e.caseId == x.caseId
    && (e.status == Cancelled <==> c.cancelled) && (e.status == Completed <==> c.recommendation.Some?)
    && (e.status == AwaitingInput <==> c.position == Waiting)
    && (e.result == None <==> c.recommendation == None)
    && (c.recommendation.Some? ==>
          e.result == Some(ReviewResult(x, x.caseId, c.findings, c.recommendation.value)))
  }

  lemma ExecutionReports(c: Checkpoint, x: ExecutionId)
    requires GraphOk(c) && InScope(c, x.tenant, x.caseId, x)
    ensures Reports(ExecutionOf(c), x, c)
  {
  }

  // The case is hidden from strangers, then roles are asked for, then the execution is looked at.
  lemma RequestsAreAnswered(s: System, request: Request)
    requires StoresOk(s)
    ensures var (t, r) := Handle(s, request);
            var c, p := request.caseId, request.principal;
            if c !in s.cases || (Admin !in p.roles && p.tenant != s.cases[c].tenant) then r == Err(Missing) && t == s
            else if Analyst !in p.roles && Admin !in p.roles then r == Err(Forbidden) && t == s
            else
              var x := Target(s, request);
              if request.ResumeReview? && (x !in s.threads || x.caseId != c) then r == Err(Missing) && t == s
              else if x in s.threads && (request.StartReview? || Ended(s, x)) then
                r.Ok? && Reports(r.value, x, s.threads[x]) && t.threads == s.threads
              else if x in s.threads && s.threads[x].position != Waiting then r == Err(Conflict) && t == s
              else
                if CallReturns(request, request.StartReview? && request.gated) then
                  r.Ok? && x in t.threads && Reports(r.value, x, t.threads[x])
                else r == Err(ServerError)
  {
    var c := request.caseId;
    if Denial(s, c, request.principal).None? {
      var x := Target(s, request);
      if x in s.threads {
        Waits(s, x);
        ExecutionReports(s.threads[x], x);
      }
      if request.StartReview? && x !in s.threads {
        StartAnswers(s, request);
      } else if request.ResumeReview? && x in s.threads && x.caseId == c && s.threads[x].position == Waiting {
        ResumeAnswers(s, request);
      }
    }
  }

  lemma StartAnswers(s: System, request: Request)
    requires request.StartReview? && Permitted(s, request) && Target(s, request) !in s.threads
    ensures var (t, r) := Handle(s, request);
            var x := Target(s, request);
            if CallReturns(request, request.gated) then r.Ok? && x in t.threads && Reports(r.value, x, t.threads[x])
            else r == Err(ServerError)
  {
    var x := Target(s, request);
    var start := NewCheckpoint(x, request.gated);
    FirstRun(x, request.gated, request.fate);
    InvokeKeepsGraphOk(start, None, request.fate);
    ExecutionReports(Invoke(start, None, request.fate).0, x);
  }

  lemma ResumeAnswers(s: System, request: Request)
    requires StoresOk(s) && request.ResumeReview? && Permitted(s, request)
    requires request.execution in s.threads && request.execution.caseId == request.caseId
    requires s.threads[request.execution].position == Waiting
    ensures var (t, r) := Handle(s, request);
            var x := request.execution;
            if CallReturns(request, false) then r.Ok? && x in t.threads && Reports(r.value, x, t.threads[x])
            else r == Err(ServerError)
  {
    var x := request.execution;
    Waits(s, x);
    ResumedRun(s.threads[x], request.confirmed, request.fate);
    InvokeKeepsGraphOk(s.threads[x], Some(request.confirmed), request.fate);
    ExecutionReports(Invoke(s.threads[x], Some(request.confirmed), request.fate).0, x);
  }

  // The request appends events of these kinds about its case and execution, signed by the analyst where the analyst
  // acted and by the workflow otherwise, sets the status, and stores the execution's result if asked to.
  predicate Records(s: System, t: System, request: Request, kinds: seq<EventKind>, status: CaseStatus, stores: bool)
    requires request.caseId in s.cases
  {
    var c, x := request.caseId, Target(s, request);
    && |t.events| == |s.events| + |kinds| && t.events[..|s.events|] == s.events
    && (forall i | 0 <= i < |kinds| ::
          t.events[|s.events| + i]
          == ReviewEvent(kinds[i], c, x, if kinds[i] == ResumedEvent || kinds[i] == CancelledEvent
                                         then request.principal.subject else "system:review-workflow"))
    && t.cases == s.cases[c := Case(s.cases[c].tenant, status)]
    && (if stores then
          && x !in s.reviews && x in t.threads && t.threads[x].recommendation.Some?
          && t.reviews == s.reviews[x := ReviewResult(x, c, t.threads[x].findings, t.threads[x].recommendation.value)]
        else t.reviews == s.reviews)
  }

  // A start of an execution that is there records its end if nothing did.
  lemma RepeatedStartRecords(s: System, request: Request)
    requires StoresOk(s) && Permitted(s, request) && request.StartReview? && Target(s, request) in s.threads
    ensures var t, x, status := Handle(s, request).0, Target(s, request), s.cases[request.caseId].status;
            if s.threads[x].recommendation.Some? && x !in s.reviews then
              Records(s, t, request, [CompletedEvent], AwaitingApproval, true)
            else if s.threads[x].cancelled && status == InReview then
              Records(s, t, request, [CancelledEvent], NewCase, false)
            else t == s
  {
    Waits(s, Target(s, request));
  }

  lemma FailedStartRecords(s: System, request: Request)
    requires Permitted(s, request) && request.StartReview? && Target(s, request) !in s.threads
    requires !CallReturns(request, request.gated)
    ensures Records(s, Handle(s, request).0, request, [StartedEvent, FailedEvent], ReviewFailed, false)
  {
    FirstRun(Target(s, request), request.gated, request.fate);
  }

  lemma ReturnedStartRecords(s: System, request: Request)
    requires StoresOk(s) && Permitted(s, request) && request.StartReview? && Target(s, request) !in s.threads
    requires CallReturns(request, request.gated)
    ensures var t := Handle(s, request).0;
            if request.gated then Records(s, t, request, [StartedEvent, AwaitingEvent], InReview, false)
            else Records(s, t, request, [StartedEvent, CompletedEvent], AwaitingApproval, true)
  {
    Unreviewed(s, Target(s, request));
    FirstRun(Target(s, request), request.gated, request.fate);
  }

  // A first start is recorded with what became of it.
  lemma FirstStartRecords(s: System, request: Request)
    requires StoresOk(s) && Permitted(s, request) && request.StartReview? && Target(s, request) !in s.threads
    ensures var t := Handle(s, request).0;
            if !CallReturns(request, request.gated) then
              Records(s, t, request, [StartedEvent, FailedEvent], ReviewFailed, false)
            else if request.gated then Records(s, t, request, [StartedEvent, AwaitingEvent], InReview, false)
            else Records(s, t, request, [StartedEvent, CompletedEvent], AwaitingApproval, true)
  {
    if CallReturns(request, request.gated) {
      ReturnedStartRecords(s, request);
    } else {
      FailedStartRecords(s, request);
    }
  }

  // An answer to a waiting execution is recorded with what became of it, and not at all when the call failed.
  lemma ResumeRecords(s: System, request: Request)
    requires StoresOk(s) && Permitted(s, request) && request.ResumeReview?
    requires request.execution in s.threads && request.execution.caseId == request.caseId
    requires s.threads[request.execution].position == Waiting
    ensures var t, status := Handle(s, request).0, s.cases[request.caseId].status;
            if !CallReturns(request, false) then Records(s, t, request, [], status, false)
            else if request.confirmed then
              Records(s, t, request, [ResumedEvent, CompletedEvent], AwaitingApproval, true)
            else Records(s, t, request, [ResumedEvent, CancelledEvent], NewCase, false)
  {
    var x := request.execution;
    Waits(s, x);
    Unreviewed(s, x);
    ResumedRun(s.threads[x], request.confirmed, request.fate);
  }

  // To any other execution it is not an answer: it records the end if nothing did.
  lemma RepeatedResumeRecords(s: System, request: Request)
    requires StoresOk(s) && Permitted(s, request) && request.ResumeReview?
    requires request.execution in s.threads && request.execution.caseId == request.caseId
    requires s.threads[request.execution].position != Waiting
    ensures var t, x, status := Handle(s, request).0, request.execution, s.cases[request.caseId].status;
            if s.threads[x].recommendation.Some? && x !in s.reviews then
              Records(s, t, request, [CompletedEvent], AwaitingApproval, true)
            else if s.threads[x].cancelled && status == InReview then
              Records(s, t, request, [CancelledEvent], NewCase, false)
            else t == s
  {
    Waits(s, request.execution);
  }
}
