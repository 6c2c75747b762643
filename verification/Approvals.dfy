/**
 Idempotent workflow starts and the rebuilt execution reference (packages/workflows/approvals.py),
 against the external Step Functions service that owns the executions.
 */
module Approvals {
  import opened Model

  // ---------------------------------------------------------------- the service

  // A state machine ARN as its owner knows it; `qualifier` is a version or an alias.
  datatype Machine = Machine(prefix: string, name: string, qualifier: Option<string>)

  datatype StartInput = StartInput(actionId: ActionId, caseId: Uuid, tenant: Tenant, status: Status)
  datatype Outcome = Running | Succeeded | RejectedOutcome | UnexpectedOutcome | TimedOut
  datatype Execution = Execution(input: StartInput, outcome: Outcome)
  type Executions = map<string, Execution>

  // How a call fares: it is answered, refused before it took effect, or its answer is lost or unusable.
  datatype Fortune = Answered | Refused | AnswerLost

  datatype Reply = Started(arn: string) | AlreadyExists | Unavailable | WithoutArn

  function MachineArn(m: Machine): string {
    m.prefix + ":stateMachine:" + m.name + if m.qualifier.Some? then ":" + m.qualifier.value else ""
  }

  function ServiceArn(m: Machine, executionName: string): string {
    m.prefix + ":execution:" + m.name + ":" + executionName
  }

  // "stateMachine" is the resource type of the ARN, not an earlier field, and machine names hold no colon.
  predicate WellFormed(m: Machine) {
    ':' !in m.name && Find(m.prefix + ":stateMachine:", ":stateMachine:") == Some(|m.prefix|)
  }

  // A name is taken once; repeating a running execution's start with the same input is answered with its ARN.
  function StartExecution(x: Executions, m: Machine, name: string, input: StartInput, fortune: Fortune)
    : (Executions, Reply)
  {
    if fortune == Refused then (x, Unavailable)
    else
      var after := if name in x then x else x[name := Execution(input, Running)];
      if fortune == AnswerLost then (after, WithoutArn)
      else if name in x && (x[name].input != input || x[name].outcome != Running) then (after, AlreadyExists)
      else (after, Started(ServiceArn(m, name)))
  }

  // ---------------------------------------------------------------- the adapter

  datatype StartError = ClientError | NoArn | InvalidMachineArn | QualifiedMachineArn

  predicate OccursAt(s: string, pattern: string, i: nat) {
    i + |pattern| <= |s| && s[i..i + |pattern|] == pattern
  }

  function FindFrom(s: string, pattern: string, from: nat): (at: Option<nat>)
    requires from <= |s|
    ensures at.Some? ==> from <= at.value && OccursAt(s, pattern, at.value)
    ensures forall i: nat | from <= i && OccursAt(s, pattern, i) :: at.Some? && at.value <= i
    decreases |s| - from
  {
    if from + |pattern| > |s| then None
    else if OccursAt(s, pattern, from) then Some(from)
    else if from == |s| then None
    else FindFrom(s, pattern, from + 1)
  }

  // The first occurrence of `pattern`.
  function Find(s: string, pattern: string): Option<nat> {
    FindFrom(s, pattern, 0)
  }

  function ExecutionArn(machineArn: string, executionName: string): Result<string, StartError> {
    var marker := ":stateMachine:";
    var at := Find(machineArn, marker);
    if at.None? then Err(InvalidMachineArn)
    else
      var prefix, name := machineArn[..at.value], machineArn[at.value + |marker|..];
      if ':' in name then Err(QualifiedMachineArn)
      else Ok(prefix + ":execution:" + name + ":" + executionName)
  }

  function ExecutionName(hex: string): string {
    "supplier-action-" + hex
  }

  function InputFor(action: Action): StartInput {
    StartInput(action.id, action.caseId, action.tenant, action.status)
  }

  // `hex` is the action id's hexadecimal text.
  function Start(x: Executions, m: Machine, hex: string, action: Action, fortune: Fortune)
    : (Executions, Result<string, StartError>)
  {
    var name := ExecutionName(hex);
    var (after, reply) := StartExecution(x, m, name, InputFor(action), fortune);
    match reply
    case Started(arn) => (after, Ok(arn))
    case AlreadyExists => (after, ExecutionArn(MachineArn(m), name))
    case Unavailable => (after, Err(ClientError))
    case WithoutArn => (after, Err(NoArn))
  }

  // ---------------------------------------------------------------- what redelivery sees

  lemma FindInPrefix(a: string, b: string, pattern: string)
    requires Find(a, pattern).Some?
    ensures Find(a + b, pattern) == Find(a, pattern)
  {
    var at := Find(a, pattern).value;
    assert (a + b)[at..at + |pattern|] == a[at..at + |pattern|];
    assert OccursAt(a + b, pattern, at);
    var found := Find(a + b, pattern).value;
    assert (a + b)[found..found + |pattern|] == a[found..found + |pattern|];
    assert OccursAt(a, pattern, found);
  }

  // The reference rebuilt from the configured ARN is the service's own, exactly when that ARN is unqualified.
  lemma RebuiltReference(m: Machine, executionName: string)
    requires WellFormed(m)
    ensures ExecutionArn(MachineArn(m), executionName)
            == if m.qualifier == None then Ok(m.prefix + ":execution:" + m.name + ":" + executionName)
               else Err(QualifiedMachineArn)
  {
    var marker := ":stateMachine:";
    var rest := m.name + if m.qualifier.Some? then ":" + m.qualifier.value else "";
    var arn := MachineArn(m);
    assert arn == (m.prefix + marker) + rest;
    FindInPrefix(m.prefix + marker, rest, marker);
    assert arn[..|m.prefix|] == m.prefix && arn[|m.prefix| + |marker|..] == rest;
    if m.qualifier.Some? {
      assert rest[|m.name|] == ':';
    } else {
      assert rest == m.name;
    }
  }

  lemma ReferenceText(m: Machine, hex: string)
    ensures ServiceArn(m, ExecutionName(hex)) == m.prefix + ":execution:" + m.name + ":supplier-action-" + hex
  {
    assert m.prefix + ":execution:" + m.name + ":" + ("supplier-action-" + hex)
           == m.prefix + ":execution:" + m.name + ":supplier-action-" + hex;
  }

  // A run of starts of one action, whatever its status is at each of them and however each call fares.
  function StartAll(x: Executions, m: Machine, hex: string, starts: seq<(Action, Fortune)>)
    : (r: (Executions, seq<Result<string, StartError>>))
    ensures |r.1| == |starts|
  {
    if starts == [] then (x, [])
    else
      var n := |starts| - 1;
      var (before, results) := StartAll(x, m, hex, starts[..n]);
      var (after, result) := Start(before, m, hex, starts[n].0, starts[n].1);
      (after, results + [result])
  }

  // Every reference any start returns is the one reference of the action, and one execution at most exists for it.
  lemma {:induction false} RedeliveryIsStable(x: Executions, m: Machine, hex: string, starts: seq<(Action, Fortune)>)
    requires WellFormed(m)
    ensures var (after, results) := StartAll(x, m, hex, starts);
            var reference := m.prefix + ":execution:" + m.name + ":supplier-action-" + hex;
            && (forall i | 0 <= i < |starts| && results[i].Ok? :: results[i].value == reference)
            && (forall name | name in x :: name in after && after[name] == x[name])
            && after.Keys <= x.Keys + {"supplier-action-" + hex}
    decreases |starts|
  {
    ReferenceText(m, hex);
    if starts != [] {
      RedeliveryIsStable(x, m, hex, starts[..|starts| - 1]);
      RebuiltReference(m, ExecutionName(hex));
    }
  }

  // A start that reaches the service succeeds at once, or once the action has moved on, exactly
  // when the machine's ARN is unqualified.
  lemma RestartSucceedsExactlyWhen(x: Executions, m: Machine, hex: string, action: Action)
    requires WellFormed(m)
    ensures var name := ExecutionName(hex);
            var accepted := name !in x || x[name] == Execution(InputFor(action), Running);
            Start(x, m, hex, action, Answered).1.Ok? <==> accepted || m.qualifier.None?
  {
    RebuiltReference(m, ExecutionName(hex));
  }

  lemma DistinctActionsHaveDistinctReferences(m: Machine, hex: string, other: string)
    requires hex != other
    ensures ServiceArn(m, ExecutionName(hex)) != ServiceArn(m, ExecutionName(other))
  {
    var a, b := ServiceArn(m, ExecutionName(hex)), ServiceArn(m, ExecutionName(other));
    var n := |m.prefix + ":execution:" + m.name + ":" + "supplier-action-"|;
    assert a[n..] == hex && b[n..] == other;
  }
}
