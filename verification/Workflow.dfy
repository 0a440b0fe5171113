/** Workflow and step rows (internal/domain/workflow/workflow.go) and the values the
    engine writes into them. A row is a value: every caller of the repository works on a
    private copy and writes the whole row back. */
module Workflow {

  datatype Status = Pending | Running | Succeeded | Failed | NeedsAttention | Cancelled | AwaitingApproval
  {
    /** The statuses executeNext returns on without doing anything. */
    predicate Terminal() {
      Succeeded? || Failed? || Cancelled? || NeedsAttention?
    }
  }

  /** The error column of a workflow: the two messages the engine can write there. */
  datatype Note = NoError | StepFailed(step: string, cause: string) | NoDefinition(sequence: nat, kind: string)

  datatype Row = Row(id: nat, kind: string, key: string, status: Status, currentStep: nat,
                     error: Note, started: bool, finished: bool)

  /** A step's JSON output, as field names and printed values. */
  type Output = map<string, string>

  datatype Step = Step(sequence: nat, name: string, status: Status, output: Output, error: string,
                       attempts: nat, finished: bool)

  /** What a StepFunc returned: a nil error, an ordinary error, or ErrAwaitingApproval. */
  datatype Outcome = Ok(output: Output) | Err(cause: string) | Await

  function NewRow(id: nat, kind: string, key: string): Row {
    Row(id, kind, key, Pending, 0, NoError, false, false)
  }

  function NewSteps(names: seq<string>): seq<Step> {
    seq(|names|, i requires 0 <= i < |names| => Step(i, names[i], Pending, map[], "", 0, false))
  }

  /** The row ClaimNextStep writes and returns. */
  function Claimed(st: Step): Step {
    st.(status := Running, attempts := st.attempts + 1)
  }

  /** The row executeNext hands to UpdateStep once the step function has returned. */
  function Settled(st: Step, o: Outcome): Step {
    match o
    case Ok(output) => st.(status := Succeeded, output := output, finished := true)
    case Err(cause) => st.(status := Failed, error := cause, finished := true)
    case Await => st.(status := Pending, finished := false)
  }

  /** The PENDING branch at the head of executeNext. */
  function Started(wf: Row): Row {
    if wf.status.Pending? then wf.(status := Running, started := true) else wf
  }

  function Finish(wf: Row, status: Status, note: Note): Row {
    wf.(status := status, error := note, finished := true)
  }

  /** The workflow row executeNext writes after the step row. */
  function Progress(wf: Row, st: Step, o: Outcome): Row {
    match o
    case Ok(_) => wf.(currentStep := st.sequence + 1)
    case Err(cause) => Finish(wf, NeedsAttention, StepFailed(st.name, cause))
    case Await => wf.(status := AwaitingApproval)
  }

  /** The sequence number the claim query selects: the lowest PENDING row, or none. */
  function FirstPending(steps: seq<Step>): (k: nat)
    ensures k <= |steps|
    ensures forall j :: 0 <= j < k ==> !steps[j].status.Pending?
    ensures k < |steps| ==> steps[k].status.Pending?
  {
    if |steps| == 0 || steps[0].status.Pending? then 0 else 1 + FirstPending(steps[1..])
  }

  /** What one whole executeNext does to the rows when nothing interferes with it; o is what
      the step function returns if it is called, publish says whether dispatch follows. */
  datatype Handled = Handled(row: Row, steps: seq<Step>, publish: bool)

  function Handle(row: Row, steps: seq<Step>, registered: nat, o: Outcome): Handled {
    var wf := Started(row);
    var k := FirstPending(steps);
    if row.status.Terminal() then Handled(row, steps, false)
    else if k == |steps| then Handled(Finish(wf, Succeeded, NoError), steps, false)
    else
      var st := Claimed(steps[k]);
      if st.sequence >= registered then
        Handled(Finish(wf, Failed, NoDefinition(st.sequence, wf.kind)), steps[k := st], false)
      else
        Handled(Progress(wf, st, o), steps[k := Settled(st, o)], o.Ok?)
  }

  ghost predicate Numbered(steps: seq<Step>) {
    forall j :: 0 <= j < |steps| ==> steps[j].sequence == j
  }

  /** SUCCEEDED up to k, PENDING from k on. */
  ghost predicate Clean(steps: seq<Step>, k: nat) {
    && k <= |steps|
    && (forall j :: 0 <= j < k ==> steps[j].status.Succeeded?)
    && (forall j :: k <= j < |steps| ==> steps[j].status.Pending?)
  }

  /** SUCCEEDED up to k, one row in status st, PENDING after it. */
  ghost predicate OneAt(steps: seq<Step>, k: nat, st: Status) {
    && k < |steps|
    && (forall j :: 0 <= j < k ==> steps[j].status.Succeeded?)
    && steps[k].status == st
    && (forall j :: k < j < |steps| ==> steps[j].status.Pending?)
  }

  /** SUCCEEDED*, at most one RUNNING or FAILED, PENDING*, with k the number of successes. */
  ghost predicate PrefixShape(steps: seq<Step>, k: nat) {
    Clean(steps, k) || OneAt(steps, k, Running) || OneAt(steps, k, Failed)
  }

  lemma {:induction false} CleanPending(steps: seq<Step>, k: nat)
    requires Clean(steps, k)
    ensures FirstPending(steps) == k
  {
    assert k < |steps| ==> steps[k].status.Pending?;
  }
}
