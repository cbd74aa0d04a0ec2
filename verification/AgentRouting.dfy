/** The two step-selection loops of the worker: the dispatcher's choice and the failure reporter's choice. */
module AgentRouting {
  import opened Options
  import opened AgentRows

  datatype Route = ToApproval | ToTool | ToFinalize

  /** What the dispatcher concludes from one reading of the task. */
  datatype Choice = TaskStopped | ReviewNeeded | ToolFailed | NothingToRun | Go(row: StepRow, route: Route)

  predicate Settled(status: StepStatus) {
    status == StepSucceeded || status == StepRejected || status == StepSkipped
  }

  /** A tool step the dispatcher may run. */
  predicate Ready(status: StepStatus) {
    status == StepPending || status == StepWaiting || status == StepApproved
  }

  predicate OpenTool(row: StepRow) {
    row.kind == Tool && !Settled(row.status)
  }

  function FirstOpenTool(steps: seq<StepRow>): (r: Option<StepRow>)
    ensures r.Some? ==> r.value in steps && OpenTool(r.value)
    ensures r.None? ==> forall i :: 0 <= i < |steps| ==> !OpenTool(steps[i])
  {
    if steps == [] then None
    else if OpenTool(steps[0]) then Some(steps[0])
    else FirstOpenTool(steps[1..])
  }

  function FirstFinal(steps: seq<StepRow>): (r: Option<StepRow>)
    ensures r.Some? ==> r.value in steps && r.value.kind == Final
    ensures r.None? ==> forall i :: 0 <= i < |steps| ==> steps[i].kind != Final
  {
    if steps == [] then None
    else if steps[0].kind == Final then Some(steps[0])
    else FirstFinal(steps[1..])
  }

  function RouteFor(row: StepRow): Route {
    if row.kind != Tool then ToFinalize
    else if row.policy.requiresApproval && row.decision != Approved then ToApproval
    else ToTool
  }

  /** The first unsettled tool step decides; with none left, the first final step runs. */
  function NextRoute(db: Db): Choice {
    if db.task.status in {Cancelled, Rejected, Succeeded} then TaskStopped
    else if db.task.status == RequiresReview then ReviewNeeded
    else
      var open := FirstOpenTool(db.steps);
      if open.Some? then
        if open.value.status == StepFailed then ToolFailed
        else if open.value.status == StepUnknown then ReviewNeeded
        else Go(open.value, RouteFor(open.value))
      else
        var final := FirstFinal(db.steps);
        if final.None? then NothingToRun else Go(final.value, ToFinalize)
  }

  lemma {:induction false} FirstOpenToolSkips(steps: seq<StepRow>, n: nat)
    requires n <= |steps| && forall i :: 0 <= i < n ==> !OpenTool(steps[i])
    ensures FirstOpenTool(steps) == FirstOpenTool(steps[n..])
  {
    if n > 0 {
      assert steps[1..][n - 1..] == steps[n..];
      FirstOpenToolSkips(steps[1..], n - 1);
    }
  }

  lemma {:induction false} FirstFinalSkips(steps: seq<StepRow>, n: nat)
    requires n <= |steps| && forall i :: 0 <= i < n ==> steps[i].kind != Final
    ensures FirstFinal(steps) == FirstFinal(steps[n..])
  {
    if n > 0 {
      assert steps[1..][n - 1..] == steps[n..];
      FirstFinalSkips(steps[1..], n - 1);
    }
  }

  /** The dispatcher's loop, with its mutable selection and early exits. */
  method ChooseRoute(db: Db) returns (choice: Choice)
    ensures choice == NextRoute(db)
  {
    if db.task.status in {Cancelled, Rejected, Succeeded} {
      return TaskStopped;
    }
    if db.task.status == RequiresReview {
      return ReviewNeeded;
    }
    var selected: Option<StepRow> := None;
    var index := 0;
    while index < |db.steps|
      invariant 0 <= index <= |db.steps|
      invariant forall i :: 0 <= i < index ==> !OpenTool(db.steps[i])
      invariant selected.Some? ==> FirstFinal(db.steps) == selected
      invariant selected.None? ==> forall i :: 0 <= i < index ==> db.steps[i].kind != Final
    {
      var row := db.steps[index];
      match row.kind {
        case Plan =>
        case Final =>
          if selected.None? {
            FirstFinalSkips(db.steps, index);
            selected := Some(row);
          }
        case Tool =>
          if !Settled(row.status) {
            FirstOpenToolSkips(db.steps, index);
            match row.status {
              case StepFailed => return ToolFailed;
              case StepUnknown => return ReviewNeeded;
              case _ => return Go(row, RouteFor(row));
            }
          }
      }
      index := index + 1;
    }
    FirstOpenToolSkips(db.steps, |db.steps|);
    if selected.None? {
      FirstFinalSkips(db.steps, |db.steps|);
      return NothingToRun;
    }
    return Go(selected.value, ToFinalize);
  }

  // ----- the step blamed for a failed run -----

  predicate OpenCurrent(row: StepRow, current: Option<StepId>) {
    current == Some(row.id) && !Settled(row.status)
  }

  function FirstOpenCurrent(steps: seq<StepRow>, current: Option<StepId>): (r: Option<StepRow>)
    ensures r.Some? ==> r.value in steps && OpenCurrent(r.value, current)
    ensures r.None? ==> forall i :: 0 <= i < |steps| ==> !OpenCurrent(steps[i], current)
  {
    if steps == [] then None
    else if OpenCurrent(steps[0], current) then Some(steps[0])
    else FirstOpenCurrent(steps[1..], current)
  }

  function FirstOpen(steps: seq<StepRow>): (r: Option<StepRow>)
    ensures r.Some? ==> r.value in steps && !Settled(r.value.status)
    ensures r.None? ==> forall i :: 0 <= i < |steps| ==> Settled(steps[i].status)
  {
    if steps == [] then None
    else if !Settled(steps[0].status) then Some(steps[0])
    else FirstOpen(steps[1..])
  }

  /** Current unsettled step, else any unsettled step, else the finalizer. */
  function FailureStep(db: Db): Option<StepRow> {
    var current := FirstOpenCurrent(db.steps, db.task.current);
    if current.Some? then current
    else if FirstOpen(db.steps).Some? then FirstOpen(db.steps)
    else FirstFinal(db.steps)
  }

  lemma {:induction false} FirstOpenCurrentAt(steps: seq<StepRow>, current: Option<StepId>, n: nat)
    requires n <= |steps| && forall i :: 0 <= i < n ==> !OpenCurrent(steps[i], current)
    ensures FirstOpenCurrent(steps, current) == FirstOpenCurrent(steps[n..], current)
  {
    if n > 0 {
      assert steps[1..][n - 1..] == steps[n..];
      FirstOpenCurrentAt(steps[1..], current, n - 1);
    }
  }

  lemma {:induction false} FirstOpenAt(steps: seq<StepRow>, n: nat)
    requires n <= |steps| && forall i :: 0 <= i < n ==> Settled(steps[i].status)
    ensures FirstOpen(steps) == FirstOpen(steps[n..])
  {
    if n > 0 {
      assert steps[1..][n - 1..] == steps[n..];
      FirstOpenAt(steps[1..], n - 1);
    }
  }

  /** The three scans of the failure reporter. */
  method ChooseFailureStep(db: Db) returns (step: Option<StepRow>)
    ensures step == FailureStep(db)
  {
    for index := 0 to |db.steps|
      invariant forall i :: 0 <= i < index ==> !OpenCurrent(db.steps[i], db.task.current)
    {
      if OpenCurrent(db.steps[index], db.task.current) {
        FirstOpenCurrentAt(db.steps, db.task.current, index);
        return Some(db.steps[index]);
      }
    }
    FirstOpenCurrentAt(db.steps, db.task.current, |db.steps|);
    for index := 0 to |db.steps|
      invariant forall i :: 0 <= i < index ==> Settled(db.steps[i].status)
    {
      if !Settled(db.steps[index].status) {
        FirstOpenAt(db.steps, index);
        return Some(db.steps[index]);
      }
    }
    FirstOpenAt(db.steps, |db.steps|);
    for index := 0 to |db.steps|
      invariant forall i :: 0 <= i < index ==> db.steps[i].kind != Final
    {
      if db.steps[index].kind == Final {
        FirstFinalSkips(db.steps, index);
        return Some(db.steps[index]);
      }
    }
    FirstFinalSkips(db.steps, |db.steps|);
    return None;
  }
}
