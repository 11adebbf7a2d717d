/** The durable row of an agent run and the statements that write it (internal/agent/run_store.go). */
module RunRows {
  import opened Outcome

  datatype Status =
    | Unset | Running | Succeeded | Failed | Denied | DryRun | ConfirmationRequired | Canceled | OtherStatus(text: string)

  datatype Reason =
    | NoReason | ByCompletion | ByDryRun | ByCancel | ByIgnoring | ByRoutingFailure | ByRoutingOff | ByDenial
    | ByPermissionFailure | ByPlannerFailure | ByClarifying | ByConfirmation | ByStepBudget | ByToolBudget
    | ByExecutorFailure | ByLLMBudget | OtherReason(text: string)

  /** The kinds of a recorded step. */
  datatype Kind = PlanStep | ContextStep | ToolStep | AnswerStep

  /** steps are the steps stored for the run, by their indices, which the table keeps distinct. */
  datatype Row = Row(
    status: Status, reason: Option<Reason>, cancelRequested: bool, completed: bool,
    steps: map<int, Kind>, stepsUsed: nat, toolCallsUsed: nat, llmCallsUsed: nat)

  predicate SaysCanceled(r: Row) {
    r.status == Canceled || r.cancelRequested
  }

  /** The statuses the table's check constraint admits. */
  predicate Legal(status: Status) {
    status != Unset && !status.OtherStatus?
  }

  function StartedRow(row: Option<Row>): Row {
    if row.None? then Row(Running, None, false, false, map[], 0, 0, 0)
    else if SaysCanceled(row.value) then row.value
    else row.value.(status := Running, reason := None, completed := false)
  }

  predicate Cancellable(r: Row) {
    r.status == Running && !r.completed && !r.cancelRequested
  }

  function CancelledRow(r: Row): Row {
    if Cancellable(r) then r.(cancelRequested := true) else r
  }

  /** A status the table refuses leaves the row as it was. */
  function CompletedRow(r: Row, status: Status, reason: Reason): Row {
    if SaysCanceled(r) then r.(status := Canceled, reason := Some(ByCancel), completed := true)
    else if Legal(status) then r.(status := status, reason := Some(reason), completed := true)
    else r
  }

  /** A second step under one index is refused, and then nothing is counted. */
  function RecordedRow(r: Row, index: int, kind: Kind): Row {
    if index in r.steps then r
    else r.(steps := r.steps[index := kind], stepsUsed := r.stepsUsed + 1,
            toolCallsUsed := r.toolCallsUsed + (if kind == ToolStep then 1 else 0),
            llmCallsUsed := r.llmCallsUsed + (if kind == PlanStep || kind == AnswerStep then 1 else 0))
  }

  // ---- Every history of one row ----

  datatype RowStep = Start | RequestCancel | Complete(status: Status, reason: Reason) | Record(index: int, kind: Kind)

  function Apply(row: Option<Row>, step: RowStep): Option<Row> {
    match step
    case Start => Some(StartedRow(row))
    case RequestCancel => if row.None? then None else Some(CancelledRow(row.value))
    case Complete(status, reason) => if row.None? then None else Some(CompletedRow(row.value, status, reason))
    case Record(index, kind) => if row.None? then None else Some(RecordedRow(row.value, index, kind))
  }

  function ApplyAll(row: Option<Row>, steps: seq<RowStep>): Option<Row> {
    if steps == [] then row else Apply(ApplyAll(row, steps[..|steps| - 1]), steps[|steps| - 1])
  }

  /** An accepted cancel is never lost, not even by starting the same run again, and the first completion after it
      settles the stored status and reason for good, whatever status it asked for. */
  lemma {:induction false} CancelIsSticky(row: Option<Row>, steps: seq<RowStep>)
    requires row.Some? && row.value.cancelRequested
    ensures var after := ApplyAll(row, steps);
            && after.Some? && after.value.cancelRequested
            && ((exists k :: 0 <= k < |steps| && steps[k].Complete?) ==>
                  after.value.status == Canceled && after.value.reason == Some(ByCancel) && after.value.completed)
  {
    if steps != [] {
      var n := |steps| - 1;
      CancelIsSticky(row, steps[..n]);
      if exists k :: 0 <= k < |steps| && steps[k].Complete? {
        var k :| 0 <= k < |steps| && steps[k].Complete?;
        assert k < n ==> steps[..n][k].Complete?;
      }
    }
  }

  /** A completion that changes what a completed row says: of a row that says canceled any one, unless it says so for
      that reason already; else a legal one that asks for another status or reason. */
  predicate Alters(r: Row, step: RowStep) {
    step.Complete? &&
    if SaysCanceled(r) then !(r.status == Canceled && r.reason == Some(ByCancel))
    else Legal(step.status) && !(r.status == step.status && r.reason == Some(step.reason))
  }

  predicate SameEnding(r: Row, after: Option<Row>) {
    after.Some? && after.value.status == r.status && after.value.reason == r.reason
  }

  /** Until it is started again, a completed row stays completed and takes no cancel, whatever else happens to it. It
      keeps status and reason throughout exactly when no further completion alters them. */
  lemma {:induction false} CompletionIsFinal(row: Row, steps: seq<RowStep>)
    requires row.completed && Start !in steps
    ensures var after := ApplyAll(Some(row), steps);
            after.Some? && after.value.completed && after.value.cancelRequested == row.cancelRequested
    ensures (forall j :: 0 <= j <= |steps| ==> SameEnding(row, ApplyAll(Some(row), steps[..j]))) <==>
            forall k :: 0 <= k < |steps| ==> !Alters(row, steps[k])
  {
    assert steps[..|steps|] == steps;
    if steps != [] {
      var n := |steps| - 1;
      CompletionIsFinal(row, steps[..n]);
      assert forall j :: 0 <= j <= n ==> steps[..n][..j] == steps[..j];
      var before := ApplyAll(Some(row), steps[..n]).value;
      StaysCompleted(before, steps[n]);
      hide Apply, Alters;
      if SameEnding(row, Some(before)) { AltersIff(row, before, steps[n]); }
    }
  }

  lemma StaysCompleted(before: Row, step: RowStep)
    requires before.completed && step != Start
    ensures var after := Apply(Some(before), step);
            after.Some? && after.value.completed && after.value.cancelRequested == before.cancelRequested
  {
  }

  lemma AltersIff(row: Row, before: Row, step: RowStep)
    requires before.completed && before.cancelRequested == row.cancelRequested && SameEnding(row, Some(before))
    requires step != Start
    ensures SameEnding(row, Apply(Some(before), step)) <==> !Alters(row, step)
  {
  }

  /** A second completion, which the statement does not guard against, rewrites a run that had succeeded. */
  lemma CompletedTwice() returns (steps: seq<RowStep>)
    ensures |steps| == 3 && ApplyAll(None, steps[..2]).Some? && ApplyAll(None, steps).Some?
    ensures ApplyAll(None, steps[..2]).value.completed && ApplyAll(None, steps[..2]).value.status == Succeeded
    ensures ApplyAll(None, steps).value.status == Failed && ApplyAll(None, steps).value.reason == Some(ByStepBudget)
  {
    var s1, s2 := [Start], [Start, Complete(Succeeded, ByCompletion)];
    steps := s2 + [Complete(Failed, ByStepBudget)];
    assert s1[..0] == [] && s2[..1] == s1 && steps[..2] == s2;
  }

  /** Starting a run again reopens a completed row, and so lets a cancel in, exactly when the row is not canceled:
      a fresh id is what keeps completions final. */
  lemma RestartReopens(row: Row)
    requires row.completed
    ensures Apply(Apply(Some(row), Start), RequestCancel) != Apply(Some(row), Start) <==> !SaysCanceled(row)
  {
    var again := Apply(Some(row), Start).value;
    assert !SaysCanceled(row) ==> Cancellable(again) && CancelledRow(again).cancelRequested;
  }

  // ---- The counters ----

  function StepsOf(steps: map<int, Kind>, kinds: set<Kind>): set<int> {
    set i | i in steps && steps[i] in kinds
  }

  const LLM_STEPS := {PlanStep, AnswerStep}

  /** Each counter is the number of steps of its kinds that are stored. */
  predicate Counted(row: Row) {
    && row.stepsUsed == |row.steps|
    && row.toolCallsUsed == |StepsOf(row.steps, {ToolStep})|
    && row.llmCallsUsed == |StepsOf(row.steps, LLM_STEPS)|
  }

  lemma StepsOfGrows(steps: map<int, Kind>, index: int, kind: Kind, kinds: set<Kind>)
    requires index !in steps
    ensures |StepsOf(steps[index := kind], kinds)| == |StepsOf(steps, kinds)| + (if kind in kinds then 1 else 0)
  {
    var more := if kind in kinds then {index} else {};
    assert StepsOf(steps[index := kind], kinds) == StepsOf(steps, kinds) + more;
  }

  lemma RecordCounts(r: Row, index: int, kind: Kind)
    requires Counted(r)
    ensures var r' := RecordedRow(r, index, kind);
            && Counted(r') && r.stepsUsed <= r'.stepsUsed <= r.stepsUsed + 1
            && r'.cancelRequested == r.cancelRequested && r'.completed == r.completed && r'.status == r.status
  {
    if index !in r.steps {
      StepsOfGrows(r.steps, index, kind, {ToolStep});
      StepsOfGrows(r.steps, index, kind, LLM_STEPS);
      hide StepsOf;
    }
  }

  /** In every history of a row, restarts and refused steps included, the counters are right. */
  lemma {:induction false} CountersAgree(steps: seq<RowStep>)
    ensures var after := ApplyAll(None, steps); after.Some? ==> Counted(after.value)
  {
    if steps != [] {
      var n := |steps| - 1;
      CountersAgree(steps[..n]);
      var before := ApplyAll(None, steps[..n]);
      if before.Some? && steps[n].Record? { RecordCounts(before.value, steps[n].index, steps[n].kind); }
    }
  }

  /** An attempt to record a step that may fail before it takes effect. */
  function AttemptedRow(r: Row, index: int, kind: Kind, fate: Fate): Row {
    if fate == Undone then r else RecordedRow(r, index, kind)
  }

  /** Of two records under one index at most one is stored and counted: the second exactly when the index was free, the
      first failed and the second does not. */
  lemma SecondRecordRefused(r: Row, index: int, kind: Kind, again: Kind, first: Fate, second: Fate)
    ensures var once := AttemptedRow(r, index, kind, first);
            var twice := AttemptedRow(once, index, again, second);
            && (twice != once <==> index !in r.steps && first == Undone && second != Undone)
            && twice.stepsUsed <= r.stepsUsed + 1
  {
  }

  /** A completed run, started again under its id, takes a cancel and ends canceled. */
  lemma ReopenedRun() returns (steps: seq<RowStep>)
    ensures 2 < |steps| && ApplyAll(None, steps[..2]).Some? && ApplyAll(None, steps).Some?
    ensures ApplyAll(None, steps[..2]).value.completed && ApplyAll(None, steps[..2]).value.status == Succeeded
    ensures ApplyAll(None, steps).value.completed && ApplyAll(None, steps).value.status == Canceled
  {
    var s1, s2, s3, s4 := [Start], [Start, Complete(Succeeded, ByCompletion)],
                          [Start, Complete(Succeeded, ByCompletion), Start],
                          [Start, Complete(Succeeded, ByCompletion), Start, RequestCancel];
    steps := [Start, Complete(Succeeded, ByCompletion), Start, RequestCancel, Complete(Succeeded, ByCompletion)];
    assert s1[..0] == [] && s2[..1] == s1 && s3[..2] == s2 && s4[..3] == s3 && steps[..4] == s4 && steps[..2] == s2;
    assert ApplyAll(None, s2).value.completed;
    assert !ApplyAll(None, s3).value.completed;
    assert ApplyAll(None, s4).value.cancelRequested;
  }
}
