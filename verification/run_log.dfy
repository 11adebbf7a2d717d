/** What happens in one agent run, as a log of events, and the discipline every run keeps. */
module RunLogs {
  import opened Outcome
  import opened RunRows
  import opened Text

  datatype ToolKind = Read | Write

  datatype ToolSpec = ToolSpec(name: string, kind: ToolKind, capability: string)

  /** A tool as registered, before its specification is normalised. */
  datatype RawSpec = RawSpec(name: string, kind: string, capability: string)

  function NormalizeToolSpec(spec: RawSpec): ToolSpec {
    ToolSpec(TrimSpace(spec.name), if TrimSpace(spec.kind) == "write" then Write else Read, TrimSpace(spec.capability))
  }

  datatype Mode = Off | DryRunMode | Enabled

  /** The points at which a run asks whether it was cancelled. */
  datatype Stage = AtStart | BeforeTool(call: nat) | BeforeAnswer

  datatype Reading = Unreadable | Clear | Cancelled

  /** CancelAccepted and RunCompleted(.., written) speak of the row itself, whatever the callers were told. */
  datatype Event =
    | RunStarted
    | Routed(mode: Mode)
    | Entered
    | CancelAccepted
    | Checked(stage: Stage, reading: Reading)
    | Authorised(call: nat, spec: ToolSpec)
    | ToolStarted(call: nat, spec: ToolSpec)
    | AnswerStarted
    | StepAttempted(index: int, kind: Kind)
    | RunCompleted(status: Status, reason: Reason, written: bool)

  /** The index and kind under which a step is recorded. */
  type Mark = (int, Kind)

  datatype Monitor = Monitor(
    ok: bool, started: bool, mode: Option<Mode>, entered: bool, cancelled: bool, closed: bool,
    armed: bool, granted: Option<(nat, ToolSpec)>, nextCall: nat,
    tools: nat, answers: nat, steps: seq<Mark>, completions: nat)

  const QUIET := Monitor(true, false, None, false, false, false, false, None, 0, 0, 0, [], 0)

  /** A call needs a clear reading of the executor since the last call; a tool call also the permission for that very
      call, given since that reading, and a tool that does not write. Readings are true to the row, a cancel is
      accepted once and never after a written completion, and a run completes once. */
  function Advance(m: Monitor, e: Event): Monitor {
    match e
    case RunStarted => m.(started := true, ok := m.ok && !m.started)
    case Routed(mode) => m.(mode := Some(mode))
    case Entered => m.(entered := true, ok := m.ok && m.mode == Some(Enabled))
    case CancelAccepted => m.(cancelled := true, ok := m.ok && !m.cancelled && !m.closed)
    case Checked(stage, reading) =>
      m.(armed := reading == Clear && stage != AtStart, granted := None,
         ok := m.ok && (reading == Clear ==> !m.cancelled) && (reading == Cancelled ==> m.cancelled || m.closed))
    case Authorised(call, spec) =>
      m.(granted := Some((call, spec)))
    case ToolStarted(call, spec) =>
      m.(armed := false, granted := None, nextCall := call + 1, tools := m.tools + 1,
         ok := m.ok && m.entered && m.armed && m.granted == Some((call, spec)) && spec.kind == Read
           && m.nextCall <= call)
    case AnswerStarted =>
      m.(armed := false, granted := None, answers := m.answers + 1, ok := m.ok && m.entered && m.armed)
    case StepAttempted(index, kind) => m.(steps := m.steps + [(index, kind)])
    case RunCompleted(_, _, written) =>
      m.(completions := m.completions + 1, closed := m.closed || written, ok := m.ok && m.started && m.completions == 0)
  }

  function Fold(log: seq<Event>): Monitor {
    if log == [] then QUIET else Advance(Fold(log[..|log| - 1]), log[|log| - 1])
  }

  ghost predicate Disciplined(log: seq<Event>) {
    Fold(log).ok
  }

  lemma FoldStep(log: seq<Event>, e: Event)
    ensures Fold(log + [e]) == Advance(Fold(log), e)
  {
    assert (log + [e])[..|log|] == log;
  }

  /** What an event may change of the monitor. */
  ghost predicate Grows(m: Monitor, e: Event, m': Monitor) {
    && (m'.ok ==> m.ok)
    && (m'.cancelled <==> m.cancelled || e.CancelAccepted?)
    && (m.closed || (e.RunCompleted? && e.written) ==> m'.closed)
    && m'.completions == m.completions + (if e.RunCompleted? then 1 else 0)
    && (m'.ok && e.RunCompleted? ==> m.started && m.completions == 0)
    && (m.entered ==> m'.entered) && (m'.ok && IsCall(e) ==> m.entered)
    && m'.tools + m'.answers == m.tools + m.answers + (if IsCall(e) then 1 else 0)
    && (m'.ok ==> m.nextCall <= m'.nextCall) && (e.ToolStarted? ==> m'.nextCall == e.call + 1)
    && (m'.armed ==> (IsExecutorCheck(e) && e.reading == Clear) || (m.armed && !IsCall(e)))
    && (m'.granted.Some? ==>
          e == Authorised(m'.granted.value.0, m'.granted.value.1) || (m'.granted == m.granted && !e.Checked?
            && !IsCall(e)))
  }

  lemma AdvanceGrows(m: Monitor, e: Event)
    ensures Grows(m, e, Advance(m, e))
  {
    match e
    case ToolStarted(_, _) =>
    case RunCompleted(_, _, _) =>
    case CancelAccepted =>
    case _ =>
  }

  lemma FoldBack(log: seq<Event>)
    requires log != []
    ensures Fold(log) == Advance(Fold(log[..|log| - 1]), log[|log| - 1])
    ensures Grows(Fold(log[..|log| - 1]), log[|log| - 1], Fold(log))
  {
    hide Advance, Grows;
    AdvanceGrows(Fold(log[..|log| - 1]), log[|log| - 1]);
  }

  lemma {:induction false} FoldAt(log: seq<Event>, k: nat)
    requires Disciplined(log) && k < |log|
    ensures Disciplined(log[..k]) && Advance(Fold(log[..k]), log[k]).ok
    decreases |log|
  {
    hide Fold, Advance;
    var n := |log| - 1;
    FoldBack(log);
    if k < n {
      FoldAt(log[..n], k);
      assert log[..n][..k] == log[..k];
    }
  }

  predicate IsCall(e: Event) {
    e.ToolStarted? || e.AnswerStarted?
  }

  predicate IsExecutorCheck(e: Event) {
    e.Checked? && e.stage != AtStart
  }

  /** The number of tool and answer calls from event i on. */
  function CallsFrom(log: seq<Event>, i: nat): nat
    requires i <= |log|
    decreases |log| - i
  {
    if i == |log| then 0 else (if IsCall(log[i]) then 1 else 0) + CallsFrom(log, i + 1)
  }

  // ---- Cancellation ----

  lemma {:induction false} CancelNoted(log: seq<Event>, k: nat)
    requires k < |log| && log[k].CancelAccepted?
    ensures Fold(log).cancelled
  {
    hide Fold, Advance;
    FoldBack(log);
    if k < |log| - 1 { CancelNoted(log[..|log| - 1], k); }
  }

  /** The monitor knows of a cancel exactly when one was accepted. */
  lemma {:induction false} CancelSeen(log: seq<Event>)
    ensures Fold(log).cancelled <==> exists k :: 0 <= k < |log| && log[k].CancelAccepted?
  {
    if k :| 0 <= k < |log| && log[k].CancelAccepted? {
      CancelNoted(log, k);
    } else if log != [] {
      hide Advance;
      FoldBack(log);
      CancelSeen(log[..|log| - 1]);
    }
  }

  /** Every call comes after a clear reading of the executor with no call in between. */
  lemma {:induction false} ArmedBy(log: seq<Event>) returns (j: nat)
    requires Fold(log).armed
    ensures j < |log| && IsExecutorCheck(log[j]) && log[j].reading == Clear
    ensures forall k :: j < k < |log| ==> !IsCall(log[k])
  {
    assert log != [];
    hide Fold, Advance;
    FoldBack(log);
    var n := |log| - 1;
    if IsExecutorCheck(log[n]) && log[n].reading == Clear {
      j := n;
    } else {
      j := ArmedBy(log[..n]);
    }
  }

  /** Once a cancel is accepted, at most one more tool or answer call starts ... */
  lemma {:induction false} OneCallAfterCancel(log: seq<Event>, i: nat, from: nat)
    requires Disciplined(log) && i < from <= |log| && log[i].CancelAccepted?
    ensures CallsFrom(log, from) <= 1
    decreases |log| - from
  {
    if from < |log| {
      OneCallAfterCancel(log, i, from + 1);
      if IsCall(log[from]) { NoCallAfter(log, i, from, from + 1); }
    }
  }

  lemma {:induction false} NoCallAfter(log: seq<Event>, i: nat, first: nat, from: nat)
    requires Disciplined(log) && i < first < from <= |log| && log[i].CancelAccepted? && IsCall(log[first])
    ensures CallsFrom(log, from) == 0
    decreases |log| - from
  {
    if from < |log| {
      NoCallAfter(log, i, first, from + 1);
      if IsCall(log[from]) {
        var j := CheckBefore(log, from);
        ClearMeansUncancelled(log, i, j);
      }
    }
  }

  /** ... and none if it was accepted before the executor's first check. */
  lemma {:induction false} NoCallAfterEarlyCancel(log: seq<Event>, i: nat, from: nat)
    requires Disciplined(log) && i < from <= |log| && log[i].CancelAccepted?
    requires forall k :: 0 <= k < i ==> !IsExecutorCheck(log[k])
    ensures CallsFrom(log, from) == 0
    decreases |log| - from
  {
    if from < |log| {
      NoCallAfterEarlyCancel(log, i, from + 1);
      if IsCall(log[from]) {
        var j := CheckBefore(log, from);
        ClearMeansUncancelled(log, i, j);
      }
    }
  }

  lemma CheckBefore(log: seq<Event>, k: nat) returns (j: nat)
    requires Disciplined(log) && k < |log| && IsCall(log[k])
    ensures j < k && IsExecutorCheck(log[j]) && log[j].reading == Clear
    ensures forall l :: j < l < k ==> !IsCall(log[l])
  {
    hide Fold;
    FoldAt(log, k);
    j := ArmedBy(log[..k]);
    forall l | j < l < k
      ensures !IsCall(log[l])
    {
      assert log[l] == log[..k][l];
    }
  }

  /** A clear reading is true: no cancel was accepted before it. */
  lemma ClearMeansUncancelled(log: seq<Event>, i: nat, j: nat)
    requires Disciplined(log) && i < |log| && j < |log| && log[i].CancelAccepted? && log[j].Checked?
        && log[j].reading == Clear
    ensures j < i
  {
    hide Fold;
    FoldAt(log, j);
    if i < j { CancelNoted(log[..j], i); }
  }

  /** No cancel is accepted after a completion was written. */
  lemma NoCancelAfterCompletion(log: seq<Event>, i: nat, j: nat)
    requires Disciplined(log) && i < j < |log| && log[i].RunCompleted? && log[i].written
    ensures !log[j].CancelAccepted?
  {
    hide Fold;
    FoldAt(log, j);
    ClosedBy(log[..j], i);
  }

  lemma {:induction false} ClosedBy(log: seq<Event>, i: nat)
    requires i < |log| && log[i].RunCompleted? && log[i].written
    ensures Fold(log).closed
  {
    hide Fold, Advance;
    FoldBack(log);
    if i < |log| - 1 { ClosedBy(log[..|log| - 1], i); }
  }

  /** A run completes at most once. */
  lemma CompletesOnce(log: seq<Event>, i: nat, j: nat)
    requires Disciplined(log) && i < j < |log| && log[i].RunCompleted?
    ensures !log[j].RunCompleted?
  {
    hide Fold, Advance;
    FoldAt(log, j);
    AdvanceGrows(Fold(log[..j]), log[j]);
    CompletionNoted(log[..j], i);
  }

  lemma {:induction false} CompletionNoted(log: seq<Event>, i: nat)
    requires i < |log| && log[i].RunCompleted?
    ensures 0 < Fold(log).completions
  {
    hide Fold, Advance;
    FoldBack(log);
    if i < |log| - 1 { CompletionNoted(log[..|log| - 1], i); }
  }

  // ---- Permissions ----

  /** No writing tool is ever executed, and every tool executed passed its own check earlier in its iteration, after
      a clear reading. */
  lemma ToolWasAuthorised(log: seq<Event>, k: nat) returns (j: nat)
    requires Disciplined(log) && k < |log| && log[k].ToolStarted?
    ensures log[k].spec.kind == Read
    ensures j < k && log[j] == Authorised(log[k].call, log[k].spec)
    ensures forall l :: j < l < k ==> !log[l].Checked? && !IsCall(log[l])
  {
    hide Fold;
    FoldAt(log, k);
    j := GrantedBy(log[..k], (log[k].call, log[k].spec));
    forall l | j < l < k
      ensures !log[l].Checked? && !IsCall(log[l])
    {
      assert log[l] == log[..k][l];
    }
  }

  lemma {:induction false} GrantedBy(log: seq<Event>, grant: (nat, ToolSpec)) returns (j: nat)
    requires Fold(log).granted == Some(grant)
    ensures j < |log| && log[j] == Authorised(grant.0, grant.1)
    ensures forall l :: j < l < |log| ==> !log[l].Checked? && !IsCall(log[l])
  {
    assert log != [];
    hide Fold, Advance;
    FoldBack(log);
    var n := |log| - 1;
    if log[n] == Authorised(grant.0, grant.1) {
      j := n;
    } else {
      j := GrantedBy(log[..n], grant);
    }
  }

  /** Unless the last routing decision enabled tools, nothing is called: off and dry-run modes execute no tool. */
  lemma {:induction false} NoCallUnlessEntered(log: seq<Event>)
    requires Disciplined(log) && !Fold(log).entered
    ensures CallsFrom(log, 0) == 0
  {
    if log != [] {
      var n := |log| - 1;
      hide Fold, Advance;
      FoldBack(log);
      NoCallUnlessEntered(log[..n]);
      CallsSplit(log, 0);
    }
  }

  lemma {:induction false} CallsSplit(log: seq<Event>, i: nat)
    requires i < |log|
    ensures CallsFrom(log, i) == CallsFrom(log[..|log| - 1], i) + (if IsCall(log[|log| - 1]) then 1 else 0)
    decreases |log| - i
  {
    if i < |log| - 1 { CallsSplit(log, i + 1); }
  }

  /** The monitor's counters count. */
  lemma {:induction false} CallsCounted(log: seq<Event>)
    ensures CallsFrom(log, 0) == Fold(log).tools + Fold(log).answers
  {
    if log != [] {
      hide Fold, Advance;
      FoldBack(log);
      CallsCounted(log[..|log| - 1]);
      CallsSplit(log, 0);
    }
  }

  /** The plan's calls are executed in order, each at most once. */
  lemma {:induction false} CallsInOrder(log: seq<Event>, i: nat, j: nat)
    requires Disciplined(log) && i < j < |log| && log[i].ToolStarted? && log[j].ToolStarted?
    ensures log[i].call < log[j].call
  {
    hide Fold;
    FoldAt(log, j);
    CallsGoOn(log[..j], i);
  }

  lemma {:induction false} CallsGoOn(log: seq<Event>, i: nat)
    requires Disciplined(log) && i < |log| && log[i].ToolStarted?
    ensures log[i].call < Fold(log).nextCall
  {
    hide Fold, Advance;
    FoldBack(log);
    if i < |log| - 1 { CallsGoOn(log[..|log| - 1], i); }
  }
}
