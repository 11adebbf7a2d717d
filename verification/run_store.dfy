/** The run store of internal/agent/run_store.go: one durable row, written by the run and by whoever cancels it. */
module RunStores {
  import opened Outcome
  import opened RunLogs
  import opened RunRows
  import opened Text

  /** A write awaiting confirmation: its tool, and the step it names. */
  datatype Confirmation = Confirmation(tool: string, step: int)

  /** Nothing changed but that a cancel may have come in. */
  predicate MaybeCancelled(m: Monitor, m': Monitor) {
    m' == m.(cancelled := m'.cancelled) && (m.cancelled ==> m'.cancelled)
  }

  /** The steps that trace records attempt to store: none for anonymous requests and runs without a store. */
  function Recorded(durable: bool, actor: string, marks: seq<Mark>): (r: seq<Mark>)
    ensures r == marks || r == []
  {
    if durable && TrimSpace(actor) != "" then marks else []
  }

  function RecordedIn(row: Option<Row>, index: int, kind: Kind): Option<Row> {
    if row.None? then None else Some(RecordedRow(row.value, index, kind))
  }

  /** The steps stored for the run. */
  function Stored(row: Option<Row>): map<int, Kind> {
    if row.None? then map[] else row.value.steps
  }

  /** The steps stored after attempts to record one, each with its fate. */
  function StoredWith(row: Option<Row>, index: int, kind: Kind, fates: seq<Fate>): map<int, Kind> {
    if row.Some? && index !in Stored(row) && Lands(fates) then Stored(row)[index := kind] else Stored(row)
  }

  /** One of the attempts takes effect. */
  predicate Lands(fates: seq<Fate>) {
    exists k :: 0 <= k < |fates| && fates[k] != Undone
  }

  class SQLRunStore {
    /** The row of the run at hand, and the confirmations asked for. */
    var row: Option<Row>
    var pending: seq<Confirmation>

    ghost var log: seq<Event>

    ghost function M(): Monitor
      reads this
    {
      Fold(log)
    }

    /** The row and the log agree. */
    ghost predicate Valid()
      reads this
    {
      && M().ok && (M().closed ==> 0 < M().completions)
      && (row.None? ==> !M().cancelled && !M().closed)
      && (row.Some? ==>
            && row.value.cancelRequested == M().cancelled && row.value.completed == M().closed
            && (!M().closed ==> row.value.status == Running)
            && Counted(row.value) && row.value.stepsUsed <= |M().steps|)
    }

    constructor ()
      ensures row == None && log == [] && M() == QUIET
    {
      row, pending, log := None, [], [];
    }

    ghost method Note(e: Event)
      modifies this`log
      ensures log == old(log) + [e] && M() == Advance(old(M()), e)
    {
      hide Fold, Advance;
      FoldStep(log, e);
      log := log + [e];
    }

    /** Inserts the row, or restarts the one there. A failure may hide a write that took place. */
    method StartRun(id: string, fate: Fate) returns (ok: bool)
      modifies this`row, this`log
      ensures ok <==> TrimSpace(id) != "" && fate == Done
      ensures row == if TrimSpace(id) == "" || fate == Undone then old(row) else Some(StartedRow(old(row)))
      ensures ok ==> log == old(log) + [RunStarted] && M() == Advance(old(M()), RunStarted)
      ensures !ok ==> log == old(log)
    {
      if TrimSpace(id) == "" { return false; }
      if fate != Undone { row := Some(StartedRow(row)); }
      ok := fate == Done;
      if ok { Note(RunStarted); }
    }

    /** Anyone may ask for a cancel; the guarded update decides. */
    method RequestCancelRun(id: string) returns (accepted: bool)
      requires Valid()
      modifies this`row, this`log
      ensures Valid()
      ensures row == if TrimSpace(id) == "" || old(row).None? then old(row) else Some(CancelledRow(old(row).value))
      ensures accepted <==> row != old(row)
      ensures M() == old(M()).(cancelled := old(M()).cancelled || accepted)
      ensures accepted ==> !old(M()).cancelled && !old(M()).closed
    {
      hide Fold;
      accepted := TrimSpace(id) != "" && row.Some? && Cancellable(row.value);
      if accepted {
        row := Some(CancelledRow(row.value));
        Note(CancelAccepted);
      }
    }

    /** Another process may cancel here. */
    method Interfere()
      requires Valid()
      modifies this`row, this`log
      ensures Valid() && MaybeCancelled(old(M()), M())
      ensures Kept(old(row), row)
    {
      hide Fold, Counted;
      var asked: bool := *;
      if asked {
        var id: string := *;
        var accepted := RequestCancelRun(id);
      }
    }

    method IsRunCanceled(durable: bool, stage: Stage, unreadable: bool) returns (reading: Reading)
      requires Valid() && (!durable ==> row.None?)
      modifies this`row, this`log
      ensures Valid() && (row.Some? <==> old(row).Some?)
      ensures MaybeCancelled(old(M()).(armed := reading == Clear && stage != AtStart, granted := None), M())
      ensures reading == Clear ==> !M().cancelled
      ensures reading == Cancelled ==> M().cancelled || M().closed
      ensures reading == Unreadable <==> durable && unreadable
      ensures reading == Cancelled ==> durable
      ensures durable && !unreadable && old(M()).cancelled ==> reading == Cancelled
    {
      hide Fold, Counted;
      Interfere();
      reading :=
        if !durable then Clear
        else if unreadable then Unreadable
        else if row.Some? && SaysCanceled(row.value) then Cancelled
        else Clear;
      Note(Checked(stage, reading));
    }

    method RecordStep(index: int, kind: Kind, fate: Fate)
      requires Valid()
      modifies this`row, this`log
      ensures Valid() && M() == old(M()).(steps := old(M()).steps + [(index, kind)])
      ensures row == if fate == Undone then old(row) else RecordedIn(old(row), index, kind)
    {
      hide Fold, Counted, RecordedRow;
      if fate != Undone && row.Some? {
        RecordCounts(row.value, index, kind);
        row := Some(RecordedRow(row.value, index, kind));
      }
      Note(StepAttempted(index, kind));
    }

    /** The guild's routing policy was read. */
    method SetMode(mode: Mode)
      requires Valid()
      modifies this`row, this`log
      ensures Valid() && (row.Some? <==> old(row).Some?)
      ensures MaybeCancelled(old(M()).(mode := Some(mode)), M())
    {
      hide Fold, Counted;
      Interfere();
      Note(Routed(mode));
    }

    /** The plan is handed to the executor. */
    method Enter()
      requires Valid() && M().mode == Some(Enabled)
      modifies this`row, this`log
      ensures Valid() && (row.Some? <==> old(row).Some?)
      ensures MaybeCancelled(old(M()).(entered := true), M())
    {
      hide Fold, Counted;
      Interfere();
      Note(Entered);
    }

    /** The capability check for this very call came out well. */
    method Allow(call: nat, spec: ToolSpec)
      requires Valid()
      modifies this`row, this`log
      ensures Valid() && (row.Some? <==> old(row).Some?)
      ensures MaybeCancelled(old(M()).(granted := Some((call, spec))), M())
    {
      hide Fold, Counted;
      Interfere();
      Note(Authorised(call, spec));
    }

    /** The tool begins to execute, whatever it then does. */
    method StartTool(call: nat, spec: ToolSpec)
      requires Valid() && M().entered && M().armed && M().granted == Some((call, spec)) && spec.kind == Read
          && M().nextCall <= call
      modifies this`row, this`log
      ensures Valid() && (row.Some? <==> old(row).Some?)
      ensures var m := old(M());
              MaybeCancelled(m.(armed := false, granted := None, nextCall := call + 1, tools := m.tools + 1), M())
    {
      hide Fold, Counted;
      Interfere();
      Note(ToolStarted(call, spec));
    }

    /** The answerer begins. */
    method StartAnswer()
      requires Valid() && M().entered && M().armed
      modifies this`row, this`log
      ensures Valid() && (row.Some? <==> old(row).Some?)
      ensures MaybeCancelled(old(M()).(armed := false, granted := None, answers := old(M()).answers + 1), M())
    {
      hide Fold, Counted;
      Interfere();
      Note(AnswerStarted);
    }

    /** One step of the trace; anonymous requests and runs without a store record none. Errors are ignored. */
    method Record(durable: bool, actor: string, index: int, kind: Kind, fate: Fate)
      requires Valid() && (!durable ==> row.None?)
      modifies this`row, this`log
      ensures Valid() && (row.Some? <==> old(row).Some?)
      ensures MaybeCancelled(old(M()).(steps := old(M()).steps + Recorded(durable, actor, [(index, kind)])), M())
      ensures var stored := Recorded(durable, actor, [(index, kind)]) != [] && fate != Undone;
              Kept(if stored then RecordedIn(old(row), index, kind) else old(row), row)
    {
      hide Fold, Counted, RecordedRow, CancelledRow, TrimSpace, Advance, SaysCanceled, Kept, RecordedIn;
      ghost var first := row;
      Interfere();
      KeptRows(first, row, index, kind);
      if TrimSpace(actor) == "" || !durable {
        assert M().steps + [] == M().steps;
        return;
      }
      RecordStep(index, kind, fate);
    }

    /** Without a store there is nothing to confirm against, and that is no error. */
    method CreateConfirmation(durable: bool, c: Confirmation, fate: Fate) returns (ok: bool)
      requires Valid()
      modifies this`row, this`log, this`pending
      ensures Valid() && MaybeCancelled(old(M()), M()) && (row.Some? <==> old(row).Some?) && Kept(old(row), row)
      ensures ok <==> !durable || fate == Done
      ensures pending == if durable && fate != Undone then old(pending) + [c] else old(pending)
    {
      hide Fold, Counted;
      Interfere();
      if !durable { return true; }
      if fate != Undone { pending := pending + [c]; }
      ok := fate == Done;
    }

    /** The row keeps a cancel; a status the table refuses, or a failure, leaves the run open. */
    method CompleteRun(status: Status, reason: Reason, fate: Fate) returns (ok: bool, ghost written: bool)
      requires Valid() && row.Some? && M().started && M().completions == 0
      modifies this`row, this`log
      ensures Valid() && (ok <==> written && fate == Done)
      ensures written <==> fate != Undone && (SaysCanceled(old(row).value) || Legal(status))
      ensures M() == old(M()).(completions := 1, closed := written)
      ensures row == if written then Some(CompletedRow(old(row).value, status, reason)) else old(row)
    {
      CompletionAdvances(M(), row.value, status, reason);
      hide Fold, Counted, Advance;
      written := fate != Undone && (SaysCanceled(row.value) || Legal(status));
      ok := fate == Done && (SaysCanceled(row.value) || Legal(status));
      if fate != Undone { row := Some(CompletedRow(row.value, status, reason)); }
      Note(RunCompleted(status, reason, written));
    }
  }

  /** The row is as it was, but that a cancel may have come in. */
  predicate Kept(row: Option<Row>, row': Option<Row>) {
    row' == row || (row.Some? && row' == Some(CancelledRow(row.value)))
  }

  lemma KeptRows(row: Option<Row>, row': Option<Row>, index: int, kind: Kind)
    requires Kept(row, row')
    ensures row'.Some? <==> row.Some?
    ensures Kept(RecordedIn(row, index, kind), RecordedIn(row', index, kind))
    ensures RecordedIn(row', index, kind).Some? <==> row'.Some?
  {
    hide RecordedRow, CancelledRow;
    if row.Some? { RecordCommutes(row.value, index, kind); }
  }

  /** What one attempt to record a step leaves stored. */
  lemma StoredOnce(row: Option<Row>, row': Option<Row>, index: int, kind: Kind, recorded: bool, fate: Fate)
    requires Kept(if recorded && fate != Undone then RecordedIn(row, index, kind) else row, row')
    ensures Stored(row') == StoredWith(row, index, kind, if recorded then [fate] else [])
    ensures row'.Some? <==> row.Some?
  {
    assert [fate][0] == fate;
  }

  /** And what more attempts leave, after a moment at which a cancel may have come in. */
  lemma StoredThen(row: Option<Row>, once: Option<Row>, between: Option<Row>, after: Option<Row>, index: int, kind: Kind,
                   a: seq<Fate>, b: seq<Fate>)
    requires Stored(once) == StoredWith(row, index, kind, a) && (once.Some? <==> row.Some?)
    requires Kept(once, between)
    requires Stored(after) == StoredWith(between, index, kind, b) || (b == [] && after == between)
    ensures Stored(after) == StoredWith(row, index, kind, a + b)
  {
    assert forall k :: 0 <= k < |a| ==> (a + b)[k] == a[k];
    assert forall k :: 0 <= k < |b| ==> (a + b)[|a| + k] == b[k];
    assert forall k :: |a| <= k < |a + b| ==> (a + b)[k] == b[k - |a|];
    assert Lands(a + b) <==> Lands(a) || Lands(b);
  }

  lemma RecordCommutes(r: Row, index: int, kind: Kind)
    ensures RecordedRow(CancelledRow(r), index, kind) == CancelledRow(RecordedRow(r, index, kind))
  {
  }

  lemma CompletionAdvances(m: Monitor, r: Row, status: Status, reason: Reason)
    requires Counted(r)
    ensures Counted(CompletedRow(r, status, reason)) && CompletedRow(r, status, reason).stepsUsed == r.stepsUsed
    ensures CompletedRow(r, status, reason).cancelRequested == r.cancelRequested
    ensures forall written :: Advance(m, RunCompleted(status, reason, written))
                              == m.(completions := m.completions + 1, closed := m.closed || written, ok := m.ok
                                && m.started && m.completions == 0)
  {
  }
}
