/** The runner and the executor of one agent run, with a canceller interfering between any two steps
    (internal/agent/runner.go, executor.go). What the planner, the tools, the answerer, the context fetcher, the
    policies and the database answer is arbitrary: it is a World. */
module AgentRuns {
  import opened Outcome
  import opened RunLogs
  import opened RunRows
  import opened RunStores
  import opened Text

  datatype Response = Response(status: Status, reason: Reason)

  datatype Plan = Plan(chat: bool, calls: seq<string>, clarifying: string, requiresConfirmation: bool)

  datatype Limits = Limits(maxSteps: int, maxToolCalls: int, maxLLMCalls: int)

  datatype Request = Request(guildMention: bool, guild: string, scope: string, actor: string, hasPack: bool,
                             hasPriorRun: bool)

  /** What is configured: tools by name, and which collaborators are present. */
  datatype Setup = Setup(
    tools: map<string, RawSpec>, durable: bool, hasPlanner: bool, hasFetcher: bool, hasAnswerer: bool, hasChecker: bool,
    capabilityBeforePlan: string, limits: Limits)

  datatype Verdict = Allowed | Refused | Unknown

  datatype Planned = PlannerFailed | NoPlan | Planned(plan: Plan)

  /** steps gives the fate of each attempt to record a step, by its index and the attempts made before. */
  datatype World = World(
    start: Fate, unreadable: Stage -> bool, mode: Option<Mode>, planVerdict: Verdict, fetched: Verdict, planned: Planned,
    verdicts: nat -> Verdict, toolFails: nat -> bool, confirmation: Fate, answer: Option<Response>,
    steps: (int, nat) -> Fate, completion: Fate)

  function ToolBudget(limits: Limits): nat {
    if limits.maxToolCalls > 0 then limits.maxToolCalls else 5
  }

  function PlannedStepCount(plan: Plan): nat {
    2 + |plan.calls|
  }

  predicate SkipsAnswer(e: Setup) {
    e.hasAnswerer && 0 < e.limits.maxLLMCalls < 2
  }

  predicate IsChannelScope(scope: string) {
    TrimSpace(scope) == "channel" || TrimSpace(scope) == "channel-auto"
  }

  predicate IsOptionalScope(scope: string) {
    TrimSpace(scope) == "channel-auto"
  }

  // ---- The registry ----

  /** Registering a tool under its trimmed name replaces the one there; a nameless tool is ignored. */
  function NewRegistry(specs: seq<RawSpec>): map<string, RawSpec> {
    if specs == [] then map[]
    else
      var tools, spec := NewRegistry(specs[..|specs| - 1]), specs[|specs| - 1];
      if TrimSpace(spec.name) == "" then tools else tools[TrimSpace(spec.name) := spec]
  }

  function Lookup(tools: map<string, RawSpec>, name: string): Option<ToolSpec> {
    var key := TrimSpace(name);
    if key == "" || key !in tools then None else Some(NormalizeToolSpec(tools[key]))
  }

  predicate LastNamed(specs: seq<RawSpec>, key: string, k: nat) {
    && key != "" && k < |specs| && TrimSpace(specs[k].name) == key
    && forall j :: k < j < |specs| ==> TrimSpace(specs[j].name) != key
  }

  /** A name reaches the tool last registered under it, up to surrounding space, and none if there is none. */
  lemma {:induction false} LookupFindsLast(specs: seq<RawSpec>, name: string) returns (k: Option<nat>)
    ensures k.Some? <==> Lookup(NewRegistry(specs), name).Some?
    ensures k.None? <==> forall j :: !LastNamed(specs, TrimSpace(name), j)
    ensures k.Some? ==> LastNamed(specs, TrimSpace(name), k.value)
    ensures k.Some? ==> Lookup(NewRegistry(specs), name) == Some(NormalizeToolSpec(specs[k.value]))
  {
    hide TrimSpace, NormalizeToolSpec;
    var key, n := TrimSpace(name), |specs| - 1;
    if specs == [] || key == "" {
      k := None;
    } else if TrimSpace(specs[n].name) == key {
      assert LastNamed(specs, key, n);
      k := Some(n);
    } else {
      k := LookupFindsLast(specs[..n], name);
      if k.None? {
        forall j
          ensures !LastNamed(specs, key, j)
        {
          assert !LastNamed(specs[..n], key, j);
        }
      } else {
        assert LastNamed(specs, key, k.value);
      }
    }
  }

  /** A blank capability is public; without a checker no other can be decided. */
  function CheckCapability(hasChecker: bool, capability: string, answer: Verdict): Verdict {
    if capability == "" then Allowed else if !hasChecker then Unknown else answer
  }

  function ExecutionTermination(response: Response): Response {
    if response.status == Unset then Response(Succeeded, ByCompletion)
    else if response.reason == NoReason then response.(reason := ByCompletion)
    else response
  }

  // ---- The executor ----

  /** Why a call is not executed, or the tool to execute. */
  datatype Judgement = Missing | Unread | Stop | Confirm(spec: ToolSpec) | Undecided | Forbidden | Go(spec: ToolSpec)

  /** The gates before a tool call, in order: the tool is known, the run is not cancelled, a write goes no further,
      and the actor has the capability. stopped says that the run was seen to be cancelled. */
  function Judged(e: Setup, w: World, call: nat, name: string, stopped: bool): Judgement {
    var found := Lookup(e.tools, name);
    if found.None? then Missing
    else if e.durable && w.unreadable(BeforeTool(call)) then Unread
    else if stopped then Stop
    else if found.value.kind == Write then Confirm(found.value)
    else match CheckCapability(e.hasChecker, found.value.capability, w.verdicts(call))
      case Allowed => Go(found.value)
      case Refused => Forbidden
      case Unknown => Undecided
  }

  function Refusal(j: Judgement): Response
    requires !j.Go? && !j.Confirm?
  {
    match j
    case Stop => Response(Canceled, ByCancel)
    case Undecided => Response(Failed, ByPermissionFailure)
    case Forbidden => Response(Denied, ByDenial)
    case _ => Response(Failed, ByExecutorFailure)
  }

  predicate Confirmed(e: Setup, w: World) {
    !e.durable || w.confirmation == Done
  }

  /** The response that a judged call ends the run with, if it does. */
  function StopAt(e: Setup, w: World, call: nat, j: Judgement): Option<Response> {
    match j
    case Go(_) => if w.toolFails(call) then Some(Response(Failed, ByExecutorFailure)) else None
    case Confirm(_) =>
      Some(if Confirmed(e, w) then Response(ConfirmationRequired, ByConfirmation) else Response(Failed, ByExecutorFailure))
    case _ => Some(Refusal(j))
  }

  /** The steps a judged call records: none for a cancelled run, two for a write that cannot be put up for
      confirmation, else one. */
  function StepsAt(e: Setup, w: World, j: Judgement, step: int): (marks: seq<Mark>)
    ensures |marks| <= 2
  {
    match j
    case Stop => []
    case Confirm(_) => if Confirmed(e, w) then [(step, ToolStep)] else [(step, ToolStep), (step, ToolStep)]
    case _ => [(step, ToolStep)]
  }

  /** However a plan spells the name, the call goes ahead only if the last tool registered under it does not declare
      itself as writing, whatever else its kind says. */
  lemma WriteNeverGoes(specs: seq<RawSpec>, e: Setup, w: World, call: nat, name: string, stopped: bool)
    requires e.tools == NewRegistry(specs) && Judged(e, w, call, name, stopped).Go?
    ensures exists k: nat :: LastNamed(specs, TrimSpace(name), k) && TrimSpace(specs[k].kind) != "write"
  {
    var k := LookupFindsLast(specs, name);
    hide TrimSpace, NewRegistry, LastNamed;
  }

  method Judge(store: SQLRunStore, e: Setup, w: World, call: nat, name: string)
    returns (j: Judgement, ghost stopped: bool)
    requires store.Valid() && (!e.durable ==> store.row.None?)
    modifies store`row, store`log
    ensures store.Valid() && (store.row.Some? <==> old(store.row).Some?)
    ensures MaybeCancelled(old(store.M()).(armed := store.M().armed, granted := store.M().granted), store.M())
    ensures store.M().entered == old(store.M()).entered && store.M().nextCall == old(store.M()).nextCall
    ensures j == Judged(e, w, call, name, stopped)
    ensures stopped ==> j == Stop && (store.M().cancelled || store.M().closed)
    ensures e.durable && old(store.M()).cancelled ==> j.Missing? || j.Unread? || j.Stop?
    ensures j.Go? ==> j.spec.kind == Read && store.M().armed && store.M().granted == Some((call, j.spec))
  {
    hide Fold, Counted, TrimSpace, Lookup, SQLRunStore.Valid, Kept;
    stopped := false;
    var found := Lookup(e.tools, name);
    if found.None? { return Missing, false; }
    var spec := found.value;
    var reading := store.IsRunCanceled(e.durable, BeforeTool(call), w.unreadable(BeforeTool(call)));
    if reading == Unreadable { return Unread, false; }
    if reading == Cancelled { return Stop, true; }
    if spec.kind == Write { return Confirm(spec), false; }
    var verdict := CheckCapability(e.hasChecker, spec.capability, w.verdicts(call));
    if verdict == Unknown { return Undecided, false; }
    if verdict == Refused { return Forbidden, false; }
    store.Allow(call, spec);
    j := Go(spec);
  }

  /** The attempts to record the step of a write. */
  function WriteFates(e: Setup, w: World, step: int): seq<Fate> {
    if Confirmed(e, w) then [w.steps(step, 0)] else [w.steps(step, 0), w.steps(step, 1)]
  }

  /** A write is never executed: it is put up for confirmation. A failure to do so records a second step under the same
      index, which is stored only if the first was not. */
  method ConfirmWrite(store: SQLRunStore, e: Setup, w: World, actor: string, call: nat, tool: string, step: int)
    returns (stop: Response)
    requires store.Valid() && (!e.durable ==> store.row.None?)
    modifies store
    ensures store.Valid() && (store.row.Some? <==> old(store.row).Some?)
    ensures stop ==
      if Confirmed(e, w) then Response(ConfirmationRequired, ByConfirmation) else Response(Failed, ByExecutorFailure)
    ensures var m := old(store.M());
            var marks := if Confirmed(e, w) then [(step, ToolStep)] else [(step, ToolStep), (step, ToolStep)];
            MaybeCancelled(m.(steps := m.steps + Recorded(e.durable, actor, marks)), store.M())
    ensures var records := Recorded(e.durable, actor, [(step, ToolStep)]) != [];
            Stored(store.row) == StoredWith(old(store.row), step, ToolStep, if records then WriteFates(e, w, step) else [])
    ensures var asked := if e.durable && w.confirmation != Undone then [Confirmation(tool, call + 1)] else [];
            store.pending == old(store.pending) + asked
  {
    hide Fold, Counted, Recorded, SQLRunStore.Valid, Kept, MaybeCancelled, RecordedIn, Stored, StoredWith;
    ghost var m, row, mark := store.M(), store.row, Recorded(e.durable, actor, [(step, ToolStep)]);
    ghost var first := if mark != [] then [w.steps(step, 0)] else [];
    store.Record(e.durable, actor, step, ToolStep, w.steps(step, 0));
    ghost var recorded, once := store.M(), store.row;
    StoredOnce(row, once, step, ToolStep, mark != [], w.steps(step, 0));
    var confirmed := store.CreateConfirmation(e.durable, Confirmation(tool, call + 1), w.confirmation);
    ghost var asked, between := store.M(), store.row;
    RecordedThen(m, recorded, asked, mark, []);
    StoredThen(row, once, between, between, step, ToolStep, first, []);
    assert first + [] == first;
    if confirmed { return Response(ConfirmationRequired, ByConfirmation); }
    store.Record(e.durable, actor, step, ToolStep, w.steps(step, 1));
    ghost var second := if mark != [] then [w.steps(step, 1)] else [];
    StoredOnce(between, store.row, step, ToolStep, mark != [], w.steps(step, 1));
    StoredThen(row, once, between, store.row, step, ToolStep, first, second);
    assert first + second == if mark != [] then WriteFates(e, w, step) else [];
    RecordedAdds(e, actor, [(step, ToolStep)], [(step, ToolStep)]);
    assert [(step, ToolStep)] + [(step, ToolStep)] == [(step, ToolStep), (step, ToolStep)];
    RecordedThen(m, asked, store.M(), mark, mark);
    return Response(Failed, ByExecutorFailure);
  }

  lemma RecordedThen(m: Monitor, between: Monitor, after: Monitor, a: seq<Mark>, b: seq<Mark>)
    requires MaybeCancelled(m.(steps := m.steps + a), between)
    requires MaybeCancelled(between.(steps := between.steps + b), after) || (b == [] && MaybeCancelled(between, after))
    ensures MaybeCancelled(m.(steps := m.steps + (a + b)), after)
    ensures b == [] ==> MaybeCancelled(m.(steps := m.steps + a), after)
  {
    assert m.steps + (a + b) == (m.steps + a) + b;
    assert b == [] ==> a + b == a;
  }

  /** The tool may do anything and may fail; the outcome is recorded either way. */
  method RunTool(store: SQLRunStore, e: Setup, w: World, actor: string, call: nat, spec: ToolSpec, step: int)
    returns (fails: bool)
    requires store.Valid() && (!e.durable ==> store.row.None?) && spec.kind == Read
    requires store.M().entered && store.M().armed && store.M().granted == Some((call, spec))
        && store.M().nextCall <= call
    modifies store`row, store`log
    ensures store.Valid() && (store.row.Some? <==> old(store.row).Some?) && fails == w.toolFails(call)
    ensures var m := old(store.M());
            MaybeCancelled(m.(armed := false, granted := None, nextCall := call + 1, tools := m.tools + 1,
                              steps := m.steps + Recorded(e.durable, actor, [(step, ToolStep)])), store.M())
  {
    hide Fold, Counted, SQLRunStore.Valid, Kept, Recorded;
    store.StartTool(call, spec);
    store.Record(e.durable, actor, step, ToolStep, w.steps(step, 0));
    fails := w.toolFails(call);
  }

  /** What a stretch of the executor may change of the monitor. */
  predicate Called(m: Monitor, m': Monitor, tools: nat, steps: seq<Mark>, nextCall: nat) {
    && m' == m.(cancelled := m'.cancelled, armed := m'.armed, granted := m'.granted, nextCall := m'.nextCall,
                tools := m.tools + tools, steps := m.steps + steps)
    && m'.nextCall <= nextCall && (m.cancelled ==> m'.cancelled)
  }

  /** The confirmation a judged call leaves awaiting. It names the call's place in the plan, not the step recorded. */
  function Awaiting(e: Setup, w: World, call: nat, j: Judgement): seq<Confirmation> {
    if j.Confirm? && e.durable && w.confirmation != Undone then [Confirmation(j.spec.name, call + 1)] else []
  }

  /** How one call went: what it answers, executes, records and leaves awaiting. */
  predicate Settled(e: Setup, w: World, actor: string, call: nat, name: string, step: int, stopped: bool,
                    stop: Option<Response>, m: Monitor, m': Monitor, pending: seq<Confirmation>,
                    pending': seq<Confirmation>) {
    var j := Judged(e, w, call, name, stopped);
    && stop == StopAt(e, w, call, j)
    && Called(m, m', if j.Go? then 1 else 0, Recorded(e.durable, actor, StepsAt(e, w, j, step)), call + 1)
    && (e.durable && m.cancelled ==> j.Missing? || j.Unread? || j.Stop?)
    && pending' == pending + Awaiting(e, w, call, j)
  }

  /** One iteration of the executor's loop; stop is the response that ends the run early. */
  method CallTool(store: SQLRunStore, e: Setup, w: World, actor: string, call: nat, name: string, step: int)
    returns (stop: Option<Response>, ghost stopped: bool)
    requires store.Valid() && (!e.durable ==> store.row.None?) && store.M().entered && store.M().nextCall <= call
    modifies store
    ensures store.Valid() && (store.row.Some? <==> old(store.row).Some?)
    ensures Settled(e, w, actor, call, name, step, stopped, stop,
                    old(store.M()), store.M(), old(store.pending), store.pending)
    ensures stopped ==> store.M().cancelled || store.M().closed
  {
    hide Fold, Counted, TrimSpace, Lookup, SQLRunStore.Valid, Kept, Recorded, Judged, Settled, MaybeCancelled;
    ghost var m, pending := store.M(), store.pending;
    var j;
    j, stopped := Judge(store, e, w, call, name);
    ghost var between := store.M();
    if j.Confirm? {
      var response := ConfirmWrite(store, e, w, actor, call, j.spec.name, step);
      stop := Some(response);
      WriteSettles(e, w, actor, call, name, step, stopped, j, m, between, store.M(), pending, store.pending);
    } else if j.Go? {
      var fails := RunTool(store, e, w, actor, call, j.spec, step);
      stop := if fails then Some(Response(Failed, ByExecutorFailure)) else None;
      ToolSettles(e, w, actor, call, name, step, stopped, j, m, between, store.M(), pending);
    } else {
      if j != Stop { store.Record(e.durable, actor, step, ToolStep, w.steps(step, 0)); }
      stop := Some(Refusal(j));
      RefusalSettles(e, w, actor, call, name, step, stopped, j, m, between, store.M(), pending);
    }
  }

  lemma WriteSettles(e: Setup, w: World, actor: string, call: nat, name: string, step: int, stopped: bool, j: Judgement,
                     m: Monitor, between: Monitor, after: Monitor, pending: seq<Confirmation>,
                     pending': seq<Confirmation>)
    requires j == Judged(e, w, call, name, stopped) && j.Confirm?
        && MaybeCancelled(m.(armed := between.armed, granted := between.granted), between)
    requires m.nextCall <= call
    requires !(e.durable && m.cancelled)
    requires var marks := Recorded(e.durable, actor, StepsAt(e, w, j, step));
             MaybeCancelled(between.(steps := between.steps + marks), after)
    requires var asked := if e.durable && w.confirmation != Undone then [Confirmation(j.spec.name, call + 1)] else [];
             pending' == pending + asked
    ensures Settled(e, w, actor, call, name, step, stopped, StopAt(e, w, call, j), m, after, pending, pending')
  {
    hide Judged, Recorded;
  }

  lemma ToolSettles(e: Setup, w: World, actor: string, call: nat, name: string, step: int, stopped: bool, j: Judgement,
                    m: Monitor, between: Monitor, after: Monitor, pending: seq<Confirmation>)
    requires j == Judged(e, w, call, name, stopped) && j.Go?
        && MaybeCancelled(m.(armed := between.armed, granted := between.granted), between)
    requires m.nextCall <= call
    requires !(e.durable && m.cancelled)
    requires MaybeCancelled(between.(armed := false, granted := None, nextCall := call + 1, tools := between.tools + 1,
                                     steps := between.steps + Recorded(e.durable, actor, [(step, ToolStep)])), after)
    ensures Settled(e, w, actor, call, name, step, stopped, StopAt(e, w, call, j), m, after, pending, pending)
  {
    hide Judged, Recorded;
  }

  lemma RefusalSettles(e: Setup, w: World, actor: string, call: nat, name: string, step: int, stopped: bool, j: Judgement,
                       m: Monitor, between: Monitor, after: Monitor, pending: seq<Confirmation>)
    requires j == Judged(e, w, call, name, stopped) && !j.Go? && !j.Confirm?
        && MaybeCancelled(m.(armed := between.armed, granted := between.granted), between)
    requires m.nextCall <= call
    requires e.durable && m.cancelled ==> j.Missing? || j.Unread? || j.Stop?
    requires var marks := Recorded(e.durable, actor, [(step, ToolStep)]);
             if j.Stop? then after == between else MaybeCancelled(between.(steps := between.steps + marks), after)
    ensures Settled(e, w, actor, call, name, step, stopped, Some(Refusal(j)), m, after, pending, pending)
  {
    hide Judged, Recorded, Refusal;
    if j.Stop? {
      assert Recorded(e.durable, actor, StepsAt(e, w, j, step)) == [];
      assert m.steps + [] == m.steps;
    } else {
      assert StepsAt(e, w, j, step) == [(step, ToolStep)];
    }
  }

  /** The response of the answering stage. */
  function Answered(e: Setup, w: World, stopped: bool): Response {
    if e.durable && w.unreadable(BeforeAnswer) then Response(Failed, ByExecutorFailure)
    else if stopped then Response(Canceled, ByCancel)
    else if !e.hasAnswerer then Response(Unset, NoReason)
    else if SkipsAnswer(e) then Response(Failed, ByLLMBudget)
    else if w.answer.None? then Response(Failed, ByExecutorFailure)
    else w.answer.value
  }

  predicate AsksAnswerer(e: Setup, w: World, stopped: bool) {
    e.hasAnswerer && !SkipsAnswer(e) && !stopped && !(e.durable && w.unreadable(BeforeAnswer))
  }

  /** Whether the run is handed to the follow-up store: once it is answered, or the fallback stands in. */
  predicate Saves(e: Setup, w: World, stopped: bool) {
    !stopped && !(e.durable && w.unreadable(BeforeAnswer)) && (AsksAnswerer(e, w, stopped) ==> w.answer.Some?)
  }

  function AnswerSteps(stopped: bool, step: int): seq<Mark> {
    if stopped then [] else [(step, AnswerStep)]
  }

  /** The answering stage: one more check, then the answerer, its fallback, or its budget's end. */
  method Answer(store: SQLRunStore, e: Setup, w: World, actor: string, step: int)
    returns (response: Response, saved: bool, ghost stopped: bool)
    requires store.Valid() && (!e.durable ==> store.row.None?) && store.M().entered
    modifies store`row, store`log
    ensures store.Valid() && (store.row.Some? <==> old(store.row).Some?)
    ensures response == Answered(e, w, stopped) && saved == Saves(e, w, stopped)
    ensures var m := old(store.M());
            MaybeCancelled(m.(armed := store.M().armed, granted := store.M().granted,
                              answers := m.answers + (if AsksAnswerer(e, w, stopped) then 1 else 0),
                              steps := m.steps + Recorded(e.durable, actor, AnswerSteps(stopped, step))), store.M())
    ensures stopped ==> store.M().cancelled || store.M().closed
    ensures e.durable && old(store.M()).cancelled ==> !saved && (!w.unreadable(BeforeAnswer) ==> stopped)
    ensures stopped ==> !(e.durable && w.unreadable(BeforeAnswer))
  {
    hide Fold, Counted, SQLRunStore.Valid, Kept, Recorded, MaybeCancelled, SkipsAnswer;
    stopped := false;
    ghost var m := store.M();
    var reading := store.IsRunCanceled(e.durable, BeforeAnswer, w.unreadable(BeforeAnswer));
    ghost var checked := store.M();
    if reading == Unreadable {
      store.Record(e.durable, actor, step, AnswerStep, w.steps(step, 0));
      AnswerLogged(m, false, checked, checked, store.M(), false, Recorded(e.durable, actor, [(step, AnswerStep)]));
      return Response(Failed, ByExecutorFailure), false, false;
    } else if reading == Cancelled {
      CheckLogged(m, checked);
      return Response(Canceled, ByCancel), false, true;
    }
    ghost var asks := AsksAnswerer(e, w, false);
    saved := true;
    if e.hasAnswerer && !SkipsAnswer(e) {
      StillEntered(m, checked);
      store.StartAnswer();
      saved := w.answer.Some?;
      response := if w.answer.None? then Response(Failed, ByExecutorFailure) else w.answer.value;
    } else {
      response := if e.hasAnswerer then Response(Failed, ByLLMBudget) else Response(Unset, NoReason);
    }
    ghost var started := store.M();
    store.Record(e.durable, actor, step, AnswerStep, w.steps(step, 0));
    AnswerLogged(m, true, checked, started, store.M(), asks, Recorded(e.durable, actor, [(step, AnswerStep)]));
  }

  lemma StillEntered(m: Monitor, checked: Monitor)
    requires m.entered && MaybeCancelled(m.(armed := true, granted := None), checked)
    ensures checked.entered && checked.armed
  {
  }

  lemma CheckLogged(m: Monitor, checked: Monitor)
    requires MaybeCancelled(m.(armed := false, granted := None), checked)
    ensures MaybeCancelled(m.(armed := checked.armed, granted := checked.granted, answers := m.answers + 0,
                              steps := m.steps + []), checked)
  {
    assert m.steps + [] == m.steps;
  }

  lemma AnswerLogged(m: Monitor, armed: bool, checked: Monitor, started: Monitor, after: Monitor, asks: bool,
                     marks: seq<Mark>)
    requires MaybeCancelled(m.(armed := armed, granted := None), checked)
    requires if !asks then started == checked
             else MaybeCancelled(checked.(armed := false, granted := None, answers := checked.answers + 1), started)
    requires MaybeCancelled(started.(steps := started.steps + marks), after)
    ensures MaybeCancelled(m.(armed := after.armed, granted := after.granted,
                              answers := m.answers + (if asks then 1 else 0), steps := m.steps + marks), after)
  {
  }

  /** Call k was executed and succeeded. */
  predicate Passed(e: Setup, w: World, plan: Plan, k: nat)
    requires k < |plan.calls|
  {
    Judged(e, w, k, plan.calls[k], false).Go? && !w.toolFails(k)
  }

  /** The executor's response after the first n calls passed: that of call n, or the answer. */
  function Executed(e: Setup, w: World, plan: Plan, n: nat, stopped: bool): Option<Response>
    requires n <= |plan.calls|
  {
    if n == |plan.calls| then Some(Answered(e, w, stopped))
    else StopAt(e, w, n, Judged(e, w, n, plan.calls[n], stopped))
  }

  /** The tools executed and the steps recorded by then. */
  function ToolsRun(e: Setup, w: World, plan: Plan, n: nat, stopped: bool): (t: nat)
    requires n <= |plan.calls|
    ensures n <= t <= |plan.calls|
  {
    if n < |plan.calls| && Judged(e, w, n, plan.calls[n], stopped).Go? then n + 1 else n
  }

  /** The steps of n calls that passed, numbered on from the offset. */
  function PassedSteps(offset: nat, n: nat): (marks: seq<Mark>)
    ensures |marks| == n
    ensures forall k :: 0 <= k < n ==> marks[k] == (offset + k + 1, ToolStep)
  {
    if n == 0 then [] else PassedSteps(offset, n - 1) + [(offset + n, ToolStep)]
  }

  function LastSteps(e: Setup, w: World, plan: Plan, offset: nat, n: nat, stopped: bool): (marks: seq<Mark>)
    requires n <= |plan.calls|
  {
    if n < |plan.calls| then StepsAt(e, w, Judged(e, w, n, plan.calls[n], stopped), offset + n + 1)
    else AnswerSteps(stopped, offset + n + 1)
  }

  function StepsTaken(e: Setup, w: World, plan: Plan, offset: nat, n: nat, stopped: bool): (marks: seq<Mark>)
    requires n <= |plan.calls|
    ensures |marks| <= |plan.calls| + 1
  {
    PassedSteps(offset, n) + LastSteps(e, w, plan, offset, n, stopped)
  }

  /** The executor: the calls in order, each behind its gates, then the answer. n is the number of calls that passed,
      stopped whether the last check saw a cancel. */
  method Execute(store: SQLRunStore, e: Setup, w: World, actor: string, plan: Plan, offset: nat)
    returns (response: Response, saved: bool, ghost n: nat, ghost stopped: bool)
    requires store.Valid() && (!e.durable ==> store.row.None?) && store.M().entered && store.M().nextCall == 0
    modifies store
    ensures store.Valid() && (store.row.Some? <==> old(store.row).Some?)
    ensures Performed(e, w, actor, plan, offset, n, stopped, response,
                      old(store.M()), store.M(), old(store.pending), store.pending)
    ensures saved <==> n == |plan.calls| && Saves(e, w, stopped)
    ensures e.durable && old(store.M()).cancelled ==> !saved
    ensures stopped ==> store.M().cancelled || store.M().closed
  {
    hide Fold, Counted, SQLRunStore.Valid, Kept, Recorded, Lookup, Settled, Performed, Passed, Judged, Answered, Called,
      AnswerSteps, AsksAnswerer, Saves, MaybeCancelled;
    ghost var m, pending := store.M(), store.pending;
    NothingCalled(m, e, actor, offset);
    for i := 0 to |plan.calls|
      invariant store.Valid() && (store.row.Some? <==> old(store.row).Some?)
      invariant forall k :: 0 <= k < i ==> Passed(e, w, plan, k)
      invariant Called(m, store.M(), i, Recorded(e.durable, actor, PassedSteps(offset, i)), i)
          && store.pending == pending
      invariant e.durable && m.cancelled ==> i == 0
    {
      ghost var before := store.M();
      CalledSoFar(m, before, i, Recorded(e.durable, actor, PassedSteps(offset, i)));
      var stop;
      stop, stopped := CallTool(store, e, w, actor, i, plan.calls[i], offset + i + 1);
      CallPerforms(e, w, actor, plan, offset, i, stopped, stop, m, before, store.M(), pending, store.pending);
      if stop.Some? { return stop.value, false, i, stopped; }
    }
    n := |plan.calls|;
    ghost var before := store.M();
    CalledSoFar(m, before, n, Recorded(e.durable, actor, PassedSteps(offset, n)));
    response, saved, stopped := Answer(store, e, w, actor, offset + |plan.calls| + 1);
    AnswerPerforms(e, w, actor, plan, offset, stopped, m, before, store.M(), pending);
  }

  lemma NothingCalled(m: Monitor, e: Setup, actor: string, offset: nat)
    requires m.nextCall == 0
    ensures Called(m, m, 0, Recorded(e.durable, actor, PassedSteps(offset, 0)), 0)
  {
    assert m.steps + [] == m.steps;
  }

  lemma CalledSoFar(m: Monitor, before: Monitor, calls: nat, steps: seq<Mark>)
    requires Called(m, before, calls, steps, calls)
    ensures before.nextCall <= calls && before.entered == m.entered && (m.cancelled ==> before.cancelled)
  {
  }

  /** How the executor went: the first n calls passed, and then a call or the answer decided the response. */
  predicate Performed(e: Setup, w: World, actor: string, plan: Plan, offset: nat, n: nat, stopped: bool,
                      response: Response, m: Monitor, m': Monitor, pending: seq<Confirmation>,
                      pending': seq<Confirmation>) {
    && n <= |plan.calls| && (forall k :: 0 <= k < n ==> Passed(e, w, plan, k))
    && Executed(e, w, plan, n, stopped) == Some(response)
    && Called(m, m'.(answers := m.answers), ToolsRun(e, w, plan, n, stopped),
              Recorded(e.durable, actor, StepsTaken(e, w, plan, offset, n, stopped)), |plan.calls|)
    && m'.answers == m.answers + (if n == |plan.calls| && AsksAnswerer(e, w, stopped) then 1 else 0)
    && (e.durable && m.cancelled ==> m'.tools == m.tools && m'.answers == m.answers)
    && pending' == pending + if n < |plan.calls| then Awaiting(e, w, n, Judged(e, w, n, plan.calls[n], stopped)) else []
  }

  lemma CallPerforms(e: Setup, w: World, actor: string, plan: Plan, offset: nat, i: nat, stopped: bool,
                     stop: Option<Response>, m: Monitor, before: Monitor, after: Monitor, pending: seq<Confirmation>,
                     pending': seq<Confirmation>)
    requires i < |plan.calls| && forall k :: 0 <= k < i ==> Passed(e, w, plan, k)
    requires Called(m, before, i, Recorded(e.durable, actor, PassedSteps(offset, i)), i)
    requires Settled(e, w, actor, i, plan.calls[i], offset + i + 1, stopped, stop, before, after, pending, pending')
    requires e.durable && m.cancelled ==> i == 0
    requires stopped ==> after.cancelled || after.closed
    ensures stop.None? ==>
      && Passed(e, w, plan, i) && pending' == pending
      && Called(m, after, i + 1, Recorded(e.durable, actor, PassedSteps(offset, i + 1)), i + 1)
      && !(e.durable && m.cancelled)
    ensures stop.Some? ==> Performed(e, w, actor, plan, offset, i, stopped, stop.value, m, after, pending, pending')
  {
    hide Judged, Recorded;
    JudgedUnstopped(e, w, i, plan.calls[i], stopped);
    assert stop.None? ==> Judged(e, w, i, plan.calls[i], stopped).Go?;
    var j := Judged(e, w, i, plan.calls[i], stopped);
    StepsAdd(m, e, actor, PassedSteps(offset, i), StepsAt(e, w, j, offset + i + 1));
  }

  lemma AnswerPerforms(e: Setup, w: World, actor: string, plan: Plan, offset: nat, stopped: bool, m: Monitor,
                       before: Monitor, after: Monitor, pending: seq<Confirmation>)
    requires forall k :: 0 <= k < |plan.calls| ==> Passed(e, w, plan, k)
    requires var n := |plan.calls|; Called(m, before, n, Recorded(e.durable, actor, PassedSteps(offset, n)), n)
    requires MaybeCancelled(before.(armed := after.armed, granted := after.granted,
                              answers := before.answers + (if AsksAnswerer(e, w, stopped) then 1 else 0),
                              steps := before.steps
                                       + Recorded(e.durable, actor, AnswerSteps(stopped, offset + |plan.calls| + 1))), after)
    requires e.durable && before.cancelled && !w.unreadable(BeforeAnswer) ==> stopped
    requires e.durable && m.cancelled ==> |plan.calls| == 0
    ensures Performed(e, w, actor, plan, offset, |plan.calls|, stopped, Answered(e, w, stopped),
                      m, after, pending, pending)
  {
    hide Judged, Recorded, Passed, Answered, StopAt, StepsAt, Awaiting, SkipsAnswer;
    StepsAdd(m, e, actor, PassedSteps(offset, |plan.calls|), AnswerSteps(stopped, offset + |plan.calls| + 1));
  }

  /** Only a run seen to be cancelled is judged differently for it. */
  lemma JudgedUnstopped(e: Setup, w: World, call: nat, name: string, stopped: bool)
    ensures Judged(e, w, call, name, stopped) == Stop
            || Judged(e, w, call, name, stopped) == Judged(e, w, call, name, false)
  {
  }

  lemma RecordedAdds(e: Setup, actor: string, a: seq<Mark>, b: seq<Mark>)
    ensures Recorded(e.durable, actor, a + b) == Recorded(e.durable, actor, a) + Recorded(e.durable, actor, b)
  {
  }

  lemma StepsAdd(m: Monitor, e: Setup, actor: string, a: seq<Mark>, b: seq<Mark>)
    ensures var x, y := Recorded(e.durable, actor, a), Recorded(e.durable, actor, b);
            m.steps + Recorded(e.durable, actor, a + b) == (m.steps + x) + y
  {
    RecordedAdds(e, actor, a, b);
    hide Recorded;
    var x, y := Recorded(e.durable, actor, a), Recorded(e.durable, actor, b);
    assert m.steps + (x + y) == (m.steps + x) + y;
  }

  // ---- The runner ----

  /** How a run ends before its executor: whether it was handled, and with what. */
  datatype Ending = Ending(response: Response, handled: bool)

  /** The steps before the plan: how they end the run, if they do, whether the context step was recorded, whether the
      request has a context pack afterwards, and the steps recorded. */
  datatype Routing = Routing(end: Option<Ending>, offset: nat, hasPack: bool, steps: seq<Mark>)

  function Routed(e: Setup, w: World, request: Request): (r: Routing)
    ensures r.end.None? ==> |r.steps| == r.offset <= 1 && w.mode.Some? && w.mode.value != Off
  {
    var verdict := CheckCapability(e.hasChecker, e.capabilityBeforePlan, w.planVerdict);
    if w.mode.None? then Routing(Some(Ending(Response(Failed, ByRoutingFailure), true)), 0, request.hasPack, [(0, PlanStep)])
    else if w.mode.value == Off then Routing(Some(Ending(Response(Succeeded, ByRoutingOff), false)), 0, request.hasPack, [])
    else if verdict != Allowed then
      var refusal := if verdict == Refused then Response(Denied, ByDenial) else Response(Failed, ByPermissionFailure);
      Routing(Some(Ending(refusal, true)), 0, request.hasPack, [(0, PlanStep)])
    else if !Fetches(e, request) then Routing(None, 0, request.hasPack, [])
    else if w.fetched == Allowed then Routing(None, 1, true, [(1, ContextStep)])
    else if IsOptionalScope(request.scope) then Routing(None, 1, false, [(1, ContextStep)])
    else
      var refusal := if w.fetched == Refused then Response(Denied, ByDenial) else Response(Failed, ByExecutorFailure);
      Routing(Some(Ending(refusal, true)), 1, false, [(1, ContextStep)])
  }

  predicate Fetches(e: Setup, request: Request) {
    IsChannelScope(request.scope) && !request.hasPack && e.hasFetcher
  }

  predicate FallsThrough(request: Request, hasPack: bool, plan: Plan) {
    plan.calls == [] && !request.hasPriorRun && (!hasPack || (IsOptionalScope(request.scope) && plan.chat))
  }

  /** What a plan leads to, before anything is executed: None means that it is executed. */
  function Screened(e: Setup, request: Request, mode: Mode, r: Routing, plan: Plan): Option<Ending> {
    if TrimSpace(plan.clarifying) != "" then Some(Ending(Response(Succeeded, ByClarifying), true))
    else if plan.requiresConfirmation then Some(Ending(Response(ConfirmationRequired, ByConfirmation), true))
    else if FallsThrough(request, r.hasPack, plan) then Some(Ending(Response(Succeeded, ByIgnoring), false))
    else if mode == DryRunMode then Some(Ending(Response(DryRun, ByDryRun), true))
    else if e.limits.maxSteps > 0 && PlannedStepCount(plan) + r.offset > e.limits.maxSteps
    then Some(Ending(Response(Failed, ByStepBudget), true))
    else if |plan.calls| > ToolBudget(e.limits) then Some(Ending(Response(Failed, ByToolBudget), true))
    else None
  }

  /** How the run ends before its executor, if it does. */
  function Early(e: Setup, w: World, request: Request): (end: Option<Ending>)
    ensures end.None? ==> w.planned.Planned? && Routed(e, w, request).end.None?
  {
    var r := Routed(e, w, request);
    if r.end.Some? then r.end
    else match w.planned
      case PlannerFailed => Some(Ending(Response(Failed, ByPlannerFailure), true))
      case NoPlan => Some(Ending(Response(Succeeded, ByIgnoring), false))
      case Planned(plan) => Screened(e, request, w.mode.value, r, plan)
  }

  function EarlySteps(e: Setup, w: World, request: Request): seq<Mark> {
    var r := Routed(e, w, request);
    if r.end.Some? then r.steps else r.steps + [(0, PlanStep)]
  }

  predicate Eligible(e: Setup, request: Request) {
    e.hasPlanner && request.guildMention && request.guild != "" && request.scope != "none"
  }

  predicate Starts(w: World, id: string) {
    TrimSpace(id) != "" && w.start == Done
  }

  /** The course of a run: not taken on, not started, halted at its first check, ended before its executor, or carried
      through n calls. */
  datatype Course = Unfit | Unstarted | Halted | Ended | Carried(n: nat, stopped: bool)

  /** What is answered on each course, and when it is taken. */
  predicate Took(e: Setup, w: World, id: string, request: Request, c: Course, response: Response, handled: bool) {
    && Eligible(e, request) == !c.Unfit?
    && (c.Unstarted? <==> !c.Unfit? && e.durable && !Starts(w, id))
    && match c
       case Unfit => response == Response(Unset, NoReason) && !handled
       case Unstarted => response == Response(Unset, NoReason) && handled
       case Halted =>
         e.durable && handled && response == Response(if w.unreadable(AtStart) then Failed else Canceled, ByCancel)
       case Ended =>
         !(e.durable && w.unreadable(AtStart)) && Early(e, w, request) == Some(Ending(response, handled))
       case Carried(n, stopped) =>
         && !(e.durable && w.unreadable(AtStart)) && Early(e, w, request).None?
         && n <= |w.planned.plan.calls| && (forall k :: 0 <= k < n ==> Passed(e, w, w.planned.plan, k))
         && Executed(e, w, w.planned.plan, n, stopped).Some? && handled
         && response == ExecutionTermination(Executed(e, w, w.planned.plan, n, stopped).value)
  }

  predicate CarriedFits(w: World, c: Course) {
    c.Carried? ==> w.planned.Planned? && c.n <= |w.planned.plan.calls|
  }

  /** The tools executed, the answers asked for and the steps recorded on a course. */
  function RunTools(e: Setup, w: World, c: Course): nat
    requires CarriedFits(w, c)
  {
    if c.Carried? then ToolsRun(e, w, w.planned.plan, c.n, c.stopped) else 0
  }

  function RunAnswers(e: Setup, w: World, c: Course): nat
    requires CarriedFits(w, c)
  {
    if c.Carried? && c.n == |w.planned.plan.calls| && AsksAnswerer(e, w, c.stopped) then 1 else 0
  }

  predicate RunSaves(e: Setup, w: World, c: Course)
    requires CarriedFits(w, c)
  {
    c.Carried? && c.n == |w.planned.plan.calls| && Saves(e, w, c.stopped)
  }

  function RunAwaiting(e: Setup, w: World, c: Course): seq<Confirmation>
    requires CarriedFits(w, c)
  {
    if c.Carried? && c.n < |w.planned.plan.calls|
    then Awaiting(e, w, c.n, Judged(e, w, c.n, w.planned.plan.calls[c.n], c.stopped)) else []
  }

  function RunSteps(e: Setup, w: World, request: Request, c: Course): seq<Mark>
    requires CarriedFits(w, c)
  {
    match c
    case Ended => EarlySteps(e, w, request)
    case Carried(n, stopped) =>
      EarlySteps(e, w, request) + StepsTaken(e, w, w.planned.plan, Routed(e, w, request).offset, n, stopped)
    case _ => []
  }

  // ---- What the courses have in common ----

  /** The executor is entered exactly when tools are enabled, the actor may plan, the context is there or optional,
      and a plan needs execution and fits both budgets. */
  lemma ExecutedIff(e: Setup, w: World, request: Request)
    ensures Early(e, w, request).None? <==>
      && w.mode == Some(Enabled)
      && (e.capabilityBeforePlan == "" || (e.hasChecker && w.planVerdict == Allowed))
      && (Fetches(e, request) ==> w.fetched == Allowed || IsOptionalScope(request.scope))
      && w.planned.Planned?
      && var plan := w.planned.plan;
         var fetched := Fetches(e, request) && w.fetched == Allowed;
         && TrimSpace(plan.clarifying) == "" && !plan.requiresConfirmation
         && !FallsThrough(request, request.hasPack || fetched, plan)
         && |plan.calls| <= ToolBudget(e.limits)
         && (e.limits.maxSteps > 0 ==>
             PlannedStepCount(plan) + (if Fetches(e, request) then 1 else 0) <= e.limits.maxSteps)
  {
    hide FallsThrough, IsOptionalScope, IsChannelScope, TrimSpace, ToolBudget;
    var r := Routed(e, w, request);
    if r.end.None? {
      assert r.hasPack == (request.hasPack || (Fetches(e, request) && w.fetched == Allowed));
      assert r.offset == if Fetches(e, request) then 1 else 0;
    }
  }

  /** On every course tool calls stay within the tool budget, recorded steps within a positive step budget once the
      executor is entered, and an answer is asked for at most once, after every call of the plan passed. */
  lemma BudgetsHold(e: Setup, w: World, id: string, request: Request, c: Course, response: Response, handled: bool)
    requires Took(e, w, id, request, c, response, handled)
    ensures CarriedFits(w, c) && RunTools(e, w, c) <= ToolBudget(e.limits)
    ensures c.Carried? && e.limits.maxSteps > 0 ==> |RunSteps(e, w, request, c)| <= e.limits.maxSteps
    ensures RunAnswers(e, w, c) == 1 ==> RunTools(e, w, c) == |w.planned.plan.calls| && !SkipsAnswer(e)
    ensures w.mode != Some(Enabled) ==> RunTools(e, w, c) == RunAnswers(e, w, c) == 0
  {
    hide Judged, TrimSpace, Answered, FallsThrough, Fetches;
    ExecutedIff(e, w, request);
  }

  /** A run is saved for follow-ups only once every call of its plan passed; and if its answerer leaves the status open,
      exactly when it ends as completed or for want of LLM budget. */
  lemma SavedIffCompleted(e: Setup, w: World, id: string, request: Request, c: Course, response: Response, handled: bool)
    requires Took(e, w, id, request, c, response, handled)
    ensures CarriedFits(w, c) && (RunSaves(e, w, c) ==> RunTools(e, w, c) == |w.planned.plan.calls|)
    ensures (w.answer.Some? ==> w.answer.value.status == Unset) ==>
      (RunSaves(e, w, c) <==> response.reason in {ByCompletion, ByLLMBudget})
  {
    hide Judged, TrimSpace, SkipsAnswer, FallsThrough, Fetches, CheckCapability;
  }

  /** The step budget is exactly used up in two ways: every call passes and the answer is reached, or all but the last
      pass and the last is a write that cannot be put up for confirmation. */
  lemma StepBudgetTight(e: Setup, w: World, plan: Plan, offset: nat, n: nat, stopped: bool)
    requires n <= |plan.calls|
    ensures |StepsTaken(e, w, plan, offset, n, stopped)| == PlannedStepCount(plan) - 1 <==>
      || (n == |plan.calls| && !stopped)
      || (n + 1 == |plan.calls| && Judged(e, w, n, plan.calls[n], stopped).Confirm? && !Confirmed(e, w))
  {
    hide Judged;
  }

  predicate DistinctIndices(marks: seq<Mark>) {
    forall i, j :: 0 <= i < j < |marks| ==> marks[i].0 != marks[j].0
  }

  /** The plan step, the context step, the calls and the answer have indices of their own; only a write that cannot be
      put up for confirmation records its index twice, as the last two steps. */
  lemma StepIndices(e: Setup, w: World, request: Request, c: Course)
    requires CarriedFits(w, c) && (c.Carried? ==> Early(e, w, request).None?)
    ensures var marks := RunSteps(e, w, request, c);
            var twice := c.Carried? && c.n < |w.planned.plan.calls| && !Confirmed(e, w)
                         && Judged(e, w, c.n, w.planned.plan.calls[c.n], c.stopped).Confirm?;
            && (DistinctIndices(marks) <==> !twice)
            && (twice ==>
                2 <= |marks| && DistinctIndices(marks[..|marks| - 1]) && marks[|marks| - 1] == marks[|marks| - 2])
  {
    EarlyIndices(e, w, request);
    hide Judged, Routed, EarlySteps, Early;
    if c.Carried? {
      var r, plan := Routed(e, w, request), w.planned.plan;
      CarriedIndices(EarlySteps(e, w, request), r.offset, c.n, LastSteps(e, w, plan, r.offset, c.n, c.stopped));
    }
  }

  lemma EarlyIndices(e: Setup, w: World, request: Request)
    ensures DistinctIndices(EarlySteps(e, w, request))
    ensures var r := Routed(e, w, request);
            r.end.None? ==> forall i :: 0 <= i < |EarlySteps(e, w, request)| ==>
              EarlySteps(e, w, request)[i].0 <= r.offset
    ensures Early(e, w, request).None? ==> Routed(e, w, request).end.None?
  {
    hide TrimSpace, Screened, Fetches, IsOptionalScope, CheckCapability;
  }

  lemma CarriedIndices(early: seq<Mark>, offset: nat, n: nat, last: seq<Mark>)
    requires DistinctIndices(early) && forall i :: 0 <= i < |early| ==> early[i].0 <= offset
    requires |last| <= 2 && forall i :: 0 <= i < |last| ==> last[i].0 == offset + n + 1 && last[i] == last[0]
    ensures var marks := early + (PassedSteps(offset, n) + last);
            && (DistinctIndices(marks) <==> |last| < 2)
            && (|last| == 2 ==> DistinctIndices(marks[..|marks| - 1]) && marks[|marks| - 1] == marks[|marks| - 2])
  {
    var passed := PassedSteps(offset, n);
    var marks := early + (passed + last);
    var m := if |last| == 2 then |marks| - 1 else |marks|;
    forall i, j | 0 <= i < j < m
      ensures marks[i].0 != marks[j].0
    {
      if j >= |early| {
        assert offset < marks[j].0;
        assert i >= |early| ==> marks[i].0 == offset + (i - |early|) + 1;
        assert marks[j].0 == offset + (j - |early|) + 1;
      }
    }
    if |last| == 2 {
      assert marks[|marks| - 1] == last[1] && marks[|marks| - 2] == last[0];
    }
  }

  /** A stored confirmation and the step recorded for its call bear one index exactly when no context step was recorded
      before, that is, when no context was fetched. */
  lemma ConfirmationIndexIff(e: Setup, w: World, request: Request, n: nat, stopped: bool)
    requires Early(e, w, request).None? && n < |w.planned.plan.calls|
    requires RunAwaiting(e, w, Carried(n, stopped)) != []
    ensures var marks := LastSteps(e, w, w.planned.plan, Routed(e, w, request).offset, n, stopped);
            marks != [] && (RunAwaiting(e, w, Carried(n, stopped))[0].step == marks[0].0 <==> !Fetches(e, request))
  {
    hide Judged, Fetches, IsOptionalScope, TrimSpace, Screened;
  }

  /** A run is answered as canceled only when a check saw the cancel or its answerer says so; and as needing
      confirmation, by the executor, only for a write it has put up and not executed. */
  lemma CallsAnswered(e: Setup, w: World, plan: Plan, n: nat, stopped: bool)
    requires n < |plan.calls| && Executed(e, w, plan, n, stopped).Some?
    ensures var r, j := Executed(e, w, plan, n, stopped).value, Judged(e, w, n, plan.calls[n], stopped);
            && (r.status == Canceled <==> j.Stop?) && (j.Stop? ==> stopped)
            && (r.status == Denied <==> j.Forbidden?)
            && (r.status == ConfirmationRequired <==> j.Confirm? && Confirmed(e, w))
            && (j.Confirm? ==> j.spec.kind == Write && ToolsRun(e, w, plan, n, stopped) == n)
            && r.status in {Canceled, Denied, ConfirmationRequired, Failed}
  {
    hide Lookup, CheckCapability;
  }

  // ---- The run ----

  /** What a start that is reported as failed leaves: an open row, if it took effect all the same. */
  function LostRow(w: World, id: string): (row: Option<Row>)
    ensures row.Some? ==> Cancellable(row.value) && row.value.steps == map[]
  {
    if w.start == Unheard && TrimSpace(id) != "" then Some(StartedRow(None)) else None
  }

  /** Starts the durable run, if runs are durable, and looks once for a cancel. lost says that the start failed. */
  method Begin(store: SQLRunStore, e: Setup, w: World, id: string) returns (lost: bool, end: Option<Ending>)
    requires store.row.None? && store.log == []
    modifies store`row, store`log
    ensures store.Valid() && (!e.durable ==> store.row.None?)
    ensures lost <==> e.durable && !Starts(w, id)
    ensures lost ==> store.M() == QUIET && end.None? && store.row == LostRow(w, id)
    ensures !lost ==> MaybeCancelled(QUIET.(started := e.durable), store.M()) && (e.durable ==> store.row.Some?)
    ensures e.durable && w.unreadable(AtStart) && !lost ==> end.Some?
    ensures end.Some? ==>
      && e.durable && end.value == Ending(Response(if w.unreadable(AtStart) then Failed else Canceled, ByCancel), true)
      && (!w.unreadable(AtStart) ==> store.M().cancelled)
  {
    assert store.M() == QUIET;
    hide Fold;
    lost, end := false, None;
    if e.durable {
      var ok := store.StartRun(id, w.start);
      if !ok { return true, None; }
      var reading := store.IsRunCanceled(true, AtStart, w.unreadable(AtStart));
      if reading == Unreadable { end := Some(Ending(Response(Failed, ByCancel), true)); }
      else if reading == Cancelled { end := Some(Ending(Response(Canceled, ByCancel), true)); }
    }
  }

  method Route(store: SQLRunStore, e: Setup, w: World, request: Request) returns (r: Routing)
    requires store.Valid() && (!e.durable ==> store.row.None?)
    modifies store`row, store`log
    ensures store.Valid() && (store.row.Some? <==> old(store.row).Some?)
    ensures r == Routed(e, w, request)
    ensures RoutedOn(e, w, request, r, old(store.M()), store.M())
  {
    hide Fold, Counted, SQLRunStore.Valid, Kept, Recorded, IsChannelScope, IsOptionalScope, MaybeCancelled, RoutedOn;
    ghost var m := store.M();
    if w.mode.None? {
      store.Record(e.durable, request.actor, 0, PlanStep, w.steps(0, 0));
      Unrouted(e, w, request, m, store.M());
      return Routing(Some(Ending(Response(Failed, ByRoutingFailure), true)), 0, request.hasPack, [(0, PlanStep)]);
    }
    store.SetMode(w.mode.value);
    ghost var between := store.M();
    RoutedQuietly(e, w, request, m, between);
    if w.mode.value == Off {
      return Routing(Some(Ending(Response(Succeeded, ByRoutingOff), false)), 0, request.hasPack, []);
    }
    var verdict := CheckCapability(e.hasChecker, e.capabilityBeforePlan, w.planVerdict);
    if verdict != Allowed {
      store.Record(e.durable, request.actor, 0, PlanStep, w.steps(0, 0));
      RoutedRecording(e, w, request, m, between, store.M(), (0, PlanStep));
      var refusal := if verdict == Refused then Response(Denied, ByDenial) else Response(Failed, ByPermissionFailure);
      return Routing(Some(Ending(refusal, true)), 0, request.hasPack, [(0, PlanStep)]);
    }
    if !Fetches(e, request) { return Routing(None, 0, request.hasPack, []); }
    store.Record(e.durable, request.actor, 1, ContextStep, w.steps(1, 0));
    RoutedRecording(e, w, request, m, between, store.M(), (1, ContextStep));
    var end := None;
    if w.fetched != Allowed && !IsOptionalScope(request.scope) {
      var refusal := if w.fetched == Refused then Response(Denied, ByDenial) else Response(Failed, ByExecutorFailure);
      end := Some(Ending(refusal, true));
    }
    r := Routing(end, 1, w.fetched == Allowed, [(1, ContextStep)]);
  }

  /** What routing leaves in the log: the mode, if it was read, and its steps. */
  predicate RoutedOn(e: Setup, w: World, request: Request, r: Routing, m: Monitor, m': Monitor) {
    MaybeCancelled(m.(mode := if w.mode.None? then m.mode else w.mode,
                      steps := m.steps + Recorded(e.durable, request.actor, r.steps)), m')
  }

  lemma Unrouted(e: Setup, w: World, request: Request, m: Monitor, after: Monitor)
    requires w.mode.None?
    requires MaybeCancelled(m.(steps := m.steps + Recorded(e.durable, request.actor, [(0, PlanStep)])), after)
    ensures forall r: Routing :: r.steps == [(0, PlanStep)] ==> RoutedOn(e, w, request, r, m, after)
  {
  }

  lemma RoutedQuietly(e: Setup, w: World, request: Request, m: Monitor, between: Monitor)
    requires w.mode.Some? && MaybeCancelled(m.(mode := w.mode), between)
    ensures forall r: Routing :: r.steps == [] ==> RoutedOn(e, w, request, r, m, between)
  {
    assert m.steps + [] == m.steps;
  }

  lemma RoutedRecording(e: Setup, w: World, request: Request, m: Monitor, between: Monitor, after: Monitor, mark: Mark)
    requires w.mode.Some? && MaybeCancelled(m.(mode := w.mode), between)
    requires MaybeCancelled(between.(steps := between.steps + Recorded(e.durable, request.actor, [mark])), after)
    ensures forall r: Routing :: r.steps == [mark] ==> RoutedOn(e, w, request, r, m, after)
  {
  }

  /** From the routing decision to the response. */
  method Drive(store: SQLRunStore, e: Setup, w: World, id: string, request: Request)
    returns (end: Ending, saved: bool, ghost course: Course)
    requires store.Valid() && (!e.durable ==> store.row.None?) && Fresh(store.M())
    requires Eligible(e, request) && (e.durable ==> Starts(w, id) && !w.unreadable(AtStart))
    modifies store
    ensures store.Valid() && (store.row.Some? <==> old(store.row).Some?)
    ensures store.M().started == old(store.M()).started && !store.M().closed && store.M().completions == 0
    ensures Took(e, w, id, request, course, end.response, end.handled) && (course.Ended? || course.Carried?)
    ensures Tallied(e, w, request, course, store.M())
    ensures store.pending == old(store.pending) + RunAwaiting(e, w, course) && saved == RunSaves(e, w, course)
    ensures course.Carried? && course.stopped ==> store.M().cancelled
    ensures e.durable && old(store.M()).cancelled ==> store.M().tools == store.M().answers == 0 && !saved
  {
    hide Fold, Counted, SQLRunStore.Valid, Recorded, Screened, Routed, Judged, Answered, TrimSpace, MaybeCancelled,
      RoutedOn, Performed, Tallied, Took, Called;
    ghost var m, pending := store.M(), store.pending;
    assert pending + RunAwaiting(e, w, Ended) == pending;
    var r := Route(store, e, w, request);
    ghost var routed := store.M();
    RouteTallied(e, w, id, request, r, m, routed);
    if r.end.Some? { return r.end.value, false, Ended; }
    var screened := match w.planned
      case PlannerFailed => Some(Ending(Response(Failed, ByPlannerFailure), true))
      case NoPlan => Some(Ending(Response(Succeeded, ByIgnoring), false))
      case Planned(plan) => Screened(e, request, w.mode.value, r, plan);
    store.Record(e.durable, request.actor, 0, PlanStep, w.steps(0, 0));
    ghost var recorded := store.M();
    PlanTallied(e, w, id, request, r, m, routed, recorded);
    if screened.Some? { return screened.value, false, Ended; }
    ExecutedIff(e, w, request);
    store.Enter();
    ghost var entered, n, stopped := store.M(), 0, false;
    Entering(m, recorded, entered);
    var response;
    response, saved, n, stopped := Execute(store, e, w, request.actor, w.planned.plan, r.offset);
    CarriedTallied(e, w, id, request, m, recorded, entered, n, stopped, response, store.M(), pending, store.pending);
    return Ending(ExecutionTermination(response), true), saved, Carried(n, stopped);
  }

  /** The log of a run before its executor. */
  predicate Begun(m: Monitor, m': Monitor) {
    && m'.started == m.started && !m'.closed && m'.completions == 0 && !m'.entered && m'.tools == m'.answers == 0
    && m'.nextCall == 0 && (m.cancelled ==> m'.cancelled)
  }

  lemma RouteTallied(e: Setup, w: World, id: string, request: Request, r: Routing, m: Monitor, routed: Monitor)
    requires Fresh(m) && r == Routed(e, w, request) && RoutedOn(e, w, request, r, m, routed)
    requires Eligible(e, request) && (e.durable ==> Starts(w, id) && !w.unreadable(AtStart))
    ensures Begun(m, routed) && (w.mode.Some? ==> routed.mode == w.mode)
    ensures routed.steps == Recorded(e.durable, request.actor, r.steps)
    ensures r.end.Some? ==>
      Tallied(e, w, request, Ended, routed) && Took(e, w, id, request, Ended, r.end.value.response, r.end.value.handled)
  {
    hide Recorded, Routed, Screened, TrimSpace, Starts;
  }

  lemma PlanTallied(e: Setup, w: World, id: string, request: Request, r: Routing, m: Monitor, routed: Monitor,
                    after: Monitor)
    requires r == Routed(e, w, request) && r.end.None?
    requires Eligible(e, request) && (e.durable ==> Starts(w, id) && !w.unreadable(AtStart))
    requires Begun(m, routed) && routed.mode == w.mode && routed.steps == Recorded(e.durable, request.actor, r.steps)
    requires MaybeCancelled(routed.(steps := routed.steps + Recorded(e.durable, request.actor, [(0, PlanStep)])), after)
    ensures Begun(m, after) && after.mode == w.mode
    ensures after.steps == Recorded(e.durable, request.actor, EarlySteps(e, w, request))
    ensures var early := Early(e, w, request);
            early.Some? ==>
              Tallied(e, w, request, Ended, after)
                && Took(e, w, id, request, Ended, early.value.response, early.value.handled)
  {
    RecordedAdds(e, request.actor, r.steps, [(0, PlanStep)]);
    hide Recorded, Routed, Screened, TrimSpace, Starts, Early;
  }

  lemma Entering(m: Monitor, recorded: Monitor, entered: Monitor)
    requires Begun(m, recorded) && MaybeCancelled(recorded.(entered := true), entered)
    ensures entered.entered && entered.nextCall == 0 && (m.cancelled ==> entered.cancelled)
  {
  }

  lemma CarriedTallied(e: Setup, w: World, id: string, request: Request, m: Monitor, recorded: Monitor, entered: Monitor,
                       n: nat, stopped: bool, response: Response, after: Monitor, pending: seq<Confirmation>,
                       pending': seq<Confirmation>)
    requires Eligible(e, request) && (e.durable ==> Starts(w, id) && !w.unreadable(AtStart))
        && Early(e, w, request).None?
    requires Begun(m, recorded) && MaybeCancelled(recorded.(entered := true), entered)
    requires recorded.steps == Recorded(e.durable, request.actor, EarlySteps(e, w, request))
    requires var offset := Routed(e, w, request).offset;
             Performed(e, w, request.actor, w.planned.plan, offset, n, stopped, response, entered, after, pending, pending')
    ensures after.started == m.started && !after.closed && after.completions == 0
    ensures Tallied(e, w, request, Carried(n, stopped), after) && pending' == pending + RunAwaiting(e, w, Carried(n, stopped))
    ensures var final := ExecutionTermination(response); Took(e, w, id, request, Carried(n, stopped), final, true)
    ensures e.durable && m.cancelled ==> after.tools == after.answers == 0
  {
    var offset := Routed(e, w, request).offset;
    RecordedAdds(e, request.actor, EarlySteps(e, w, request), StepsTaken(e, w, w.planned.plan, offset, n, stopped));
    hide Recorded, EarlySteps, StepsTaken, ToolsRun, TrimSpace, Starts, Early, Passed, Judged, Executed, AsksAnswerer,
      Awaiting, ExecutionTermination;
  }

  /** The log of a run that has begun and done nothing yet. */
  predicate Fresh(m: Monitor) {
    && m.mode.None? && !m.entered && !m.closed && m.nextCall == 0
    && m.tools == 0 && m.answers == 0 && m.steps == [] && m.completions == 0
  }

  /** The log agrees with the course. */
  predicate Tallied(e: Setup, w: World, request: Request, c: Course, m: Monitor) {
    && CarriedFits(w, c)
    && m.tools == RunTools(e, w, c) && m.answers == RunAnswers(e, w, c)
    && m.steps == Recorded(e.durable, request.actor, RunSteps(e, w, request, c))
    && m.entered == c.Carried?
  }

  /** completeRun: a failed write is ignored. */
  method Finish(store: SQLRunStore, started: bool, response: Response, fate: Fate)
    requires store.Valid() && store.M().completions == 0
    requires started ==> store.M().started && store.row.Some?
    modifies store`row, store`log
    ensures store.Valid()
    ensures !started ==> store.log == old(store.log) && store.row == old(store.row)
    ensures started ==>
      && store.row.Some?
      && MaybeCancelled(old(store.M()).(completions := 1, closed := store.M().closed), store.M())
      && (store.M().closed <==> fate != Undone && (store.M().cancelled || Legal(response.status)))
      && (store.M().closed ==> Completed(store.row.value, store.M().cancelled, response))
  {
    hide Fold, Counted;
    if started {
      store.Interfere();
      var ok, written := store.CompleteRun(response.status, response.reason, fate);
    }
  }

  /** What the row says once the completion is written. */
  predicate Completed(row: Row, cancelled: bool, response: Response) {
    && row.completed
    && if cancelled then row.status == Canceled && row.reason == Some(ByCancel)
       else row.status == response.status && row.reason == Some(response.reason)
  }

  /** A whole run under a fresh id, with a canceller at every step. It completes exactly once if it started; once the
      completion is written, the row is canceled if a cancel was accepted and else says what the response says. */
  method Run(store: SQLRunStore, e: Setup, w: World, id: string, request: Request)
    returns (response: Response, handled: bool, saved: bool, ghost course: Course)
    requires store.row.None? && store.log == []
    modifies store
    ensures store.Valid()
    ensures Took(e, w, id, request, course, response, handled) && Tallied(e, w, request, course, store.M())
    ensures store.M().started <==> e.durable && !course.Unfit? && !course.Unstarted?
    ensures store.M().completions == if store.M().started then 1 else 0
    ensures store.M().started ==>
      (store.M().closed <==> w.completion != Undone && (store.M().cancelled || Legal(response.status)))
    ensures store.M().closed ==> store.row.Some? && Completed(store.row.value, store.M().cancelled, response)
    ensures course.Unstarted? ==> store.row == LostRow(w, id)
    ensures store.row.Some? && !store.M().closed ==> store.row.value.status == Running && !store.row.value.completed
    ensures store.pending == old(store.pending) + RunAwaiting(e, w, course) && saved == RunSaves(e, w, course)
    ensures (course.Carried? && course.stopped) || (course.Halted? && !w.unreadable(AtStart)) ==> store.M().cancelled
    ensures store.M().cancelled <==> exists k :: 0 <= k < |store.log| && store.log[k].CancelAccepted?
    ensures CallsFrom(store.log, 0) == RunTools(e, w, course) + RunAnswers(e, w, course)
  {
    assert store.M() == QUIET;
    ghost var pending := store.pending;
    hide Fold, Counted, Recorded, RunSteps, RunTools, RunAnswers, RunAwaiting, RunSaves, TrimSpace, Completed, Early,
      Passed, Executed;
    NothingAwaited(e, w, pending);
    CancelSeen(store.log);
    CallsCounted(store.log);
    if !e.hasPlanner || !request.guildMention || request.guild == "" || request.scope == "none" {
      return Response(Unset, NoReason), false, false, Unfit;
    }
    RecordedAdds(e, request.actor, [], []);
    var lost, end := Begin(store, e, w, id);
    CancelSeen(store.log);
    CallsCounted(store.log);
    if lost { return Response(Unset, NoReason), true, false, Unstarted; }
    saved, course := false, Halted;
    if end.None? {
      var ending;
      ending, saved, course := Drive(store, e, w, id, request);
      end := Some(ending);
    }
    response, handled := end.value.response, end.value.handled;
    Finish(store, e.durable, response, w.completion);
    CancelSeen(store.log);
    CallsCounted(store.log);
  }

  lemma NothingAwaited(e: Setup, w: World, pending: seq<Confirmation>)
    ensures forall c: Course | c.Unfit? || c.Unstarted? || c.Halted? :: pending + RunAwaiting(e, w, c) == pending
  {
  }

  /** A run asks for a status that the table does not know exactly when its answerer, which was asked, gave that status:
      answerers that leave the status open, as those of the repository do, complete every run. */
  lemma LegalUnlessAnswered(e: Setup, w: World, id: string, request: Request, c: Course, response: Response, handled: bool)
    requires Took(e, w, id, request, c, response, handled) && (c.Halted? || c.Ended? || c.Carried?)
    ensures CarriedFits(w, c)
    ensures !Legal(response.status) <==>
      RunAnswers(e, w, c) == 1 && w.answer.Some? && w.answer.value.status.OtherStatus?
  {
    hide Judged, TrimSpace, SkipsAnswer, FallsThrough, Fetches, CheckCapability;
  }

  /** An arbitrary answerer may answer with such a status: then the completion is refused, and the run, answered though
      it is, stays open. */
  lemma UnknownStatusNeverCompletes(id: string) returns (e: Setup, w: World, request: Request, response: Response)
    requires TrimSpace(id) != ""
    ensures e.durable && w.completion == Done && Took(e, w, id, request, Carried(0, false), response, true)
    ensures !Legal(response.status)
    ensures forall row :: Cancellable(row) ==> CompletedRow(row, response.status, response.reason) == row
  {
    e := Setup(map[], true, true, false, true, false, "", Limits(0, 0, 0));
    var odd := Response(OtherStatus("odd"), NoReason);
    var plan := Plan(false, [], "", false);
    w := World(Done, stage => false, Some(Enabled), Allowed, Allowed, Planned(plan),
               k => Allowed, k => false, Done, Some(odd), (step, attempt) => Done, Done);
    request := Request(true, "guild", "", "", false, true);
    response := Response(OtherStatus("odd"), ByCompletion);
    assert TrimSpace("") == "";
  }
}
