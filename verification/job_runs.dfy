/** Every interleaving of several worker pools over one jobs table, with cancels, crashes and failed writes. */
module JobRuns {
  import opened JobQueue
  import opened Outcome

  /** A claimed job in the hands of a pool; started once its handler runs. */
  datatype Token = Token(job: JobID, pool: string, attempt: int, started: bool)

  /** The time and attempt count of a job's last recorded failure. */
  datatype Miss = Miss(at: int, attempts: int)

  /** starts counts handler starts, enqueued the attempts granted, claims the attempts handed out. */
  datatype State = State(
    rows: Rows, tokens: set<Token>, clock: int,
    starts: map<JobID, nat>, failures: map<JobID, Miss>, granted: int, claims: int)

  datatype Step =
    | Tick(now: int)
    | Enqueue(id: JobID, req: Request)
    | Claim(pool: string, limit: int, skipped: set<JobID>, picked: set<JobID>, lost: bool)
    | Start(token: Token)
    | Complete(token: Token, written: bool, heard: bool)
    | Fail(token: Token, cause: string, written: bool, heard: bool)
    | Drop(token: Token)
    | Cancel(id: JobID)

  function Starts(s: State, id: JobID): nat {
    if id in s.starts then s.starts[id] else 0
  }

  function TokensFor(s: State, picked: set<JobID>, pool: string): set<Token>
  {
    set id | id in picked && id in s.rows :: Token(id, pool, s.rows[id].attempts + 1, false)
  }

  /** One step: a row is written and a token handed on. A worker gives up its token after its one write, whether
      or not the write took effect and whatever it was told. Jobs are enqueued as the schedule tool does, under
      fresh ids, queued and with no attempts used (internal/agent/job_tools.go:88-95). */
  ghost predicate Next(s: State, step: Step, s': State) {
    match step
    case Tick(now) =>
      s.clock <= now && s' == s.(clock := now)
    case Enqueue(id, req) =>
      && id !in s.rows && (req.status == None || req.status == Some(Queued)) && req.attempts == 0
      && req.lockedBy == "" && req.lockedAt == None
      && var job := Defaulted(req, s.clock);
         s' == s.(rows := s.rows[id := job], granted := s.granted + job.maxAttempts)
    case Claim(pool, limit, skipped, picked, lost) =>
      && FirstOpen(s.rows, Open(s.rows, s.clock, skipped), limit, picked)
      && s' == s.(rows := ClaimedRows(s.rows, picked, pool, s.clock),
                  tokens := s.tokens + (if lost then {} else TokensFor(s, picked, pool)),
                  claims := s.claims + |picked|)
    case Start(token) =>
      && token in s.tokens && !token.started
      && s' == s.(tokens := s.tokens - {token} + {token.(started := true)},
                  starts := s.starts[token.job := Starts(s, token.job) + 1])
    case Complete(token, written, _) =>
      && token in s.tokens && token.started
      && s' == s.(tokens := s.tokens - {token},
                  rows := if !written || token.job !in s.rows then s.rows
                          else s.rows[token.job := Completed(s.rows[token.job])])
    case Fail(token, cause, written, _) =>
      && token in s.tokens
      && if written && token.job in s.rows then
           s' == s.(tokens := s.tokens - {token},
                    rows := s.rows[token.job := Retried(s.rows[token.job], cause, s.clock)],
                    failures := s.failures[token.job := Miss(s.clock, s.rows[token.job].attempts)])
         else s' == s.(tokens := s.tokens - {token})
    case Drop(token) =>
      token in s.tokens && s' == s.(tokens := s.tokens - {token})
    case Cancel(id) =>
      s' == if id in s.rows && Cancellable(s.rows[id]) then s.(rows := s.rows[id := CancelledJob(s.rows[id])]) else s
  }

  ghost predicate Initial(s: State) {
    s.rows == map[] && s.tokens == {} && s.starts == map[] && s.failures == map[] && s.granted == 0 && s.claims == 0
  }

  ghost predicate Run(states: seq<State>, steps: seq<Step>) {
    && |states| == |steps| + 1 && Initial(states[0])
    && forall k :: 0 <= k < |steps| ==> Next(states[k], steps[k], states[k + 1])
  }

  // ---- The invariant ----

  predicate SoundRow(job: Job) {
    && 0 <= job.attempts <= job.maxAttempts && 0 < job.maxAttempts
    && (job.status == Queued ==> job.attempts < job.maxAttempts)
    && (job.status == Failed ==> job.attempts == job.maxAttempts)
    && (job.status == Running <==> job.lockedBy.Some?) && (job.status == Running <==> job.lockedAt.Some?)
    && (job.status == Running ==> 0 < job.attempts)
  }

  /** What Complete and Fail do not test: the row of a token is running, locked by the token's pool, on its attempt. */
  predicate Backed(s: State, t: Token) {
    && t.job in s.rows
    && s.rows[t.job].status == Running && s.rows[t.job].lockedBy == Some(t.pool) && s.rows[t.job].attempts == t.attempt
    && (!t.started ==> Starts(s, t.job) < t.attempt)
  }

  predicate Rested(job: Job, f: Miss) {
    job.status == Queued ==> job.attempts == f.attempts && f.at + Backoff(f.attempts) <= job.runAfter
  }

  ghost predicate Inv(s: State) {
    && (forall id :: id in s.rows ==> SoundRow(s.rows[id]) && Starts(s, id) <= s.rows[id].attempts)
    && (forall t :: t in s.tokens ==> Backed(s, t))
    && (forall t, u :: t in s.tokens && u in s.tokens && t.job == u.job ==> t == u)
    && (forall id :: id in s.failures ==> id in s.rows && Rested(s.rows[id], s.failures[id]))
    && s.starts.Keys <= s.rows.Keys
    && Budget(s.rows) + s.claims == s.granted
  }

  // ---- Attempts left ----

  /** The attempts still to be handed out, over all rows. */
  ghost function Budget(rows: Rows): int
    decreases |rows|
  {
    if rows == map[] then 0
    else
      var id :| id in rows;
      assert |rows - {id}| < |rows| by { assert (rows - {id}).Keys < rows.Keys; SmallerKeys(rows - {id}, rows); }
      rows[id].maxAttempts - rows[id].attempts + Budget(rows - {id})
  }

  lemma SmallerKeys(a: Rows, b: Rows)
    requires a.Keys < b.Keys
    ensures |a| < |b|
  {
    assert |a| == |a.Keys| && |b| == |b.Keys|;
    assert b.Keys == a.Keys + (b.Keys - a.Keys);
  }

  lemma {:induction false} BudgetSplits(rows: Rows, id: JobID)
    requires id in rows
    ensures Budget(rows) == rows[id].maxAttempts - rows[id].attempts + Budget(rows - {id})
    decreases |rows|
  {
    var first :| first in rows
                 && Budget(rows) == rows[first].maxAttempts - rows[first].attempts + Budget(rows - {first});
    if first != id {
      SmallerKeys(rows - {first}, rows);
      SmallerKeys(rows - {id}, rows);
      BudgetSplits(rows - {first}, id);
      BudgetSplits(rows - {id}, first);
      assert rows - {first} - {id} == rows - {id} - {first};
    }
  }

  lemma BudgetUpdate(rows: Rows, id: JobID, job: Job)
    ensures var held := if id in rows then rows[id].maxAttempts - rows[id].attempts else 0;
            Budget(rows[id := job]) == Budget(rows) + (job.maxAttempts - job.attempts) - held
  {
    var rows' := rows[id := job];
    BudgetSplits(rows', id);
    if id in rows {
      BudgetSplits(rows, id);
      assert rows' - {id} == rows - {id};
    } else {
      assert rows' - {id} == rows;
    }
  }

  /** Every claimed row costs one attempt: the measure drops by the number of rows claimed. */
  lemma {:induction false} ClaimSpends(rows: Rows, picked: set<JobID>, pool: string, now: int)
    requires picked <= rows.Keys
    ensures Budget(ClaimedRows(rows, picked, pool, now)) == Budget(rows) - |picked|
    decreases |picked|
  {
    if picked == {} {
      assert ClaimedRows(rows, picked, pool, now) == rows;
    } else {
      var id :| id in picked;
      var rest := picked - {id};
      ClaimSpends(rows, rest, pool, now);
      var before := ClaimedRows(rows, rest, pool, now);
      assert ClaimedRows(rows, picked, pool, now) == before[id := Claimed(rows[id], pool, now)];
      BudgetUpdate(before, id, Claimed(rows[id], pool, now));
    }
  }

  // ---- Every step keeps the invariant ----

  /** The tokens of a claim are backed by the rows it claimed, which no older token holds. */
  lemma ClaimBacks(s: State, step: Step, s': State)
    requires Inv(s) && step.Claim? && Next(s, step, s')
    ensures forall t :: t in s'.tokens ==> Backed(s', t)
    ensures forall t, u :: t in s'.tokens && u in s'.tokens && t.job == u.job ==> t == u
  {
    hide SoundRow, Rested, Budget;
    forall t | t in s'.tokens
      ensures Backed(s', t)
    {
      if t in s.tokens { assert Backed(s, t); }
    }
    forall t, u | t in s'.tokens && u in s'.tokens && t.job == u.job
      ensures t == u
    {
      if t in s.tokens { assert Backed(s, t); }
      if u in s.tokens { assert Backed(s, u); }
    }
  }

  lemma ClaimKeeps(s: State, step: Step, s': State)
    requires Inv(s) && step.Claim? && Next(s, step, s')
    ensures Inv(s')
  {
    hide Backed, Budget;
    ClaimSpends(s.rows, step.picked, step.pool, s.clock);
    ClaimBacks(s, step, s');
  }

  lemma StartKeeps(s: State, step: Step, s': State)
    requires Inv(s) && step.Start? && Next(s, step, s')
    ensures Inv(s')
  {
    assert Backed(s, step.token);
    forall t | t in s'.tokens
      ensures Backed(s', t)
    {
      if t in s.tokens { assert Backed(s, t); }
    }
  }

  /** A worker's one write finds the row its token stands for, and no other token stands for it. */
  lemma OutcomeBacks(s: State, step: Step, s': State)
    requires Inv(s) && (step.Complete? || step.Fail?) && Next(s, step, s')
    ensures Backed(s, step.token)
    ensures forall t :: t in s'.tokens ==> Backed(s', t)
  {
    hide SoundRow, Rested, Budget;
    assert Backed(s, step.token);
    forall t | t in s'.tokens
      ensures Backed(s', t)
    {
      assert Backed(s, t);
    }
  }

  lemma OutcomeRows(s: State, step: Step, s': State)
    requires Inv(s) && (step.Complete? || step.Fail?) && Next(s, step, s')
    ensures forall id :: id in s'.rows ==>
        id in s.rows && SoundRow(s'.rows[id]) && Starts(s', id) <= s'.rows[id].attempts
    ensures s'.rows.Keys == s.rows.Keys
  {
    hide Budget, Rested;
    assert Backed(s, step.token);
  }

  lemma OutcomeRests(s: State, step: Step, s': State)
    requires Inv(s) && (step.Complete? || step.Fail?) && Next(s, step, s')
    ensures forall id :: id in s'.failures ==> id in s'.rows && Rested(s'.rows[id], s'.failures[id])
  {
    hide Budget, SoundRow;
    assert Backed(s, step.token);
  }

  lemma OutcomeKeeps(s: State, step: Step, s': State)
    requires Inv(s) && (step.Complete? || step.Fail?) && Next(s, step, s')
    ensures Inv(s')
  {
    OutcomeBacks(s, step, s');
    OutcomeRows(s, step, s');
    OutcomeRests(s, step, s');
    OutcomeSpendsNothing(s, step, s');
    hide Budget, Backed, SoundRow, Rested;
  }

  lemma OutcomeSpendsNothing(s: State, step: Step, s': State)
    requires (step.Complete? || step.Fail?) && Backed(s, step.token) && Next(s, step, s')
    ensures Budget(s'.rows) == Budget(s.rows)
  {
    hide Budget;
    var id := step.token.job;
    BudgetUpdate(s.rows, id, s'.rows[id]);
    assert s'.rows == s.rows[id := s'.rows[id]];
  }

  lemma EnqueueKeeps(s: State, step: Step, s': State)
    requires Inv(s) && step.Enqueue? && Next(s, step, s')
    ensures Inv(s')
  {
    BudgetUpdate(s.rows, step.id, s'.rows[step.id]);
    forall t | t in s'.tokens
      ensures Backed(s', t)
    {
      assert Backed(s, t);
    }
  }

  lemma CancelKeeps(s: State, step: Step, s': State)
    requires Inv(s) && step.Cancel? && Next(s, step, s')
    ensures Inv(s')
  {
    if s' != s {
      BudgetUpdate(s.rows, step.id, s'.rows[step.id]);
      forall t | t in s'.tokens
        ensures Backed(s', t)
      {
        assert Backed(s, t);
      }
    }
  }

  lemma NextKeeps(s: State, step: Step, s': State)
    requires Inv(s) && Next(s, step, s')
    ensures Inv(s')
  {
    match step
    case Tick(_) =>
      forall t | t in s'.tokens ensures Backed(s', t) { assert Backed(s, t); }
    case Enqueue(_, _) => EnqueueKeeps(s, step, s');
    case Claim(_, _, _, _, _) => ClaimKeeps(s, step, s');
    case Start(_) => StartKeeps(s, step, s');
    case Complete(_, _, _) => OutcomeKeeps(s, step, s');
    case Fail(_, _, _, _) => OutcomeKeeps(s, step, s');
    case Drop(_) =>
      forall t | t in s'.tokens ensures Backed(s', t) { assert Backed(s, t); }
    case Cancel(_) => CancelKeeps(s, step, s');
  }

  lemma {:induction false} RunInv(states: seq<State>, steps: seq<Step>, k: nat)
    requires Run(states, steps) && k < |states|
    ensures Inv(states[k])
    decreases k
  {
    if k > 0 {
      RunInv(states, steps, k - 1);
      NextKeeps(states[k - 1], steps[k - 1], states[k]);
    }
  }

  // ---- Safety over every run ----

  /** Handler executions of one job never overlap, and each runs on a row that is running and locked by its pool. */
  lemma NoOverlap(states: seq<State>, steps: seq<Step>, k: nat, t: Token, u: Token)
    requires Run(states, steps) && k < |states|
    requires t in states[k].tokens && u in states[k].tokens && t.job == u.job
    ensures t == u
    ensures t.job in states[k].rows
    ensures states[k].rows[t.job].status == Running && states[k].rows[t.job].lockedBy == Some(t.pool)
    ensures states[k].rows[t.job].attempts == t.attempt
  {
    RunInv(states, steps, k);
    assert Backed(states[k], t);
  }

  predicate Final(job: Job) {
    job.status == Succeeded || job.status == Cancelled
  }

  /** A running row nobody holds: its worker crashed, or could not write the outcome. */
  ghost predicate Orphan(s: State, id: JobID) {
    id in s.rows && s.rows[id].status == Running && forall t :: t in s.tokens ==> t.job != id
  }

  /** Succeeded and cancelled jobs never change again, although Complete and Fail look only at the id; and no
      orphan is ever picked up again. */
  lemma {:induction false} AbsorbingRows(states: seq<State>, steps: seq<Step>, i: nat, j: nat, id: JobID)
    requires Run(states, steps) && i <= j < |states|
    requires id in states[i].rows && (Final(states[i].rows[id]) || Orphan(states[i], id))
    ensures id in states[j].rows && states[j].rows[id] == states[i].rows[id]
    ensures Orphan(states[i], id) ==> Orphan(states[j], id)
    decreases j
  {
    hide Next, Inv, Orphan;
    if i < j {
      AbsorbingRows(states, steps, i, j - 1, id);
      RunInv(states, steps, j - 1);
      StepLeaves(states[j - 1], steps[j - 1], states[j], id);
    }
  }

  lemma StepLeaves(s: State, step: Step, s': State, id: JobID)
    requires Inv(s) && Next(s, step, s')
    requires id in s.rows && (Final(s.rows[id]) || Orphan(s, id))
    ensures id in s'.rows && s'.rows[id] == s.rows[id]
    ensures Orphan(s, id) ==> Orphan(s', id)
  {
    if step.Start? || step.Complete? || step.Fail? || step.Drop? {
      assert Backed(s, step.token);
    }
  }

  /** Attempts never exceed the maximum, a queued job has one left, and a handler starts at most that often. */
  lemma RetryBound(states: seq<State>, steps: seq<Step>, k: nat, id: JobID)
    requires Run(states, steps) && k < |states| && id in states[k].rows
    ensures var job := states[k].rows[id];
            && 0 <= job.attempts <= job.maxAttempts
            && (job.status == Queued ==> job.attempts < job.maxAttempts)
            && (job.status == Failed ==> job.attempts == job.maxAttempts)
            && Starts(states[k], id) <= job.attempts
  {
    RunInv(states, steps, k);
  }

  /** Attempts are conserved: those left plus those claimed are those granted, so every claim of a row strictly
      lowers what is left, and nothing but an enqueue raises it. */
  lemma AttemptsConserved(states: seq<State>, steps: seq<Step>, k: nat)
    requires Run(states, steps) && k < |states|
    ensures Budget(states[k].rows) + states[k].claims == states[k].granted
    ensures k < |steps| && steps[k].Claim? ==> Budget(states[k + 1].rows) == Budget(states[k].rows) - |steps[k].picked|
    ensures k < |steps| && !steps[k].Claim? && !steps[k].Enqueue? ==>
        Budget(states[k + 1].rows) == Budget(states[k].rows)
  {
    RunInv(states, steps, k);
    if k < |steps| {
      assert Next(states[k], steps[k], states[k + 1]);
      RunInv(states, steps, k + 1);
    }
  }

  /** A failed attempt is not followed by a claim before min(300, 5 * attempts) seconds have passed. */
  lemma BackoffRespected(states: seq<State>, steps: seq<Step>, k: nat, id: JobID)
    requires Run(states, steps) && k < |steps|
    requires steps[k].Claim? && id in steps[k].picked && id in states[k].failures
    ensures id in states[k].rows
    ensures states[k].failures[id].attempts == states[k].rows[id].attempts
    ensures states[k].clock >= states[k].failures[id].at + Backoff(states[k].rows[id].attempts)
  {
    RunInv(states, steps, k);
    assert Next(states[k], steps[k], states[k + 1]);
  }

  /** Orphans are reachable: a job is enqueued and claimed, and its worker crashes. As nothing takes it up again, it stays
      running in every continuation of the run. */
  lemma CrashLeavesOrphan(id: JobID, req: Request, pool: string) returns (states: seq<State>, steps: seq<Step>)
    requires req.status == None && req.attempts == 0 && req.runAfter == None && req.lockedBy == "" && req.lockedAt == None
    ensures Run(states, steps) && |steps| == 3 && Orphan(states[3], id)
    ensures states[3].rows[id].lockedBy == Some(pool) && states[3].rows[id].attempts == 1
  {
    hide Budget;
    var s0 := State(map[], {}, 0, map[], map[], 0, 0);
    var job := Defaulted(req, 0);
    var s1 := s0.(rows := map[id := job], granted := job.maxAttempts);
    var token := Token(id, pool, 1, false);
    var claimed := Claimed(job, pool, 0);
    var s2 := s1.(rows := map[id := claimed], tokens := {token}, claims := 1);
    var s3 := s2.(tokens := {});
    var claim := Claim(pool, 1, {}, {id}, false);
    assert Open(s1.rows, 0, {}) == {id};
    assert ClaimedRows(s1.rows, {id}, pool, 0) == s2.rows;
    assert TokensFor(s1, {id}, pool) == {token};
    assert Next(s0, Enqueue(id, req), s1) && Next(s1, claim, s2);
    assert s2.tokens - {token} == {};
    states, steps := [s0, s1, s2, s3], [Enqueue(id, req), claim, Drop(token)];
  }
}
