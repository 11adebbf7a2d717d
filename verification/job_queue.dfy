/** The jobs table and the statements of internal/jobs/queue.go that change it. */
module JobQueue {
  import opened Outcome

  /** Ids stand for their place in the database's collation order; times are seconds. */
  type JobID = nat

  datatype Status = Queued | Running | Succeeded | Failed | Cancelled

  datatype Job = Job(
    kind: string, payload: string, status: Status, attempts: int, maxAttempts: int, runAfter: int,
    lockedBy: Option<string>, lockedAt: Option<int>, lastError: Option<string>)

  /** A job as the caller hands it over; missing parts get their defaults. */
  datatype Request = Request(
    kind: string, payload: string, status: Option<Status>, attempts: int, maxAttempts: int, runAfter: Option<int>,
    lockedBy: string, lockedAt: Option<int>, lastError: string)

  type Rows = map<JobID, Job>

  function Defaulted(req: Request, now: int): Job {
    Job(req.kind, req.payload,
        if req.status.None? then Queued else req.status.value,
        req.attempts,
        if req.maxAttempts <= 0 then 3 else req.maxAttempts,
        if req.runAfter.None? then now else req.runAfter.value,
        if req.lockedBy == "" then None else Some(req.lockedBy),
        req.lockedAt,
        if req.lastError == "" then None else Some(req.lastError))
  }

  predicate Ready(job: Job, now: int) {
    job.status == Queued && job.runAfter <= now && job.attempts < job.maxAttempts
  }

  function Claimed(job: Job, worker: string, now: int): Job {
    job.(status := Running, attempts := job.attempts + 1, lockedBy := Some(worker), lockedAt := Some(now))
  }

  function Completed(job: Job): Job {
    job.(status := Succeeded, lockedBy := None, lockedAt := None, lastError := None)
  }

  /** Seconds a job waits after its n-th attempt failed. */
  function Backoff(attempts: int): int {
    if 5 * attempts < 300 then 5 * attempts else 300
  }

  function Retried(job: Job, cause: string, now: int): Job {
    var again := job.attempts < job.maxAttempts;
    job.(status := if again then Queued else Failed,
         runAfter := if again then now + Backoff(job.attempts) else job.runAfter,
         lastError := Some(cause), lockedBy := None, lockedAt := None)
  }

  predicate Cancellable(job: Job) {
    job.status == Queued || job.status == Failed
  }

  function CancelledJob(job: Job): Job {
    job.(status := Cancelled, lockedBy := None, lockedAt := None)
  }

  /** "order by run_after asc, id asc" */
  predicate Before(rows: Rows, a: JobID, b: JobID)
    requires a in rows && b in rows
  {
    rows[a].runAfter < rows[b].runAfter || (rows[a].runAfter == rows[b].runAfter && a <= b)
  }

  /** The rows a claim may take: ready ones that no other transaction has locked. */
  function Open(rows: Rows, now: int, skipped: set<JobID>): (open: set<JobID>)
    ensures open <= rows.Keys
  {
    set id | id in rows && id !in skipped && Ready(rows[id], now)
  }

  /** A claim takes the first rows of the open ones, as many as the limit allows. */
  predicate FirstOpen(rows: Rows, open: set<JobID>, limit: int, picked: set<JobID>)
    requires open <= rows.Keys
  {
    && picked <= open
    && |picked| == (if limit < 0 then 0 else if limit < |open| then limit else |open|)
    && forall a, b :: a in picked && b in open && b !in picked ==> Before(rows, a, b)
  }

  function ClaimedRows(rows: Rows, picked: set<JobID>, worker: string, now: int): Rows {
    map id | id in rows :: if id in picked then Claimed(rows[id], worker, now) else rows[id]
  }

  /** Every non-empty set of rows has a first one. */
  lemma {:induction false} HasFirst(rows: Rows, ids: set<JobID>) returns (first: JobID)
    requires ids != {} && ids <= rows.Keys
    ensures first in ids && forall other :: other in ids ==> Before(rows, first, other)
    decreases |ids|
  {
    first :| first in ids;
    if ids != {first} {
      var rest := ids - {first};
      var next := HasFirst(rows, rest);
      assert forall other :: other in ids ==> other == first || other in rest;
      if !Before(rows, first, next) { first := next; }
    }
  }

  /** What the database does for "order by ... limit". */
  method PickFirst(rows: Rows, open: set<JobID>, limit: int) returns (picked: set<JobID>)
    requires open <= rows.Keys
    ensures FirstOpen(rows, open, limit, picked)
  {
    picked := {};
    var rest := open;
    while |picked| < limit && rest != {}
      invariant picked !! rest && picked + rest == open
      invariant |picked| <= (if limit < 0 then 0 else limit)
      invariant forall a, b :: a in picked && b in rest ==> Before(rows, a, b)
      decreases rest
    {
      ghost var first := HasFirst(rows, rest);
      var next :| next in rest && forall other :: other in rest ==> Before(rows, next, other);
      picked, rest := picked + {next}, rest - {next};
    }
    assert |open| == |picked| + |rest|;
  }

  /** A write may fail, or take effect and be reported as failed. */
  class SQLQueue {
    var rows: Rows

    constructor ()
      ensures rows == map[]
    {
      rows := map[];
    }

    /** The insert overwrites a row that already has the id. */
    method Enqueue(id: Option<JobID>, generated: Option<JobID>, req: Request, now: int, fate: Fate) returns (ok: bool)
      modifies this
      ensures ok <==> (id.Some? || generated.Some?) && fate == Done
      ensures if (id.None? && generated.None?) || fate == Undone then rows == old(rows)
              else rows == old(rows)[(if id.Some? then id.value else generated.value) := Defaulted(req, now)]
    {
      if id.None? && generated.None? { return false; }
      var key := if id.Some? then id.value else generated.value;
      if fate != Undone { rows := rows[key := Defaulted(req, now)]; }
      ok := fate == Done;
    }

    /** The rows locked by other transactions are skipped. A fault after the update loses the answer, not the claim. */
    method Claim(worker: string, limit: int, now: int, skipped: set<JobID>, refused: bool, lost: bool)
      returns (picked: Option<set<JobID>>)
      modifies this
      ensures refused ==> picked == None && rows == old(rows)
      ensures !refused ==> exists ids: set<JobID> ::
        && FirstOpen(old(rows), Open(old(rows), now, skipped), limit, ids)
        && rows == ClaimedRows(old(rows), ids, worker, now)
        && picked == if lost then None else Some(ids)
    {
      if refused { return None; }
      var ids := PickFirst(rows, Open(rows, now, skipped), limit);
      rows := ClaimedRows(rows, ids, worker, now);
      picked := if lost then None else Some(ids);
    }

    method Complete(id: JobID, fate: Fate) returns (ok: bool)
      modifies this
      ensures ok <==> fate == Done
      ensures rows == if fate != Undone && id in old(rows) then old(rows)[id := Completed(old(rows)[id])] else old(rows)
    {
      if fate != Undone && id in rows {
        rows := rows[id := rows[id].(status := Succeeded, lockedBy := None, lockedAt := None, lastError := None)];
      }
      ok := fate == Done;
    }

    method Fail(id: JobID, cause: string, now: int, fate: Fate) returns (ok: bool)
      modifies this
      ensures ok <==> fate == Done
      ensures rows ==
        if fate != Undone && id in old(rows) then old(rows)[id := Retried(old(rows)[id], cause, now)] else old(rows)
    {
      if fate != Undone && id in rows {
        var job := rows[id];
        if job.attempts < job.maxAttempts {
          job := job.(status := Queued, runAfter := now + Backoff(job.attempts));
        } else {
          job := job.(status := Failed);
        }
        rows := rows[id := job.(lastError := Some(cause), lockedBy := None, lockedAt := None)];
      }
      ok := fate == Done;
    }

    /** A cancel that takes effect may still be reported as an error, where the rows cannot be counted. */
    method Cancel(id: JobID, fate: Fate) returns (ok: bool)
      modifies this
      ensures ok <==> fate == Done && id in old(rows) && Cancellable(old(rows)[id])
      ensures rows == if fate != Undone && id in old(rows) && Cancellable(old(rows)[id])
                      then old(rows)[id := CancelledJob(old(rows)[id])] else old(rows)
    {
      var takes := id in rows && (rows[id].status == Queued || rows[id].status == Failed);
      if takes && fate != Undone {
        rows := rows[id := rows[id].(status := Cancelled, lockedBy := None, lockedAt := None)];
      }
      ok := takes && fate == Done;
    }

    /** What a worker does with a claimed job: run the handler if one is registered, then write one outcome. */
    method ProcessJob(id: JobID, handled: bool, outcome: Option<string>, now: int, fate: Fate)
      modifies this
      ensures rows ==
        if fate == Undone || id !in old(rows) then old(rows)
        else if !handled then old(rows)[id := Retried(old(rows)[id], "no handler registered", now)]
        else if outcome.Some? then old(rows)[id := Retried(old(rows)[id], outcome.value, now)]
        else old(rows)[id := Completed(old(rows)[id])]
    {
      if !handled {
        var _ := Fail(id, "no handler registered", now, fate);
        return;
      }
      if outcome.Some? {
        var _ := Fail(id, outcome.value, now, fate);
        return;
      }
      var _ := Complete(id, fate);
    }
  }
}
