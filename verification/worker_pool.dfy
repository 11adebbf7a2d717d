/** The worker pool of internal/jobs/worker.go: one poll loop, and goroutines that finish when they like. */
module WorkerPools {

  // ---- The protocol: poll loops and finishing goroutines, interleaved at will ----

  /** Where a poll loop is: between polls, holding the room it computed, or dispatching what it claimed. */
  datatype Phase = Idle | Asking(room: int) | Dispatching(left: nat)

  datatype Pool = Pool(active: int, loops: seq<Phase>)

  datatype Step = Measure(i: nat) | Claim(i: nat, jobs: nat) | Dispatch(i: nat) | Rest(i: nat) | Finish

  predicate Next(max: int, p: Pool, step: Step, p': Pool) {
    match step
    case Measure(i) =>
      i < |p.loops| && p.loops[i].Idle? && p' == p.(loops := p.loops[i := Asking(max - p.active)])
    case Claim(i, jobs) =>
      i < |p.loops| && p.loops[i].Asking? && jobs <= p.loops[i].room
        && p' == p.(loops := p.loops[i := Dispatching(jobs)])
    case Dispatch(i) =>
      && i < |p.loops| && p.loops[i].Dispatching? && 0 < p.loops[i].left
      && p' == Pool(p.active + 1, p.loops[i := Dispatching(p.loops[i].left - 1)])
    case Rest(i) =>
      && i < |p.loops| && (p.loops[i].Asking? || p.loops[i] == Dispatching(0))
      && p' == p.(loops := p.loops[i := Idle])
    case Finish =>
      0 < p.active && p' == p.(active := p.active - 1)
  }

  predicate AllIdle(loops: seq<Phase>) {
    forall i :: 0 <= i < |loops| ==> loops[i].Idle?
  }

  ghost predicate Run(max: int, n: nat, states: seq<Pool>, steps: seq<Step>) {
    && |states| == |steps| + 1
    && states[0].active == 0 && |states[0].loops| == n && AllIdle(states[0].loops)
    && forall k :: 0 <= k < |steps| ==> Next(max, states[k], steps[k], states[k + 1])
  }

  predicate Bounded(max: int, states: seq<Pool>) {
    forall k :: 0 <= k < |states| ==> 0 <= states[k].active <= max
  }

  /** What a single loop still means to dispatch fits beside what is running. */
  predicate Fits(max: int, p: Pool) {
    && 0 <= p.active <= max && |p.loops| <= 1
    && (|p.loops| == 1 ==>
          match p.loops[0]
          case Idle => true
          case Asking(room) => p.active + room <= max
          case Dispatching(left) => p.active + left <= max)
  }

  lemma {:induction false} OneLoopFits(max: int, n: nat, states: seq<Pool>, steps: seq<Step>, k: nat)
    requires 0 <= max && n <= 1 && Run(max, n, states, steps) && k < |states|
    ensures Fits(max, states[k])
    decreases k
  {
    if k > 0 {
      OneLoopFits(max, n, states, steps, k - 1);
      assert Next(max, states[k - 1], steps[k - 1], states[k]);
    }
  }

  /** Two loops that measure before either dispatches overrun the bound: both see the last free place. */
  lemma TwoLoopsOverrun(n: nat) returns (states: seq<Pool>, steps: seq<Step>)
    requires 2 <= n
    ensures Run(1, n, states, steps) && !Bounded(1, states)
  {
    var p0 := Pool(0, seq(n, _ => Idle));
    var p1 := Pool(0, p0.loops[0 := Asking(1)]);
    var p2 := Pool(0, p1.loops[1 := Asking(1)]);
    var p3 := Pool(0, p2.loops[0 := Dispatching(1)]);
    var p4 := Pool(0, p3.loops[1 := Dispatching(1)]);
    var p5 := Pool(1, p4.loops[0 := Dispatching(0)]);
    var p6 := Pool(2, p5.loops[1 := Dispatching(0)]);
    states := [p0, p1, p2, p3, p4, p5, p6];
    steps := [Measure(0), Measure(1), Claim(0, 1), Claim(1, 1), Dispatch(0), Dispatch(1)];
    assert states[6].active == 2;
  }

  /** The counter keeps its bound on every interleaving exactly when there is at most one poll loop. */
  lemma BoundNeedsOneLoop(n: nat)
    ensures n <= 1 <==> forall max: nat, states: seq<Pool>, steps: seq<Step> :: Run(max, n, states, steps) ==>
        Bounded(max, states)
  {
    if n <= 1 {
      forall max: nat, states: seq<Pool>, steps: seq<Step> | Run(max, n, states, steps)
        ensures Bounded(max, states)
      {
        forall k | 0 <= k < |states|
          ensures 0 <= states[k].active <= max
        {
          OneLoopFits(max, n, states, steps, k);
        }
      }
    } else {
      var states, steps := TwoLoopsOverrun(n);
    }
  }

  // ---- The pool object ----

  class WorkerPool {
    const maxWorkers: int
    var active: int
    var started: bool
    var loops: nat

    /** The goroutines dispatched and not yet finished, and the most there ever were. */
    ghost var live: int
    ghost var peak: int

    ghost predicate Valid()
      reads this
    {
      && 0 < maxWorkers
      && active == live && 0 <= active <= peak <= maxWorkers
      && loops <= 1 && (loops == 1 ==> started)
    }

    constructor (maxWorkers: int)
      ensures Valid() && peak == 0 && !started && loops == 0
      ensures this.maxWorkers == if maxWorkers <= 0 then 5 else maxWorkers
    {
      this.maxWorkers := if maxWorkers <= 0 then 5 else maxWorkers;
      active, started, loops, live, peak := 0, false, 0, 0, 0;
    }

    /** A second Start, even after a Stop, adds no poll loop: the cancel function is never cleared. */
    method Start()
      requires Valid()
      modifies this`started, this`loops
      ensures Valid() && started && loops == if old(started) then old(loops) else 1
    {
      if started { return; }
      started := true;
      loops := 1;
    }

    /** The poll loop ends; goroutines may still be running. */
    method Stop()
      requires Valid()
      modifies this`loops
      ensures Valid() && loops == 0
    {
      loops := 0;
    }

    /** Any number of goroutines finish, each lowering the counter once. */
    method Interfere()
      requires 0 <= live && active == live
      modifies this`active, this`live
      ensures 0 <= active == live <= old(live)
    {
      var finishing: bool := *;
      while finishing && active > 0
        invariant 0 <= active == live <= old(live)
        decreases active
      {
        active := active - 1;
        live := live - 1;
        finishing := *;
      }
    }

    /** The only code that dispatches. The room is computed before the claim and used after it; goroutines finish
        between any two steps, so the room can only have grown. Claim returns at most as many jobs as asked for. */
    method PollAndDispatch(ready: nat, claimFails: bool) returns (asked: int, dispatched: nat)
      requires Valid()
      modifies this`active, this`live, this`peak
      ensures Valid()
      ensures 0 <= asked <= maxWorkers
      ensures dispatched == if claimFails then 0 else if ready < asked then ready else asked
    {
      asked, dispatched := 0, 0;
      var available := maxWorkers - active;
      Interfere();
      if available <= 0 { return; }
      asked := available;
      Interfere();
      if claimFails { return; }
      var claimed := if ready < available then ready else available;
      while dispatched < claimed
        invariant dispatched <= claimed
        invariant 0 <= active == live && active <= peak <= maxWorkers
        invariant active + (claimed - dispatched) <= maxWorkers
      {
        Interfere();
        active := active + 1;
        live := live + 1;
        peak := if active > peak then active else peak;
        dispatched := dispatched + 1;
      }
    }
  }
}
