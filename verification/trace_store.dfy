/** The in-memory trace store of internal/agent/trace.go: runs by key, the last run of each scope, and the order of
    arrival. Scopes and run keys are tuples where the original joins strings. */
module TraceStores {
  import opened Outcome
  import opened Text

  /** Guild, channel and actor. */
  type Scope = (string, string, string)

  /** A scope and a run id within it. */
  type RunKey = (Scope, string)

  datatype Event = Event(runID: string, status: string, details: string, createdAt: int)

  datatype TraceRun = TraceRun(runID: string, scope: Scope, surface: string, status: string, updatedAt: int,
                               events: seq<Event>)

  /** An event as it arrived, with the surface of its request. */
  datatype Arrival = Arrival(key: RunKey, surface: string, event: Event)

  function ScopeOf(guild: string, channel: string, actor: string): Option<Scope> {
    var s := (TrimSpace(guild), TrimSpace(channel), TrimSpace(actor));
    if s.0 == "" || s.1 == "" || s.2 == "" then None else Some(s)
  }

  // ---- What a store should hold, as a function of everything that arrived ----

  function LastOf<T>(s: seq<T>, n: nat): seq<T> {
    if |s| <= n then s else s[|s| - n..]
  }

  /** The keys under which a run was begun, in order. A run is begun when an event arrives whose run is not among the
      max last begun. */
  function Begun(h: seq<Arrival>, max: nat): seq<RunKey> {
    if h == [] then []
    else
      var before := Begun(h[..|h| - 1], max);
      if h[|h| - 1].key in LastOf(before, max) then before else before + [h[|h| - 1].key]
  }

  function Live(h: seq<Arrival>, max: nat): seq<RunKey> {
    LastOf(Begun(h, max), max)
  }

  /** A run as its first event finds it, and as an event leaves it. */
  function BlankRun(a: Arrival): TraceRun {
    TraceRun(a.event.runID, a.key.0, a.surface, "", 0, [])
  }

  function Extended(run: TraceRun, e: Event): TraceRun {
    run.(status := e.status, updatedAt := e.createdAt, events := run.events + [e])
  }

  /** The run of a key: what arrived for it since it was last begun. */
  function RunOf(h: seq<Arrival>, max: nat, key: RunKey): Option<TraceRun> {
    if h == [] then None
    else
      var before, a := h[..|h| - 1], h[|h| - 1];
      var run := RunOf(before, max, key);
      if a.key != key then run
      else Some(Extended(if key in Live(before, max) && run.Some? then run.value else BlankRun(a), a.event))
  }

  /** The key of the last event of a scope. */
  function LastKey(h: seq<Arrival>, s: Scope): Option<RunKey> {
    if h == [] then None else if h[|h| - 1].key.0 == s then Some(h[|h| - 1].key) else LastKey(h[..|h| - 1], s)
  }

  function LastTraceOf(h: seq<Arrival>, max: nat, s: Scope): Option<TraceRun> {
    var key := LastKey(h, s);
    if key.Some? && key.value in Live(h, max) then RunOf(h, max, key.value) else None
  }

  predicate Distinct<T(==)>(s: seq<T>) {
    forall i, j :: 0 <= i < j < |s| ==> s[i] != s[j]
  }

  /** No run is listed twice, however often it was evicted and begun again. */
  lemma {:induction false} LiveDistinct(h: seq<Arrival>, max: nat)
    ensures Distinct(Live(h, max)) && |Live(h, max)| <= max
  {
    if h != [] {
      LiveDistinct(h[..|h| - 1], max);
      LiveStep(h, max);
    }
  }

  /** One arrival: a known run changes nothing, a new one comes last and pushes the oldest out of a full list. */
  lemma LiveStep(h: seq<Arrival>, max: nat)
    requires h != []
    ensures var before, key := Live(h[..|h| - 1], max), h[|h| - 1].key;
            Live(h, max) == if key in before then before else LastOf(before + [key], max)
  {
  }

  /** The run that just received an event is live, and is its scope's last trace, ending with that event. */
  lemma JustRecordedIsLast(h: seq<Arrival>, max: nat)
    requires h != [] && 0 < max
    ensures var a := h[|h| - 1];
            && a.key in Live(h, max) && LastTraceOf(h, max, a.key.0) == RunOf(h, max, a.key)
              && RunOf(h, max, a.key).Some?
            && var run := RunOf(h, max, a.key).value;
               run.events != [] && run.events[|run.events| - 1] == a.event && run.status == a.event.status
  {
    LiveStep(h, max);
    var before, key := Live(h[..|h| - 1], max), h[|h| - 1].key;
    if key !in before {
      var s := before + [key];
      assert LastOf(s, max)[|LastOf(s, max)| - 1] == s[|s| - 1] == key;
    }
  }

  lemma {:induction false} LiveHaveRuns(h: seq<Arrival>, max: nat, key: RunKey)
    requires key in Live(h, max)
    ensures RunOf(h, max, key).Some? && RunOf(h, max, key).value.scope == key.0
  {
    if h[|h| - 1].key != key || key in Live(h[..|h| - 1], max) {
      LiveStep(h, max);
      InLast(Live(h[..|h| - 1], max), h[|h| - 1].key, max, key);
      LiveHaveRuns(h[..|h| - 1], max, key);
    }
  }

  lemma InLast(s: seq<RunKey>, x: RunKey, max: nat, key: RunKey)
    ensures key in LastOf(s + [x], max) ==> key in s || key == x
  {
  }

  /** Runs of other scopes never show: a scope's last trace is one of its own. */
  lemma {:induction false} LastKeyInScope(h: seq<Arrival>, s: Scope)
    ensures var key := LastKey(h, s); key.Some? ==> key.value.0 == s
  {
    if h != [] { LastKeyInScope(h[..|h| - 1], s); }
  }

  /** A run stays while fewer than max runs are begun after it, and is gone once max are. */
  lemma {:induction false} EvictedByAge(h: seq<Arrival>, max: nat, b: nat)
    requires b < |Begun(h, max)| && (forall i :: b < i < |Begun(h, max)| ==> Begun(h, max)[i] != Begun(h, max)[b])
    ensures Begun(h, max)[b] in Live(h, max) <==> |Begun(h, max)| - b <= max
  {
    LastHolds(Begun(h, max), max, b);
  }

  lemma LastHolds(all: seq<RunKey>, max: nat, b: nat)
    requires b < |all| && (forall i :: b < i < |all| ==> all[i] != all[b])
    ensures all[b] in LastOf(all, max) <==> |all| - b <= max
  {
    var last := LastOf(all, max);
    if |all| - b <= max {
      assert last[b - (|all| - |last|)] == all[b];
    } else {
      forall i | 0 <= i < |last|
        ensures last[i] != all[b]
      {
        assert last[i] == all[i + |all| - |last|];
      }
    }
  }

  /** Begin b is the last one of the key. */
  predicate LastBegun(all: seq<RunKey>, key: RunKey, b: nat) {
    b < |all| && all[b] == key && forall i :: b < i < |all| ==> all[i] != key
  }

  /** A key that arrived was begun. */
  lemma {:induction false} ArrivedIsBegun(h: seq<Arrival>, max: nat, s: Scope)
    requires LastKey(h, s).Some?
    ensures LastKey(h, s).value in Begun(h, max)
  {
    var before, key := Begun(h[..|h| - 1], max), h[|h| - 1].key;
    if key.0 == s {
      if key in LastOf(before, max) {
        var i :| 0 <= i < |LastOf(before, max)| && LastOf(before, max)[i] == key;
        assert key == before[if |before| <= max then i else i + |before| - max];
      }
    } else {
      ArrivedIsBegun(h[..|h| - 1], max, s);
    }
  }

  lemma {:induction false} HasLastBegun(all: seq<RunKey>, key: RunKey) returns (b: nat)
    requires key in all
    ensures LastBegun(all, key, b)
  {
    var n := |all| - 1;
    if all[n] == key {
      b := n;
    } else {
      b := HasLastBegun(all[..n], key);
    }
  }

  /** A scope has a last trace exactly when something arrived for it and fewer than max runs were begun after the last
      begin of the run of its last event. */
  lemma LastTraceIff(h: seq<Arrival>, max: nat, s: Scope)
    ensures LastTraceOf(h, max, s).Some? <==>
      LastKey(h, s).Some? && exists b :: LastBegun(Begun(h, max), LastKey(h, s).value, b) && |Begun(h, max)| - 1 - b < max
    ensures LastTraceOf(h, max, s).Some? ==> LastTraceOf(h, max, s) == RunOf(h, max, LastKey(h, s).value)
  {
    if LastKey(h, s).Some? {
      var key := LastKey(h, s).value;
      ArrivedIsBegun(h, max, s);
      var b := HasLastBegun(Begun(h, max), key);
      EvictedByAge(h, max, b);
      if key in Live(h, max) { LiveHaveRuns(h, max, key); }
      hide Begun, Live, RunOf, LastKey;
      assert forall c :: LastBegun(Begun(h, max), key, c) ==> c == b;
    }
  }

  /** So a scope may have no last trace although one of its runs is held: with room for two runs, a run is begun, then
      another, the first receives its last event, and a run of another scope evicts it. */
  lemma HeldButNotLast(e: Event) returns (h: seq<Arrival>, s: Scope, other: RunKey)
    ensures other.0 == s && other in Live(h, 2) && RunOf(h, 2, other).Some?
    ensures LastKey(h, s).Some? && LastTraceOf(h, 2, s) == None
  {
    s := ("g", "c", "u");
    var first, foreign: RunKey := (s, "a"), (("g", "c", "v"), "z");
    other := (s, "b");
    var a0, a1, a2, a3 := Arrival(first, "", e), Arrival(other, "", e), Arrival(first, "", e), Arrival(foreign, "", e);
    var h1, h2, h3 := [a0], [a0, a1], [a0, a1, a2];
    h := [a0, a1, a2, a3];
    assert h1[..0] == [] && h2[..1] == h1 && h3[..2] == h2 && h[..3] == h3;
    assert Begun(h1, 2) == [first];
    assert Begun(h2, 2) == [first, other];
    assert Begun(h3, 2) == [first, other];
    assert Begun(h, 2) == [first, other, foreign];
    assert Live(h, 2) == [other, foreign];
    assert LastKey(h, s) == LastKey(h3, s) == Some(first);
    LiveHaveRuns(h, 2, other);
  }

  // ---- The store ----

  class MemoryTraceStore {
    const maxRuns: nat
    var runs: map<RunKey, TraceRun>
    var keys: map<Scope, RunKey>
    var order: seq<RunKey>

    /** Everything that arrived. */
    ghost var history: seq<Arrival>

    /** The three structures are linked: order lists the runs, every value of keys is one of them, and all of it is
        what the history says. */
    ghost predicate Valid()
      reads this
    {
      && 0 < maxRuns
      && order == Live(history, maxRuns)
      && Linked(history, maxRuns, runs, keys, order)
    }

    constructor (maxRuns: int)
      ensures Valid() && history == [] && this.maxRuns == if maxRuns <= 0 then 256 else maxRuns
    {
      this.maxRuns := if maxRuns <= 0 then 256 else maxRuns;
      runs, keys, order, history := map[], map[], [], [];
    }

    method RecordTraceEvent(guild: string, channel: string, actor: string, surface: string, event: Event, now: int)
      requires Valid()
      modifies this
      ensures Valid()
      ensures var s := ScopeOf(guild, channel, actor);
              if s.None? || TrimSpace(event.runID) == "" then history == old(history)
              else
                var key := (s.value, TrimSpace(event.runID));
                history == old(history) + [Arrival(key, surface, event.(createdAt := now))]
    {
      hide TrimSpace, Live, RunOf, LastKey, Linked;
      var scope := ScopeOf(guild, channel, actor);
      if scope.None? || TrimSpace(event.runID) == "" { return; }
      var key := (scope.value, TrimSpace(event.runID));
      ghost var was, before := history, order;
      var stamped := event.(createdAt := now);
      LinkedRuns(history, maxRuns, runs, keys, order);
      var run := if key in runs then runs[key] else TraceRun(event.runID, scope.value, surface, "", 0, []);
      if key !in runs { order := order + [key]; }
      run := run.(status := event.status, updatedAt := now, events := run.events + [stamped]);
      runs := runs[key := run];
      keys := keys[scope.value := key];
      history := history + [Arrival(key, surface, stamped)];
      Arrives(was, maxRuns, Arrival(key, surface, stamped), old(runs), old(keys), before, run);
      TrimLocked();
    }

    /** Drops the oldest runs beyond the limit, and the scopes whose last run they were. */
    method TrimLocked()
      requires 0 < maxRuns && |order| <= maxRuns + 1 && Distinct(order)
      modifies this`runs, this`keys, this`order
      ensures order == LastOf(old(order), maxRuns)
      ensures runs == RunsWithout(old(runs), Dropped(old(order), maxRuns))
      ensures keys == KeysWithout(old(keys), Dropped(old(order), maxRuns))
    {
      while |order| > maxRuns
        invariant |order| <= |old(order)| && order == old(order)[|old(order)| - |order|..]
        invariant maxRuns <= |order| || order == old(order)
        invariant var gone := old(order)[..|old(order)| - |order|];
                  runs == RunsWithout(old(runs), gone) && keys == KeysWithout(old(keys), gone)
      {
        var key := order[0];
        order := order[1..];
        runs := runs - {key};
        ForgetScopes(key);
      }
    }

    method ForgetScopes(key: RunKey)
      modifies this`keys
      ensures keys == map s | s in old(keys) && old(keys)[s] != key :: old(keys)[s]
    {
      var rest := keys.Keys;
      while rest != {}
        invariant rest <= keys.Keys <= old(keys).Keys
        invariant forall s :: s in keys ==> keys[s] == old(keys)[s] && (s in rest || keys[s] != key)
        invariant forall s :: s in old(keys) && old(keys)[s] != key ==> s in keys
        decreases |rest|
      {
        var s :| s in rest;
        rest := rest - {s};
        if keys[s] == key { keys := keys - {s}; }
      }
    }

    /** The run of the scope's last event, if it was not evicted since; older runs of the scope never stand in. */
    method LastTrace(guild: string, channel: string, actor: string) returns (run: Option<TraceRun>)
      requires Valid()
      ensures var s := ScopeOf(guild, channel, actor);
              run == if s.None? then None else LastTraceOf(history, maxRuns, s.value)
    {
      hide TrimSpace, Live, RunOf, LastKey;
      var scope := ScopeOf(guild, channel, actor);
      if scope.None? || scope.value !in keys || keys[scope.value] !in runs { return None; }
      LiveHaveRuns(history, maxRuns, keys[scope.value]);
      return Some(runs[keys[scope.value]]);
    }
  }

  function Dropped(order: seq<RunKey>, max: nat): seq<RunKey> {
    if |order| <= max then [] else order[..|order| - max]
  }

  function RunsWithout(runs: map<RunKey, TraceRun>, gone: seq<RunKey>): map<RunKey, TraceRun> {
    map k | k in runs && k !in gone :: runs[k]
  }

  function KeysWithout(keys: map<Scope, RunKey>, gone: seq<RunKey>): map<Scope, RunKey> {
    map s | s in keys && keys[s] !in gone :: keys[s]
  }

  /** The maps agree with the history on the live runs, given in order of arrival. */
  ghost predicate Linked(h: seq<Arrival>, max: nat, runs: map<RunKey, TraceRun>, keys: map<Scope, RunKey>,
                         order: seq<RunKey>) {
    RunsAgree(h, max, runs, order) && KeysAgree(h, keys, order)
  }

  ghost predicate RunsAgree(h: seq<Arrival>, max: nat, runs: map<RunKey, TraceRun>, order: seq<RunKey>) {
    && (forall k :: k in runs <==> k in order)
    && (forall k :: k in runs ==> RunOf(h, max, k) == Some(runs[k]))
  }

  ghost predicate KeysAgree(h: seq<Arrival>, keys: map<Scope, RunKey>, order: seq<RunKey>) {
    && (forall s :: s in keys <==> LastKey(h, s).Some? && LastKey(h, s).value in order)
    && (forall s :: s in keys ==> LastKey(h, s) == Some(keys[s]))
  }

  lemma LinkedRuns(h: seq<Arrival>, max: nat, runs: map<RunKey, TraceRun>, keys: map<Scope, RunKey>, order: seq<RunKey>)
    requires order == Live(h, max) && Linked(h, max, runs, keys, order)
    ensures Distinct(order) && |order| <= max && forall k :: k in runs <==> k in order
  {
    LiveDistinct(h, max);
  }

  /** Recording one arrival keeps the structures linked, and trimming them then keeps what is live. */
  lemma Arrives(h: seq<Arrival>, max: nat, a: Arrival, runs: map<RunKey, TraceRun>, keys: map<Scope, RunKey>,
                order: seq<RunKey>, run: TraceRun)
    requires 0 < max && order == Live(h, max) && Linked(h, max, runs, keys, order)
    requires run == Extended(if a.key in runs then runs[a.key] else BlankRun(a), a.event)
    ensures var order' := if a.key in runs then order else order + [a.key];
            var gone := Dropped(order', max);
            && Distinct(order') && LastOf(order', max) == Live(h + [a], max)
            && Linked(h + [a], max, RunsWithout(runs[a.key := run], gone), KeysWithout(keys[a.key.0 := a.key], gone),
                      LastOf(order', max))
  {
    var order' := if a.key in runs then order else order + [a.key];
    assert (h + [a])[..|h|] == h;
    LiveDistinct(h, max);
    LiveStep(h + [a], max);
    hide Live, LastOf, Dropped, RunsWithout, KeysWithout;
    ArrivesLinked(h, max, a, runs, keys, order, run);
    TrimKeepsLinked(h + [a], max, runs[a.key := run], keys[a.key.0 := a.key], order');
  }

  lemma ArrivesLinked(h: seq<Arrival>, max: nat, a: Arrival, runs: map<RunKey, TraceRun>, keys: map<Scope, RunKey>,
                      order: seq<RunKey>, run: TraceRun)
    requires order == Live(h, max) && Linked(h, max, runs, keys, order)
    requires run == Extended(if a.key in runs then runs[a.key] else BlankRun(a), a.event)
    ensures var order' := if a.key in runs then order else order + [a.key];
            Linked(h + [a], max, runs[a.key := run], keys[a.key.0 := a.key], order')
  {
    var order', runs' := if a.key in runs then order else order + [a.key], runs[a.key := run];
    assert forall k :: k in order' <==> k in order || k == a.key;
    KeysArrive(h, a, keys, order, order');
    hide Live, RunOf, LastKey, Extended, BlankRun, KeysAgree;
    forall k | k in runs'
      ensures RunOf(h + [a], max, k) == Some(runs'[k])
    {
      RunStep(h, max, a, k);
    }
  }

  lemma KeysArrive(h: seq<Arrival>, a: Arrival, keys: map<Scope, RunKey>, order: seq<RunKey>, order': seq<RunKey>)
    requires KeysAgree(h, keys, order) && forall k :: k in order' <==> k in order || k == a.key
    ensures KeysAgree(h + [a], keys[a.key.0 := a.key], order')
  {
    forall s
      ensures LastKey(h + [a], s) == if s == a.key.0 then Some(a.key) else LastKey(h, s)
      ensures LastKey(h, s).Some? ==> LastKey(h, s).value.0 == s
    {
      assert (h + [a])[..|h|] == h;
      LastKeyInScope(h, s);
    }
    hide LastKey;
  }

  lemma TrimKeepsLinked(h: seq<Arrival>, max: nat, runs: map<RunKey, TraceRun>, keys: map<Scope, RunKey>,
                        order: seq<RunKey>)
    requires Distinct(order) && Linked(h, max, runs, keys, order)
    ensures var gone := Dropped(order, max);
            Linked(h, max, RunsWithout(runs, gone), KeysWithout(keys, gone), LastOf(order, max))
  {
    KeptOrDropped(order, max);
    hide LastOf, Dropped, RunOf, LastKey;
  }

  lemma RunStep(h: seq<Arrival>, max: nat, a: Arrival, key: RunKey)
    ensures RunOf(h + [a], max, key) ==
      if a.key != key then RunOf(h, max, key)
      else
        var run := RunOf(h, max, key);
        Some(Extended(if key in Live(h, max) && run.Some? then run.value else BlankRun(a), a.event))
  {
    assert (h + [a])[..|h|] == h;
  }

  lemma KeptOrDropped(order: seq<RunKey>, max: nat)
    requires Distinct(order)
    ensures forall k :: k in LastOf(order, max) <==> k in order && k !in Dropped(order, max)
  {
    var kept, gone := LastOf(order, max), Dropped(order, max);
    assert order == gone + kept;
    forall i, j | 0 <= i < |gone| && 0 <= j < |kept|
      ensures gone[i] != kept[j]
    {
      assert gone[i] == order[i] && kept[j] == order[j + |gone|];
    }
  }
}
