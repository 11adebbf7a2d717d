/** Live ingest of guild messages (internal/memory/ingestor.go), and what a search finds of the events that arrived. */
module MemoryIngest {
  import opened MemoryStore
  import opened MemoryText
  import opened Outcome
  import opened Text

  const DAY := 86400

  function RetentionDays(channel: ChannelPolicy, guildDays: int): (days: int)
    ensures 0 < channel.retentionDays ==> days == channel.retentionDays
    ensures channel.retentionDays == 0 && 0 < guildDays ==> days == guildDays
    ensures 0 < days
  {
    var days := if channel.retentionDays == 0 then guildDays else channel.retentionDays;
    if days <= 0 then DEFAULT_RETENTION_DAYS else days
  }

  function CreatedAt(e: MessageEvent, now: int): int {
    if e.createdAt == 0 then now else e.createdAt
  }

  /** What one event writes, given the channel's policy, the guild's retention and the clock. */
  function IngestOp(c: Coding, e: MessageEvent, channel: Option<ChannelPolicy>, guildDays: int, now: int): Option<Op> {
    if e.deleted then
      if TrimSpace(e.guild) == "" || TrimSpace(e.id) == "" then None
      else Some(Forget(TrimSpace(e.guild), TrimSpace(e.id), if e.deletedAt == 0 then now else e.deletedAt))
    else
      var content := NormalizeText(c.lower, e.content);
      if content == "" || channel.None? || channel.value.mode == Off then None
      else
        var createdAt := CreatedAt(e, now);
        var text := if channel.value.mode == Full then content else "";
        var until := createdAt + DAY * RetentionDays(channel.value, guildDays);
        var r := NormalizeRecord(c, Record(e.id, e.guild, e.channel, e.author, text, HashText(c, content), createdAt, until));
        if r.None? then None else Some(Keep(r.value))
  }

  /** Text is kept exactly in full mode, and then as normalised once; retention follows the channel, else the guild,
      else the default, and always ends after the message was created. */
  lemma TextKeptIffFull(c: Coding, e: MessageEvent, channel: Option<ChannelPolicy>, guildDays: int, now: int)
    requires Folding(c.lower)
    requires IngestOp(c, e, channel, guildDays, now).Some? && !e.deleted
    ensures var op := IngestOp(c, e, channel, guildDays, now).value;
            && op.Keep? && channel.Some? && channel.value.mode != Off
            && (op.record.text != "" <==> channel.value.mode == Full)
            && (channel.value.mode == Full ==> op.record.text == NormalizeText(c.lower, e.content))
            && op.record.createdAt == CreatedAt(e, now)
            && op.record.retentionUntil == op.record.createdAt + DAY * RetentionDays(channel.value, guildDays)
            && op.record.createdAt < op.record.retentionUntil
            && op.record.id == TrimSpace(e.id) && op.record.guild == TrimSpace(e.guild)
            && op.record.channel == TrimSpace(e.channel) && op.record.author == TrimSpace(e.author)
  {
    NormalizeIsIdempotent(c.lower, e.content);
    NormalizeIsIdempotent(c.lower, "");
    EmptyNormalizes(c.lower);
    hide NormalizeText, TrimSpace;
  }

  lemma EmptyNormalizes(lower: char -> char)
    ensures NormalizeText(lower, "") == ""
  {
    assert ToLower(lower, "") == "";
  }

  // ---- What happens to a store ----

  /** The clock and the database as an event finds them. */
  datatype Moment = Moment(now: int, unreadable: bool, fate: Fate)

  /** Administrators set policies, and a scheduler sweeps out what has expired. */
  datatype Act = Administered(req: PolicyRequest, fate: Fate) | Swept(now: int, clock: int, fate: Fate)

  datatype Happening = Arrived(event: MessageEvent, at: Moment) | Meanwhile(act: Act)

  /** What one event writes: a read that fails loses a recording, a write that fails loses either. */
  function Written(c: Coding, p: Policies, e: MessageEvent, m: Moment): (ops: seq<Op>)
    ensures |ops| <= 1
  {
    var op := IngestOp(c, e, PolicyFor(p, e.guild, e.channel), DaysFor(p, e.guild), m.now);
    if op.None? || m.fate == Undone || (!e.deleted && m.unreadable) then [] else [op.value]
  }

  function Wrote(c: Coding, p: Policies, x: Happening): (ops: seq<Op>)
    ensures |ops| <= 1
  {
    match x
    case Arrived(event, at) => Written(c, p, event, at)
    case Meanwhile(Administered(_, _)) => []
    case Meanwhile(Swept(now, clock, fate)) => if fate == Undone then [] else [Purge(if now == 0 then clock else now)]
  }

  function Turned(p: Policies, x: Happening): Policies {
    match x
    case Meanwhile(Administered(req, fate)) => if fate == Undone then p else Upserted(p, req)
    case _ => p
  }

  function PoliciesAfter(p: Policies, xs: seq<Happening>): Policies {
    if xs == [] then p else Turned(PoliciesAfter(p, xs[..|xs| - 1]), xs[|xs| - 1])
  }

  /** Every write to the message table, in order. */
  function History(c: Coding, p: Policies, xs: seq<Happening>): seq<Op> {
    if xs == [] then []
    else
      var n := |xs| - 1;
      History(c, p, xs[..n]) + Wrote(c, PoliciesAfter(p, xs[..n]), xs[n])
  }

  lemma HistoryStep(c: Coding, p: Policies, xs: seq<Happening>, x: Happening)
    ensures History(c, p, xs + [x]) == History(c, p, xs) + Wrote(c, PoliciesAfter(p, xs), x)
    ensures PoliciesAfter(p, xs + [x]) == Turned(PoliciesAfter(p, xs), x)
  {
    assert (xs + [x])[..|xs|] == xs;
  }

  lemma {:induction false} HistoryAppend(c: Coding, p: Policies, xs: seq<Happening>, ys: seq<Happening>)
    ensures History(c, p, xs + ys) == History(c, p, xs) + History(c, PoliciesAfter(p, xs), ys)
    ensures PoliciesAfter(p, xs + ys) == PoliciesAfter(PoliciesAfter(p, xs), ys)
    decreases |ys|
  {
    hide Wrote, Turned, History, PoliciesAfter;
    var p' := PoliciesAfter(p, xs);
    if ys == [] {
      assert xs + ys == xs;
      NothingHappened(c, p');
    } else {
      var n := |ys| - 1;
      var most := xs + ys[..n];
      HistoryAppend(c, p, xs, ys[..n]);
      HistoryStep(c, p, most, ys[n]);
      HistoryStep(c, p', ys[..n], ys[n]);
      assert xs + ys == most + [ys[n]] && ys == ys[..n] + [ys[n]];
      var all, before, more := History(c, p, xs), History(c, p', ys[..n]), Wrote(c, PoliciesAfter(p, most), ys[n]);
      assert (all + before) + more == all + (before + more);
    }
  }

  // ---- What a search finds of it ----

  function WroteAt(c: Coding, p: Policies, xs: seq<Happening>, k: nat): seq<Op>
    requires k < |xs|
  {
    Wrote(c, PoliciesAfter(p, xs[..k]), xs[k])
  }

  /** Event k recorded message id, no tombstone stood in its way, and nothing that happened since disturbed it: no later
      event of the message recorded or deleted it, and no sweep reached its retention. */
  predicate Ingested(c: Coding, p: Policies, xs: seq<Happening>, k: nat, id: string) {
    && k < |xs| && WroteAt(c, p, xs, k) != [] && WroteAt(c, p, xs, k)[0].Keep? && WroteAt(c, p, xs, k)[0].record.id == id
    && !Tombstoned(After(History(c, p, xs[..k])), id)
    && forall j :: k < j < |xs| && WroteAt(c, p, xs, j) != [] ==>
         !Disturbs(WroteAt(c, p, xs, j)[0], WroteAt(c, p, xs, k)[0].record)
  }

  lemma {:induction false} IngestedStands(c: Coding, p: Policies, xs: seq<Happening>, k: nat, id: string)
    requires Ingested(c, p, xs, k, id)
    ensures var m := |History(c, p, xs[..k])|;
            Standing(History(c, p, xs), m, id) && History(c, p, xs)[m] == WroteAt(c, p, xs, k)[0]
    decreases |xs|
  {
    hide Wrote, PoliciesAfter, After, Disturbs;
    var n := |xs| - 1;
    var before := xs[..n];
    assert xs[..|xs|] == xs;
    if k < n {
      IngestedBefore(c, p, xs, k, id);
      IngestedStands(c, p, before, k, id);
      assert before[..k] == xs[..k];
      StandsLonger(History(c, p, before), WroteAt(c, p, xs, n), |History(c, p, xs[..k])|, id);
    } else {
      var ops := History(c, p, xs);
      assert ops[..|History(c, p, before)|] == History(c, p, before);
    }
  }

  lemma IngestedBefore(c: Coding, p: Policies, xs: seq<Happening>, k: nat, id: string)
    requires Ingested(c, p, xs, k, id) && k < |xs| - 1
    ensures Ingested(c, p, xs[..|xs| - 1], k, id)
  {
    hide Wrote, PoliciesAfter, After, Disturbs, History;
    var before := xs[..|xs| - 1];
    forall j | 0 <= j < |before|
      ensures WroteAt(c, p, before, j) == WroteAt(c, p, xs, j) && before[..j] == xs[..j]
    {
      assert before[..j] == xs[..j];
    }
  }

  lemma StandsLonger(ops: seq<Op>, more: seq<Op>, m: int, id: string)
    requires Standing(ops, m, id) && |more| <= 1 && (more != [] ==> !Disturbs(more[0], ops[m].record))
    ensures Standing(ops + more, m, id) && (ops + more)[m] == ops[m]
  {
    hide After, Disturbs;
    assert (ops + more)[..m] == ops[..m];
  }

  lemma {:induction false} StandsIngested(c: Coding, p: Policies, xs: seq<Happening>, m: int, id: string) returns (k: nat)
    requires Standing(History(c, p, xs), m, id)
    ensures Ingested(c, p, xs, k, id) && History(c, p, xs)[m] == WroteAt(c, p, xs, k)[0]
    decreases |xs|
  {
    hide Wrote, PoliciesAfter, After, Disturbs;
    var n := |xs| - 1;
    var before := xs[..n];
    var ops, more := History(c, p, before), WroteAt(c, p, xs, n);
    assert History(c, p, xs) == ops + more;
    if m < |ops| {
      StandsShorter(ops, more, m, id);
      k := StandsIngested(c, p, before, m, id);
      IngestedLonger(c, p, xs, k, id);
    } else {
      k := n;
      assert (ops + more)[..m] == ops;
    }
  }

  lemma StandsShorter(ops: seq<Op>, more: seq<Op>, m: int, id: string)
    requires Standing(ops + more, m, id) && m < |ops|
    ensures Standing(ops, m, id) && (ops + more)[m] == ops[m]
    ensures more != [] ==> !Disturbs(more[0], ops[m].record)
  {
    hide After, Disturbs;
    assert (ops + more)[..m] == ops[..m];
    assert forall j :: 0 <= j < |ops| ==> (ops + more)[j] == ops[j];
    assert more != [] ==> (ops + more)[|ops|] == more[0];
  }

  lemma IngestedLonger(c: Coding, p: Policies, xs: seq<Happening>, k: nat, id: string)
    requires xs != [] && Ingested(c, p, xs[..|xs| - 1], k, id)
    requires var last := WroteAt(c, p, xs, |xs| - 1);
             last != [] ==> !Disturbs(last[0], WroteAt(c, p, xs[..|xs| - 1], k)[0].record)
    ensures Ingested(c, p, xs, k, id) && WroteAt(c, p, xs, k) == WroteAt(c, p, xs[..|xs| - 1], k)
  {
    hide Wrote, PoliciesAfter, After, Disturbs, History;
    var before := xs[..|xs| - 1];
    forall j | 0 <= j < |before|
      ensures WroteAt(c, p, before, j) == WroteAt(c, p, xs, j) && before[..j] == xs[..j]
    {
      assert before[..j] == xs[..j];
    }
  }

  /** Event k arrived in full mode, within the query's scope and dates, with its text, and has not expired. */
  predicate Findable(c: Coding, p: Policies, xs: seq<Happening>, k: nat, q: Query, now: int) {
    && k < |xs| && xs[k].Arrived? && !xs[k].event.deleted
    && var e, policies := xs[k].event, PoliciesAfter(p, xs[..k]);
       var channel, created := PolicyFor(policies, e.guild, e.channel), CreatedAt(e, xs[k].at.now);
       && channel.Some? && channel.value.mode == Full
       && InScope(TrimSpace(e.guild), TrimSpace(e.channel), TrimSpace(e.author), created, q)
       && now < created + DAY * RetentionDays(channel.value, DaysFor(policies, e.guild))
       && Contains(NormalizeText(c.lower, e.content), q.text)
  }

  /** A search finds a message exactly when the last event to be recorded of it came in full mode, matches, has not
      expired, and was neither deleted nor swept out, with no tombstone standing when it came. */
  lemma FoundIffIngested(c: Coding, p: Policies, xs: seq<Happening>, q: Query, now: int, id: string)
    requires Folding(c.lower)
    ensures id in Found(After(History(c, p, xs)), q, now) <==>
      exists k: nat :: Ingested(c, p, xs, k, id) && Findable(c, p, xs, k, q, now)
  {
    hide After, History, RecordMatches, Findable, Standing, Ingested, Found;
    var ops := History(c, p, xs);
    if id in Found(After(ops), q, now) {
      var m := FoundOrigin(ops, q, now, id);
      var k := StandsIngested(c, p, xs, m, id);
      IngestedIsKeep(c, p, xs, k, id);
      FindableIffMatches(c, p, xs, k, id, q, now);
    }
    if k: nat :| Ingested(c, p, xs, k, id) && Findable(c, p, xs, k, q, now) {
      IngestedIsKeep(c, p, xs, k, id);
      IngestedStands(c, p, xs, k, id);
      FindableIffMatches(c, p, xs, k, id, q, now);
      StandingIsFound(ops, q, now, id, |History(c, p, xs[..k])|);
    }
  }

  lemma IngestedIsKeep(c: Coding, p: Policies, xs: seq<Happening>, k: nat, id: string)
    requires Ingested(c, p, xs, k, id)
    ensures k < |xs| && WroteAt(c, p, xs, k) != [] && WroteAt(c, p, xs, k)[0].Keep?
  {
  }

  lemma FindableIffMatches(c: Coding, p: Policies, xs: seq<Happening>, k: nat, id: string, q: Query, now: int)
    requires Folding(c.lower) && Ingested(c, p, xs, k, id)
    ensures RecordMatches(WroteAt(c, p, xs, k)[0].record, q, now) <==> Findable(c, p, xs, k, q, now)
  {
    var e, policies := xs[k].event, PoliciesAfter(p, xs[..k]);
    TextKeptIffFull(c, e, PolicyFor(policies, e.guild, e.channel), DaysFor(policies, e.guild), xs[k].at.now);
    hide History, After, PoliciesAfter, Contains, InScope, NormalizeText, TrimSpace, PolicyFor, DaysFor, NormalizeRecord;
  }

  // ---- The live ingestor ----

  /** What happens while a queue is served: before each event, whatever is done meanwhile. */
  function Timeline(events: seq<MessageEvent>, meanwhile: nat -> seq<Act>, moments: nat -> Moment): seq<Happening> {
    if events == [] then []
    else
      var n := |events| - 1;
      Timeline(events[..n], meanwhile, moments) + (Acts(meanwhile(n)) + [Arrived(events[n], moments(n))])
  }

  function Acts(acts: seq<Act>): seq<Happening> {
    seq(|acts|, i requires 0 <= i < |acts| => Meanwhile(acts[i]))
  }

  class LiveIngestor {
    const store: SQLStore
    const capacity: nat
    var queue: seq<MessageEvent>

    ghost predicate Valid()
      reads this, store
    {
      store.Valid() && |queue| <= capacity && 0 < capacity
    }

    constructor (store: SQLStore, queueSize: int)
      requires store.Valid()
      ensures Valid() && queue == [] && this.store == store && capacity == if queueSize <= 0 then 256 else queueSize
    {
      this.store := store;
      capacity := if queueSize <= 0 then 256 else queueSize;
      queue := [];
    }

    /** A full queue drops the event. */
    method TryEnqueueMessage(event: MessageEvent) returns (ok: bool)
      requires Valid()
      modifies this`queue
      ensures Valid() && ok == (|old(queue)| < capacity)
      ensures queue == if ok then old(queue) + [event] else old(queue)
    {
      ok := |queue| < capacity;
      if ok { queue := queue + [event]; }
    }

    method Ingest(event: MessageEvent, m: Moment)
      requires Valid()
      modifies store`rows, store`ops
      ensures Valid()
      ensures store.ops == old(store.ops) + Written(store.coding, store.policies, event, m)
    {
      hide NormalizeText, NormalizeRecord, After;
      var c, p := store.coding, store.policies;
      if event.deleted {
        if event.guild == "" || event.id == "" { return; }
        var deletedAt := if event.deletedAt == 0 then m.now else event.deletedAt;
        var gone := store.DeleteMessage(event.guild, event.id, deletedAt, m.now, m.fate);
        return;
      }
      var content := NormalizeText(c.lower, event.content);
      if event.guild == "" || event.channel == "" || event.id == "" || event.author == "" || content == "" {
        BlankIsRefused(c, event, PolicyFor(p, event.guild, event.channel), DaysFor(p, event.guild), m.now);
        return;
      }
      if m.unreadable { return; }
      var channel := PolicyFor(p, event.guild, event.channel);
      if channel.None? || channel.value.mode == Off { return; }
      var days := channel.value.retentionDays;
      if days == 0 { days := DaysFor(p, event.guild); }
      if days <= 0 { days := DEFAULT_RETENTION_DAYS; }
      var createdAt := if event.createdAt == 0 then m.now else event.createdAt;
      var text := if channel.value.mode == Full then content else "";
      var record := Record(event.id, event.guild, event.channel, event.author, text, HashText(c, content), createdAt,
                           createdAt + DAY * days);
      var kept := store.RecordMessage(record, m.fate);
    }

    /** What others do to the store between two events. */
    method Elsewhere(act: Act)
      requires Valid()
      modifies store`rows, store`ops, store`policies
      ensures Valid()
      ensures store.ops == old(store.ops) + Wrote(store.coding, old(store.policies), Meanwhile(act))
      ensures store.policies == Turned(old(store.policies), Meanwhile(act))
    {
      hide After;
      match act
      case Administered(req, fate) =>
        var ok := store.UpsertChannelPolicy(req, fate);
      case Swept(now, clock, fate) =>
        var purged := store.PurgeExpiredMessages(now, clock, fate);
    }

    /** One turn of the loop: whatever was done meanwhile, and then the event. */
    method Turn(acts: seq<Act>, event: MessageEvent, m: Moment)
      requires Valid()
      modifies store`rows, store`ops, store`policies
      ensures Valid()
      ensures var xs := Acts(acts) + [Arrived(event, m)];
              && store.ops == old(store.ops) + History(store.coding, old(store.policies), xs)
              && store.policies == PoliciesAfter(old(store.policies), xs)
    {
      hide Written, Wrote, Turned, SQLStore.Valid;
      ghost var c, p := store.coding, store.policies;
      for i := 0 to |acts|
        invariant Valid()
        invariant store.ops == old(store.ops) + History(c, p, Acts(acts[..i]))
        invariant store.policies == PoliciesAfter(p, Acts(acts[..i]))
      {
        HistoryStep(c, p, Acts(acts[..i]), Meanwhile(acts[i]));
        Elsewhere(acts[i]);
        assert Acts(acts[..i + 1]) == Acts(acts[..i]) + [Meanwhile(acts[i])];
      }
      assert acts[..|acts|] == acts;
      HistoryStep(c, p, Acts(acts), Arrived(event, m));
      ArrivedWrites(c, store.policies, event, m);
      Ingest(event, m);
    }

    /** Events are served first in, first out, each under the policies of its moment; errors are ignored. */
    method Run(meanwhile: nat -> seq<Act>, moments: nat -> Moment)
      requires Valid()
      modifies this`queue, store`rows, store`ops, store`policies
      ensures Valid() && queue == []
      ensures var xs := Timeline(old(queue), meanwhile, moments);
              && store.ops == old(store.ops) + History(store.coding, old(store.policies), xs)
              && store.policies == PoliciesAfter(old(store.policies), xs)
    {
      hide History, PoliciesAfter, Acts, SQLStore.Valid;
      ghost var c, p := store.coding, store.policies;
      ghost var done: seq<MessageEvent> := [];
      var n: nat := 0;
      NothingHappened(c, p);
      while queue != []
        invariant Valid() && old(queue) == done + queue && |done| == n
        invariant store.ops == old(store.ops) + History(c, p, Timeline(done, meanwhile, moments))
        invariant store.policies == PoliciesAfter(p, Timeline(done, meanwhile, moments))
        decreases |queue|
      {
        var event := queue[0];
        queue := queue[1..];
        ghost var next := Acts(meanwhile(n)) + [Arrived(event, moments(n))];
        HistoryAppend(c, p, Timeline(done, meanwhile, moments), next);
        Turn(meanwhile(n), event, moments(n));
        assert (done + [event])[..n] == done;
        assert Timeline(done + [event], meanwhile, moments) == Timeline(done, meanwhile, moments) + next;
        done := done + [event];
        n := n + 1;
      }
      assert done == old(queue);
    }
  }

  lemma NothingHappened(c: Coding, p: Policies)
    ensures History(c, p, []) == [] && PoliciesAfter(p, []) == p
  {
  }

  lemma ArrivedWrites(c: Coding, p: Policies, e: MessageEvent, m: Moment)
    ensures Wrote(c, p, Arrived(e, m)) == Written(c, p, e, m) && Turned(p, Arrived(e, m)) == p
  {
  }

  lemma BlankIsRefused(c: Coding, e: MessageEvent, channel: Option<ChannelPolicy>, guildDays: int, now: int)
    requires !e.deleted
    requires e.guild == "" || e.channel == "" || e.id == "" || e.author == "" || NormalizeText(c.lower, e.content) == ""
    ensures IngestOp(c, e, channel, guildDays, now) == None
  {
    hide NormalizeText, HashText;
  }
}
