/** Guild memory: the message table, its ingest, deletion and purge, and what a search may find
    (internal/memory/store.go, ingestor.go). Lower-casing and the hash are parameters; 0 is the zero time. */
module MemoryStore {
  import opened MemoryText
  import opened Outcome
  import opened Text

  datatype Mode = Off | Metadata | Full

  /** retentionDays is 0 where the channel leaves it to the guild. */
  datatype ChannelPolicy = ChannelPolicy(mode: Mode, retentionDays: int)

  datatype MessageEvent = MessageEvent(
    id: string, guild: string, channel: string, author: string, content: string, createdAt: int,
    deleted: bool, deletedAt: int)

  datatype Record = Record(
    id: string, guild: string, channel: string, author: string, text: string, hash: string,
    createdAt: int, retentionUntil: int)

  datatype Row = Row(
    guild: string, channel: string, author: string, text: Option<string>, hash: string,
    createdAt: int, retentionUntil: int, deletedAt: Option<int>)

  type Rows = map<string, Row>

  /** The writes to the message table. */
  datatype Op = Keep(record: Record) | Forget(guild: string, id: string, at: int) | Purge(now: int)

  /** The functions a store is built on. */
  datatype Coding = Coding(lower: char -> char, hash: string -> string)

  // ---- The table ----

  function RowOf(r: Record): Row {
    var text := if r.text == "" then None else Some(r.text);
    Row(r.guild, r.channel, r.author, text, r.hash, r.createdAt, r.retentionUntil, None)
  }

  predicate Tombstoned(rows: Rows, id: string) {
    id in rows && rows[id].deletedAt.Some?
  }

  function Apply(rows: Rows, op: Op): Rows {
    match op
    case Keep(r) =>
      if Tombstoned(rows, r.id) then rows else rows[r.id := RowOf(r)]
    case Forget(guild, id, at) =>
      if id in rows && rows[id].guild == guild
        then rows[id := rows[id].(text := None, hash := "", deletedAt := Some(at))]
      else rows
    case Purge(now) =>
      map id | id in rows && now < rows[id].retentionUntil :: rows[id]
  }

  function After(ops: seq<Op>): Rows {
    if ops == [] then map[] else Apply(After(ops[..|ops| - 1]), ops[|ops| - 1])
  }

  // ---- Which write a row comes from ----

  /** op replaces, deletes or purges the row that record r left. */
  predicate Disturbs(op: Op, r: Record) {
    match op
    case Keep(other) => other.id == r.id
    case Forget(guild, id, _) => id == r.id && guild == r.guild
    case Purge(now) => r.retentionUntil <= now
  }

  /** Write k recorded message id, no tombstone stood in its way, and nothing disturbed its row since. */
  predicate Standing(ops: seq<Op>, k: int, id: string) {
    && 0 <= k < |ops| && ops[k].Keep? && ops[k].record.id == id && !Tombstoned(After(ops[..k]), id)
    && forall j :: k < j < |ops| ==> !Disturbs(ops[j], ops[k].record)
  }

  /** Write j deleted the row that write k had left, and no purge has reached its retention since. */
  predicate Erased(ops: seq<Op>, k: int, j: int, id: string) {
    && 0 <= k < j < |ops| && Standing(ops[..j], k, id) && ops[j].Forget? && ops[j].id == id
      && ops[j].guild == ops[k].record.guild
    && forall l :: j < l < |ops| && ops[l].Purge? ==> ops[l].now < ops[k].record.retentionUntil
  }

  lemma {:induction false} StandingStands(ops: seq<Op>, k: int, id: string)
    requires Standing(ops, k, id)
    ensures id in After(ops) && After(ops)[id] == RowOf(ops[k].record)
  {
    var n := |ops| - 1;
    var before := ops[..n];
    if k < n {
      assert before[..k] == ops[..k];
      StandingStands(before, k, id);
      assert !Disturbs(ops[n], ops[k].record);
    }
  }

  lemma {:induction false} StandingOrigin(ops: seq<Op>, id: string) returns (k: int)
    requires id in After(ops) && After(ops)[id].deletedAt.None?
    ensures Standing(ops, k, id)
  {
    var n := |ops| - 1;
    var before := ops[..n];
    if ops[n].Keep? && ops[n].record.id == id {
      k := n;
    } else {
      k := StandingOrigin(before, id);
      StandingStands(before, k, id);
      assert before[..k] == ops[..k];
    }
  }

  /** A message is in the table undeleted exactly while one recording of it stands, and its row is that recording's. */
  lemma KeptIffStanding(ops: seq<Op>, id: string)
    ensures id in After(ops) && !Tombstoned(After(ops), id) <==> exists k :: Standing(ops, k, id)
  {
    if id in After(ops) && !Tombstoned(After(ops), id) {
      var k := StandingOrigin(ops, id);
    }
    if k :| Standing(ops, k, id) {
      StandingStands(ops, k, id);
    }
  }

  /** A tombstone outlives every later recording and deletion, until a purge reaches its retention. */
  lemma {:induction false} TombstoneStays(ops: seq<Op>, k: int, j: int, id: string)
    requires Erased(ops, k, j, id)
    ensures Tombstoned(After(ops), id)
    ensures var row := After(ops)[id];
            row.text == None && row.hash == "" && row.guild == ops[k].record.guild
              && row.retentionUntil == ops[k].record.retentionUntil
  {
    var n := |ops| - 1;
    var before := ops[..n];
    if j < n {
      assert before[..j] == ops[..j];
      TombstoneStays(before, k, j, id);
    } else {
      StandingStands(before, k, id);
    }
  }

  lemma {:induction false} TombstoneOrigin(ops: seq<Op>, id: string) returns (k: int, j: int)
    requires Tombstoned(After(ops), id)
    ensures Erased(ops, k, j, id)
  {
    var n := |ops| - 1;
    var before := ops[..n];
    if Tombstoned(After(before), id) {
      k, j := TombstoneOrigin(before, id);
      TombstoneStays(before, k, j, id);
      assert before[..j] == ops[..j];
    } else {
      k := StandingOrigin(before, id);
      StandingStands(before, k, id);
      j := n;
    }
  }

  /** So a deletion leaves a tombstone exactly when it met a standing recording in its own guild; one that comes
      before the recording is forgotten. */
  lemma TombstonedIffErased(ops: seq<Op>, id: string)
    ensures Tombstoned(After(ops), id) <==> exists k, j :: Erased(ops, k, j, id)
  {
    if Tombstoned(After(ops), id) {
      var k, j := TombstoneOrigin(ops, id);
    }
    if k, j :| Erased(ops, k, j, id) {
      TombstoneStays(ops, k, j, id);
    }
  }

  /** A deletion that overtakes its message deletes nothing: the message recorded after it stands. */
  lemma OvertakingDeletionForgotten(r: Record, at: int)
    ensures var ops := [Forget(r.guild, r.id, at), Keep(r)]; Standing(ops, 1, r.id) && After(ops)[r.id] == RowOf(r)
  {
    var ops := [Forget(r.guild, r.id, at), Keep(r)];
    assert After(ops[..1]) == map[] by {
      assert ops[..1] == [ops[0]] && ops[..1][..0] == [];
    }
    StandingStands(ops, 1, r.id);
  }

  // ---- Searching ----

  /** A search as asked for; 0 leaves a date or the limit open. */
  datatype SearchRequest = SearchRequest(
    guild: string, channel: string, author: string, text: string, limit: int, start: int, end: int)

  datatype Query = Query(guild: string, channel: string, author: string, text: string, start: int, end: int)

  /** The query for a request, if it names a guild, a channel and some text. */
  function NormalizeSearch(c: Coding, req: SearchRequest): Option<Query> {
    var q := Query(TrimSpace(req.guild), TrimSpace(req.channel), TrimSpace(req.author), NormalizeText(c.lower, req.text),
                   req.start, req.end);
    if q.guild == "" || q.channel == "" || q.text == "" then None else Some(q)
  }

  predicate InScope(guild: string, channel: string, author: string, createdAt: int, q: Query) {
    && guild == q.guild && channel == q.channel && (q.author == "" || author == q.author)
    && (q.start == 0 || q.start <= createdAt) && (q.end == 0 || createdAt <= q.end)
  }

  predicate Matches(row: Row, q: Query, now: int) {
    && InScope(row.guild, row.channel, row.author, row.createdAt, q)
    && row.text.Some? && row.deletedAt.None? && now < row.retentionUntil
    && Contains(row.text.value, q.text)
  }

  /** The messages a search may return. */
  function Found(rows: Rows, q: Query, now: int): set<string> {
    set id | id in rows && Matches(rows[id], q, now)
  }

  /** The most messages one search returns: at least 1 and at most 25. */
  function PageSize(limit: int): nat {
    if limit == 0 then 5 else if limit < 1 then 1 else if limit > 25 then 25 else limit
  }

  function Least(a: nat, b: nat): nat {
    if a < b then a else b
  }

  predicate NoNewer(rows: Rows, a: string, b: string)
    requires a in rows && b in rows
  {
    rows[a].createdAt <= rows[b].createdAt
  }

  /** Some of the messages found, newest first, and none left out that is newer than one returned. */
  predicate NewestOf(rows: Rows, found: set<string>, ids: seq<string>)
    requires found <= rows.Keys
  {
    && (forall i :: 0 <= i < |ids| ==> ids[i] in found)
    && (forall i, j :: 0 <= i < j < |ids| ==> ids[i] != ids[j] && NoNewer(rows, ids[j], ids[i]))
    && (forall id, i | id in found && id !in ids && 0 <= i < |ids| :: NoNewer(rows, id, ids[i]))
  }

  predicate Page(rows: Rows, q: Query, now: int, size: nat, ids: seq<string>) {
    NewestOf(rows, Found(rows, q, now), ids) && |ids| == Least(size, |Found(rows, q, now)|)
  }

  lemma {:induction false} NewestExists(rows: Rows, s: set<string>) returns (newest: string)
    requires s != {} && s <= rows.Keys
    ensures newest in s && forall id :: id in s ==> NoNewer(rows, id, newest)
  {
    var first :| first in s;
    var rest := s - {first};
    newest := first;
    if rest != {} {
      var other := NewestExists(rows, rest);
      if NoNewer(rows, first, other) { newest := other; }
    }
    assert forall id :: id in s ==> id == first || id in rest;
  }

  lemma ElementsCount(ids: seq<string>)
    requires forall i, j :: 0 <= i < j < |ids| ==> ids[i] != ids[j]
    ensures |set i | 0 <= i < |ids| :: ids[i]| == |ids|
  {
    if ids != [] {
      var n := |ids| - 1;
      ElementsCount(ids[..n]);
      var before := set i | 0 <= i < n :: ids[..n][i];
      assert (set i | 0 <= i < |ids| :: ids[i]) == before + {ids[n]} && ids[n] !in before;
    }
  }

  /** A message found is on the page if fewer than a page of the others are as new, and only if fewer are newer. */
  lemma OnPageByAge(rows: Rows, q: Query, now: int, size: nat, ids: seq<string>, id: string)
    requires Page(rows, q, now, size, ids) && id in Found(rows, q, now)
    ensures id in ids ==> |set o | o in Found(rows, q, now) && !NoNewer(rows, o, id)| < size
    ensures |set o | o in Found(rows, q, now) && o != id && NoNewer(rows, id, o)| < size ==> id in ids
  {
    hide Matches;
    var found := Found(rows, q, now);
    ElementsCount(ids);
    var returned := set i | 0 <= i < |ids| :: ids[i];
    assert returned <= found && forall o :: o in returned <==> o in ids;
    if id in ids {
      var newer := set o | o in found && !NoNewer(rows, o, id);
      assert newer <= returned - {id};
      SubsetCounts(newer, returned - {id});
    } else {
      var asNew := set o | o in found && o != id && NoNewer(rows, id, o);
      assert returned <= asNew;
      SubsetCounts(returned, asNew);
      assert returned < found;
      SubsetCounts(returned + {id}, found);
    }
  }

  lemma SubsetCounts(a: set<string>, b: set<string>)
    requires a <= b
    ensures |a| <= |b|
  {
    assert b == a + (b - a);
  }

  predicate RecordMatches(r: Record, q: Query, now: int) {
    && InScope(r.guild, r.channel, r.author, r.createdAt, q)
    && r.text != "" && now < r.retentionUntil && Contains(r.text, q.text)
  }

  lemma FoundOrigin(ops: seq<Op>, q: Query, now: int, id: string) returns (k: nat)
    requires id in Found(After(ops), q, now)
    ensures Standing(ops, k, id) && k < |ops| && ops[k].Keep? && RecordMatches(ops[k].record, q, now)
  {
    hide After, Contains, InScope;
    k := StandingOrigin(ops, id);
    StandingStands(ops, k, id);
  }

  lemma StandingIsFound(ops: seq<Op>, q: Query, now: int, id: string, k: int)
    requires Standing(ops, k, id) && RecordMatches(ops[k].record, q, now)
    ensures id in Found(After(ops), q, now)
  {
    hide After, Contains, InScope;
    StandingStands(ops, k, id);
  }

  /** A search finds a message exactly when the recording that stands kept its text, contains the query and has not
      expired; nothing else is ever found. */
  lemma FoundIffStanding(ops: seq<Op>, q: Query, now: int, id: string)
    ensures id in Found(After(ops), q, now) <==>
      exists k :: Standing(ops, k, id) && RecordMatches(ops[k].record, q, now)
  {
    if id in Found(After(ops), q, now) {
      var k := FoundOrigin(ops, q, now, id);
    }
    if k :| Standing(ops, k, id) && RecordMatches(ops[k].record, q, now) {
      StandingIsFound(ops, q, now, id, k);
    }
  }

  // ---- Recording ----

  function NormalizeRecord(c: Coding, r: Record): Option<Record> {
    var n := Record(TrimSpace(r.id), TrimSpace(r.guild), TrimSpace(r.channel), TrimSpace(r.author),
                    NormalizeText(c.lower, r.text), TrimSpace(r.hash), r.createdAt, r.retentionUntil);
    if n.id == "" || n.guild == "" || n.channel == "" || n.author == "" || n.createdAt == 0 then None
    else if n.retentionUntil == 0 || n.retentionUntil <= n.createdAt then None
    else Some(if n.hash == "" then n.(hash := HashText(c, n.text)) else n)
  }

  function HashText(c: Coding, s: string): string {
    c.hash(NormalizeText(c.lower, s))
  }

  // ---- The store ----

  /** The policy tables: channels by guild and channel, and the guilds' retention. */
  datatype Policies = Policies(channels: map<(string, string), ChannelPolicy>, guildDays: map<string, int>)

  function PolicyFor(p: Policies, guild: string, channel: string): Option<ChannelPolicy> {
    var key := (TrimSpace(guild), TrimSpace(channel));
    if key in p.channels then Some(p.channels[key]) else None
  }

  const DEFAULT_RETENTION_DAYS := 90

  function DaysFor(p: Policies, guild: string): int {
    if TrimSpace(guild) in p.guildDays then p.guildDays[TrimSpace(guild)] else DEFAULT_RETENTION_DAYS
  }

  datatype PolicyRequest = PolicyRequest(guild: string, channel: string, actor: string, policy: ChannelPolicy)

  /** Days outside 0 to 365, and blank ids, are refused. */
  predicate Accepts(req: PolicyRequest) {
    && TrimSpace(req.guild) != "" && TrimSpace(req.channel) != "" && TrimSpace(req.actor) != ""
    && 0 <= req.policy.retentionDays <= 365
  }

  function Upserted(p: Policies, req: PolicyRequest): Policies {
    if Accepts(req) then p.(channels := p.channels[(TrimSpace(req.guild), TrimSpace(req.channel)) := req.policy]) else p
  }

  class SQLStore {
    const coding: Coding
    var rows: Rows
    var policies: Policies

    /** Every write that took place. */
    ghost var ops: seq<Op>

    ghost predicate Valid()
      reads this
    {
      rows == After(ops)
    }

    constructor (coding: Coding)
      ensures Valid() && ops == [] && this.coding == coding
    {
      this.coding := coding;
      rows, policies, ops := map[], Policies(map[], map[]), [];
    }

    method RecordMessage(record: Record, fate: Fate) returns (ok: bool)
      requires Valid()
      modifies this`rows, this`ops
      ensures Valid()
      ensures var n := NormalizeRecord(coding, record);
              && (ok <==> n.Some? && fate == Done)
              && ops == old(ops) + if n.Some? && fate != Undone then [Keep(n.value)] else []
    {
      hide NormalizeRecord;
      var n := NormalizeRecord(coding, record);
      if n.None? { return false; }
      var r := n.value;
      if fate != Undone {
        ops := ops + [Keep(r)];
        assert ops[..|ops| - 1] == old(ops);
        if r.id !in rows || rows[r.id].deletedAt.None? {
          rows := rows[r.id := RowOf(r)];
        }
      }
      ok := fate == Done;
    }

    /** Without a time of its own a deletion takes the clock's. */
    method DeleteMessage(guild: string, id: string, at: int, clock: int, fate: Fate) returns (ok: bool)
      requires Valid()
      modifies this`rows, this`ops
      ensures Valid()
      ensures var op := Forget(TrimSpace(guild), TrimSpace(id), if at == 0 then clock else at);
              && (ok <==> op.guild != "" && op.id != "" && fate == Done)
              && ops == old(ops) + if op.guild != "" && op.id != "" && fate != Undone then [op] else []
    {
      var g, m := TrimSpace(guild), TrimSpace(id);
      if g == "" || m == "" { return false; }
      var deletedAt := if at == 0 then clock else at;
      if fate != Undone {
        ops := ops + [Forget(g, m, deletedAt)];
        assert ops[..|ops| - 1] == old(ops);
        if m in rows && rows[m].guild == g {
          rows := rows[m := rows[m].(text := None, hash := "", deletedAt := Some(deletedAt))];
        }
      }
      ok := fate == Done;
    }

    /** The number purged, unless it is not told. */
    method PurgeExpiredMessages(now: int, clock: int, fate: Fate) returns (purged: Option<nat>)
      requires Valid()
      modifies this`rows, this`ops
      ensures Valid() && ops == old(ops) + if fate == Undone then [] else [Purge(if now == 0 then clock else now)]
      ensures purged.Some? <==> fate == Done
      ensures purged.Some? ==> purged.value == |old(rows)| - |rows|
    {
      if fate == Undone { return None; }
      var until := if now == 0 then clock else now;
      ops := ops + [Purge(until)];
      assert ops[..|ops| - 1] == old(ops);
      var left := map id | id in rows && until < rows[id].retentionUntil :: rows[id];
      FewerLeft(rows, left);
      var count := |rows| - |left|;
      rows := left;
      purged := if fate == Done then Some(count) else None;
    }

    method UpsertChannelPolicy(req: PolicyRequest, fate: Fate) returns (ok: bool)
      modifies this`policies
      ensures ok == (Accepts(req) && fate == Done)
      ensures policies == if fate == Undone then old(policies) else Upserted(old(policies), req)
    {
      var g, c := TrimSpace(req.guild), TrimSpace(req.channel);
      if g == "" || c == "" || TrimSpace(req.actor) == "" || !(0 <= req.policy.retentionDays <= 365) { return false; }
      if fate != Undone { policies := policies.(channels := policies.channels[(g, c) := req.policy]); }
      ok := fate == Done;
    }

    /** Order by date, newest first, up to a limit. */
    method SelectNewest(found: set<string>, size: nat) returns (page: seq<string>)
      requires found <= rows.Keys
      ensures NewestOf(rows, found, page) && |page| == Least(size, |found|)
    {
      page := [];
      var rest := found;
      while rest != {} && |page| < size
        invariant rest <= found && |page| + |rest| == |found| && |page| <= size
        invariant forall id :: id in found ==> (id in rest <==> id !in page)
        invariant NewestOf(rows, found, page)
      {
        ghost var max := NewestExists(rows, rest);
        var newest :| newest in rest && forall id :: id in rest ==> NoNewer(rows, id, newest);
        page := page + [newest];
        rest := rest - {newest};
      }
    }

    method SearchMessages(req: SearchRequest, now: int, fault: bool) returns (ids: Option<seq<string>>)
      requires Valid()
      ensures var q := NormalizeSearch(coding, req);
              && (ids.None? <==> q.None? || fault)
              && (ids.Some? ==> Page(After(ops), q.value, now, PageSize(req.limit), ids.value))
    {
      hide After, NormalizeSearch;
      var q := NormalizeSearch(coding, req);
      if q.None? || fault { return None; }
      var found := set id | id in rows && Matches(rows[id], q.value, now);
      assert found == Found(rows, q.value, now);
      hide Found, Matches;
      var page := SelectNewest(found, PageSize(req.limit));
      ids := Some(page);
    }
  }

  lemma FewerLeft(rows: Rows, left: Rows)
    requires left.Keys <= rows.Keys
    ensures |left| <= |rows|
  {
    SubsetCounts(left.Keys, rows.Keys);
    assert |left| == |left.Keys| && |rows| == |rows.Keys|;
  }
}
