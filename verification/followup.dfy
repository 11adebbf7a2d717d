/** The follow-up cache of internal/agent/followup.go, against the plain history of its saves. */
module FollowUps {
  import opened Outcome
  import opened SessionState
  import opened Text

  /** A follow-up scope; requests with a blank part have none. */
  datatype Key = Key(guildID: string, channelID: string, actorID: string)

  datatype ToolResult = ToolResult(name: string, summary: string, data: Option<map<string, string>>)

  /** Times are integers; 0 is Go's zero time. */
  datatype Snapshot = Snapshot(
    runID: string, intent: string, results: seq<ToolResult>, text: string, seen: map<string, string>, createdAt: int)

  datatype Entry = Entry(snapshot: Snapshot, savedAt: int, sequence: nat)

  /** One effective save, as the history remembers it. */
  datatype SaveRecord = SaveRecord(key: Key, snapshot: Snapshot, at: int)

  /** Whose follow-up is asked for. */
  datatype Request = Request(guildID: string, channelID: string, actorID: string)

  function KeyOf(r: Request): (key: Option<Key>)
    ensures key.Some? <==> TrimSpace(r.guildID) != "" && TrimSpace(r.channelID) != "" && TrimSpace(r.actorID) != ""
  {
    if TrimSpace(r.guildID) == "" || TrimSpace(r.channelID) == "" || TrimSpace(r.actorID) == "" then None
    else Some(Key(r.guildID, r.channelID, r.actorID))
  }

  // ---- Snapshots ----

  function CopyResult(r: ToolResult): ToolResult {
    ToolResult(TrimSpace(r.name), TrimSpace(r.summary), r.data)
  }

  ghost predicate IsCopy(s: Snapshot, c: Snapshot) {
    && c.runID == TrimSpace(s.runID) && c.intent == TrimSpace(s.intent) && c.text == TrimSpace(s.text)
    && |c.results| == |s.results|
    && (forall i :: 0 <= i < |s.results| ==> c.results[i] == CopyResult(s.results[i]))
    && CleanCopy(s.seen, c.seen)
    && c.createdAt == s.createdAt
  }

  ghost predicate CleanSnapshot(s: Snapshot) {
    && Trimmed(s.runID) && Trimmed(s.intent) && Trimmed(s.text)
    && (forall i :: 0 <= i < |s.results| ==> Trimmed(s.results[i].name) && Trimmed(s.results[i].summary))
    && CleanMap(s.seen)
  }

  /** Saving copies a snapshot and loading copies it again; the second copy changes nothing. */
  lemma CopyIsClean(s: Snapshot, c: Snapshot)
    requires IsCopy(s, c)
    ensures forall at :: CleanSnapshot(c.(createdAt := at))
    ensures CleanSnapshot(s) ==> c == s
  {
    CleanCopyIsClean(s.seen, c.seen);
    if CleanSnapshot(s) {
      assert c.results == s.results;
    }
  }

  predicate EmptySnapshot(s: Snapshot) {
    s.intent == "" && s.results == [] && s.text == ""
  }

  method CopySnapshot(s: Snapshot) returns (c: Snapshot)
    ensures IsCopy(s, c)
  {
    var seen := CopySeen(s.seen);
    var results := [];
    for i := 0 to |s.results|
      invariant |results| == i && forall j :: 0 <= j < i ==> results[j] == CopyResult(s.results[j])
    {
      results := results + [CopyResult(s.results[i])];
    }
    c := Snapshot(TrimSpace(s.runID), TrimSpace(s.intent), results, TrimSpace(s.text), seen, s.createdAt);
  }

  // ---- What the history says ----

  predicate Expired(ttl: int, at: int, now: int) {
    ttl > 0 && at != 0 && now - at > ttl
  }

  /** Entry i is the last save of its key. */
  predicate LastSave(h: seq<SaveRecord>, key: Key, i: int) {
    0 <= i < |h| && h[i].key == key && forall j :: i < j < |h| ==> h[j].key != key
  }

  /** The keys saved after entry i. */
  function Later(h: seq<SaveRecord>, i: int): set<Key>
    requires 0 <= i < |h|
  {
    set j | i < j < |h| && h[j].key != h[i].key :: h[j].key
  }

  /** At least maxEntries other keys were saved since; without a maximum, nothing is ever crowded out. */
  predicate Crowded(h: seq<SaveRecord>, i: int, maxEntries: int)
    requires 0 <= i < |h|
  {
    maxEntries > 0 && |Later(h, i)| >= maxEntries
  }

  /** What an unbounded history would answer: the last save of the key, unless expired or crowded out. */
  ghost predicate Available(h: seq<SaveRecord>, key: Key, ttl: int, maxEntries: int, now: int, i: int) {
    LastSave(h, key, i) && !Expired(ttl, h[i].at, now) && !Crowded(h, i, maxEntries)
  }

  // ---- How the map relates to the history ----

  /** Every entry of the map is the last save of its key. */
  ghost predicate Faithful(items: map<Key, Entry>, h: seq<SaveRecord>) {
    forall k :: k in items ==>
      && LastSave(h, k, items[k].sequence - 1)
      && h[items[k].sequence - 1] == SaveRecord(k, items[k].snapshot, items[k].savedAt)
  }

  /** A last save that is missing from the map has expired or was crowded out. */
  ghost predicate Complete(items: map<Key, Entry>, h: seq<SaveRecord>, ttl: int, maxEntries: int, clock: int) {
    forall i :: 0 <= i < |h| && LastSave(h, h[i].key, i) ==>
      h[i].key in items || Expired(ttl, h[i].at, clock) || Crowded(h, i, maxEntries)
  }

  ghost predicate Timely(h: seq<SaveRecord>, clock: int) {
    && (forall i :: 0 <= i < |h| ==> 0 < h[i].at <= clock && CleanSnapshot(h[i].snapshot))
    && (forall i, j :: 0 <= i < j < |h| ==> h[i].at <= h[j].at)
  }

  ghost predicate Agrees(items: map<Key, Entry>, h: seq<SaveRecord>, ttl: int, maxEntries: int, clock: int) {
    && Faithful(items, h)
    && Complete(items, h, ttl, maxEntries, clock)
    && Timely(h, clock)
    && (maxEntries > 0 ==> |items| <= maxEntries)
  }

  function Newer(items: map<Key, Entry>, i: int): set<Key> {
    set k | k in items && items[k].sequence - 1 > i
  }

  lemma HasLastSave(h: seq<SaveRecord>, i: nat) returns (last: nat)
    requires i < |h|
    ensures i <= last && LastSave(h, h[i].key, last)
    decreases |h| - i
  {
    last := i;
    if j :| i < j < |h| && h[j].key == h[i].key {
      last := HasLastSave(h, j);
    }
  }

  lemma SubsetSize<T>(a: set<T>, b: set<T>)
    requires a <= b
    ensures |a| <= |b|
  {
    assert b == a + (b - a);
  }

  /** Behind a crowded, unexpired save the map itself holds maxEntries newer keys, even where lazy deletion has
      taken some newer entries out of it. */
  lemma {:induction false} CrowdedMeansFull(items: map<Key, Entry>, h: seq<SaveRecord>, ttl: int, maxEntries: int,
                                            clock: int, i: nat)
    requires Agrees(items, h, ttl, maxEntries, clock)
    requires i < |h| && !Expired(ttl, h[i].at, clock) && Crowded(h, i, maxEntries)
    ensures |Newer(items, i)| >= maxEntries
    decreases |h| - i
  {
    if missing :| missing in Later(h, i) && missing !in Newer(items, i) {
      var j :| i < j < |h| && h[j].key == missing;
      var last := HasLastSave(h, j);
      assert missing !in items;
      CrowdedMeansFull(items, h, ttl, maxEntries, clock, last);
      SubsetSize(Newer(items, last), Newer(items, i));
    } else {
      SubsetSize(Later(h, i), Newer(items, i));
    }
  }

  /** The map holds an unexpired last save exactly when it was not crowded out. */
  lemma HeldIffNotCrowded(items: map<Key, Entry>, h: seq<SaveRecord>, ttl: int, maxEntries: int, clock: int, now: int,
                          key: Key, i: nat)
    requires Agrees(items, h, ttl, maxEntries, clock) && clock <= now
    requires LastSave(h, key, i) && !Expired(ttl, h[i].at, now)
    ensures key in items <==> !Crowded(h, i, maxEntries)
  {
    if key in items && Crowded(h, i, maxEntries) {
      assert items[key].sequence - 1 == i;
      CrowdedMeansFull(items, h, ttl, maxEntries, clock, i);
      SubsetSize(Newer(items, i) + {key}, items.Keys);
    }
  }

  /** The answer to a load that the history of saves determines. */
  ghost predicate Answers(h: seq<SaveRecord>, key: Key, ttl: int, maxEntries: int, now: int, found: Option<Snapshot>) {
    && (found.Some? <==> exists i :: Available(h, key, ttl, maxEntries, now, i))
    && (found.Some? ==> forall i :: LastSave(h, key, i) ==> found.value == h[i].snapshot)
  }

  /** So the map answers exactly what the history answers. */
  lemma AnswersAgree(items: map<Key, Entry>, h: seq<SaveRecord>, ttl: int, maxEntries: int, clock: int, now: int,
                     key: Key)
    requires Agrees(items, h, ttl, maxEntries, clock) && clock <= now
    ensures Answers(h, key, ttl, maxEntries, now,
                    if key in items && !Expired(ttl, items[key].savedAt, now) then Some(items[key].snapshot) else None)
    ensures key in items ==> CleanSnapshot(items[key].snapshot)
  {
    hide CleanSnapshot, Complete, Timely, Crowded, LastSave;
    if key in items { HeldSave(items, h, ttl, maxEntries, clock, key); }
    if i :| Available(h, key, ttl, maxEntries, now, i) {
      AvailableIsHeld(items, h, ttl, maxEntries, clock, now, key, i);
    }
    if key in items && !Expired(ttl, items[key].savedAt, now) {
      HeldIffNotCrowded(items, h, ttl, maxEntries, clock, now, key, items[key].sequence - 1);
      assert Available(h, key, ttl, maxEntries, now, items[key].sequence - 1);
    }
  }

  /** An entry of the map is its key's only last save. */
  lemma HeldSave(items: map<Key, Entry>, h: seq<SaveRecord>, ttl: int, maxEntries: int, clock: int, key: Key)
    requires Agrees(items, h, ttl, maxEntries, clock) && key in items
    ensures var i := items[key].sequence - 1;
            && 0 <= i < |h| && LastSave(h, key, i) && h[i] == SaveRecord(key, items[key].snapshot, items[key].savedAt)
            && CleanSnapshot(items[key].snapshot) && forall j :: LastSave(h, key, j) ==> j == i
  {
    hide CleanSnapshot, Complete;
  }

  lemma AvailableIsHeld(items: map<Key, Entry>, h: seq<SaveRecord>, ttl: int, maxEntries: int, clock: int, now: int,
                        key: Key, i: int)
    requires Agrees(items, h, ttl, maxEntries, clock) && clock <= now && Available(h, key, ttl, maxEntries, now, i)
    ensures key in items && items[key].sequence - 1 == i && !Expired(ttl, items[key].savedAt, now)
  {
    HeldIffNotCrowded(items, h, ttl, maxEntries, clock, now, key, i);
    HeldSave(items, h, ttl, maxEntries, clock, key);
    hide Complete, Timely, Crowded;
  }

  // ---- How saves, deletions and time keep the relation ----

  lemma TimeAgrees(items: map<Key, Entry>, h: seq<SaveRecord>, ttl: int, maxEntries: int, clock: int, now: int)
    requires Agrees(items, h, ttl, maxEntries, clock) && clock <= now
    ensures Agrees(items, h, ttl, maxEntries, now)
  {
  }

  lemma LazyDeletionAgrees(items: map<Key, Entry>, h: seq<SaveRecord>, ttl: int, maxEntries: int, now: int, key: Key)
    requires Agrees(items, h, ttl, maxEntries, now)
    requires key in items && Expired(ttl, items[key].savedAt, now)
    ensures Agrees(items - {key}, h, ttl, maxEntries, now)
  {
    SubsetSize((items - {key}).Keys, items.Keys);
    hide CleanSnapshot, Crowded, LastSave, Timely, Complete, Faithful;
    DropFaithful(items, h, key);
    DropComplete(items, h, ttl, maxEntries, now, key);
  }

  lemma DropFaithful(items: map<Key, Entry>, h: seq<SaveRecord>, key: Key)
    requires Faithful(items, h)
    ensures Faithful(items - {key}, h)
  {
    hide LastSave;
  }

  lemma DropComplete(items: map<Key, Entry>, h: seq<SaveRecord>, ttl: int, maxEntries: int, now: int, key: Key)
    requires Faithful(items, h) && Complete(items, h, ttl, maxEntries, now)
    requires key in items && Expired(ttl, items[key].savedAt, now)
    ensures Complete(items - {key}, h, ttl, maxEntries, now)
  {
    forall i | 0 <= i < |h| && LastSave(h, h[i].key, i)
      ensures h[i].key in items - {key} || Expired(ttl, h[i].at, now) || Crowded(h, i, maxEntries)
    {
      if h[i].key == key { assert items[key].sequence - 1 == i; }
    }
  }

  lemma InsertIsFaithful(items: map<Key, Entry>, h: seq<SaveRecord>, s: SaveRecord)
    requires Faithful(items, h)
    ensures Faithful(items[s.key := Entry(s.snapshot, s.at, |h| + 1)], h + [s])
  {
    var items', h' := items[s.key := Entry(s.snapshot, s.at, |h| + 1)], h + [s];
    forall k | k in items'
      ensures LastSave(h', k, items'[k].sequence - 1)
    {
      if k != s.key {
        assert LastSave(h, k, items[k].sequence - 1);
      }
    }
  }

  lemma InsertIsComplete(items: map<Key, Entry>, h: seq<SaveRecord>, ttl: int, maxEntries: int, clock: int, s: SaveRecord)
    requires Complete(items, h, ttl, maxEntries, clock) && Timely(h, clock) && clock <= s.at
    ensures Complete(items[s.key := Entry(s.snapshot, s.at, |h| + 1)], h + [s], ttl, maxEntries, s.at)
  {
    var items', h' := items[s.key := Entry(s.snapshot, s.at, |h| + 1)], h + [s];
    forall i | 0 <= i < |h'| && LastSave(h', h'[i].key, i)
      ensures h'[i].key in items' || Expired(ttl, h'[i].at, s.at) || Crowded(h', i, maxEntries)
    {
      if i < |h| {
        LastSaveBefore(h, s, i);
        LaterGrows(h, s, i);
      }
    }
  }

  lemma LastSaveBefore(h: seq<SaveRecord>, s: SaveRecord, i: nat)
    requires i < |h| && LastSave(h + [s], h[i].key, i)
    ensures LastSave(h, h[i].key, i) && s.key != h[i].key
  {
    assert (h + [s])[|h|] == s;
    forall j | i < j < |h|
      ensures h[j].key != h[i].key
    {
      assert (h + [s])[j] == h[j];
    }
  }

  lemma LaterGrows(h: seq<SaveRecord>, s: SaveRecord, i: nat)
    requires i < |h|
    ensures |Later(h, i)| <= |Later(h + [s], i)|
  {
    var h' := h + [s];
    forall key | key in Later(h, i)
      ensures key in Later(h', i)
    {
      var j :| i < j < |h| && h[j].key != h[i].key && h[j].key == key;
      assert h'[j] == h[j];
    }
    SubsetSize(Later(h, i), Later(h', i));
  }

  function Unexpired(items: map<Key, Entry>, ttl: int, now: int): map<Key, Entry> {
    map k | k in items && !Expired(ttl, items[k].savedAt, now) :: items[k]
  }

  lemma PurgeAgrees(items: map<Key, Entry>, h: seq<SaveRecord>, ttl: int, maxEntries: int, now: int)
    requires Faithful(items, h) && Complete(items, h, ttl, maxEntries, now)
    ensures Faithful(Unexpired(items, ttl, now), h) && Complete(Unexpired(items, ttl, now), h, ttl, maxEntries, now)
  {
    var items' := Unexpired(items, ttl, now);
    forall i | 0 <= i < |h| && LastSave(h, h[i].key, i)
      ensures h[i].key in items' || Expired(ttl, h[i].at, now) || Crowded(h, i, maxEntries)
    {
      if h[i].key in items {
        assert items[h[i].key].sequence - 1 == i;
      }
    }
  }

  /** A whole effective save, on values: insert, purge, trim. */
  lemma SaveAgrees(items: map<Key, Entry>, h: seq<SaveRecord>, ttl: int, maxEntries: int, clock: int, s: SaveRecord,
                   items': map<Key, Entry>)
    requires Agrees(items, h, ttl, maxEntries, clock) && clock <= s.at && 0 < s.at && CleanSnapshot(s.snapshot)
    requires Kept(Unexpired(items[s.key := Entry(s.snapshot, s.at, |h| + 1)], ttl, s.at), items', maxEntries)
    ensures Agrees(items', h + [s], ttl, maxEntries, s.at)
    ensures s.key in items' && items'[s.key] == Entry(s.snapshot, s.at, |h| + 1)
  {
    hide CleanSnapshot, LastSave, Crowded, Faithful, Complete, Timely, Kept;
    var inserted := items[s.key := Entry(s.snapshot, s.at, |h| + 1)];
    InsertIsFaithful(items, h, s);
    InsertIsComplete(items, h, ttl, maxEntries, clock, s);
    TimelyGrows(h, clock, s);
    PurgeAgrees(inserted, h + [s], ttl, maxEntries, s.at);
    var purged := Unexpired(inserted, ttl, s.at);
    TrimAgrees(purged, h + [s], ttl, maxEntries, s.at, items');
    NewestSurvives(purged, h + [s], maxEntries, items', s.key);
  }

  lemma TimelyGrows(h: seq<SaveRecord>, clock: int, s: SaveRecord)
    requires Timely(h, clock) && clock <= s.at && 0 < s.at && CleanSnapshot(s.snapshot)
    ensures Timely(h + [s], s.at)
  {
    hide CleanSnapshot;
  }

  /** The entry just saved has the highest sequence number, and at least one entry is kept. */
  lemma NewestSurvives(items: map<Key, Entry>, h: seq<SaveRecord>, maxEntries: int, items': map<Key, Entry>, key: Key)
    requires Faithful(items, h) && Kept(items, items', maxEntries)
    requires key in items && items[key].sequence == |h|
    ensures key in items' && items'[key] == items[key]
  {
  }

  /** Trimming to the newest maxEntries keeps the relation: what it drops is crowded out. */
  lemma TrimAgrees(items: map<Key, Entry>, h: seq<SaveRecord>, ttl: int, maxEntries: int, clock: int,
                   items': map<Key, Entry>)
    requires Faithful(items, h) && Complete(items, h, ttl, maxEntries, clock) && Timely(h, clock)
    requires Kept(items, items', maxEntries)
    ensures Agrees(items', h, ttl, maxEntries, clock)
  {
    hide CleanSnapshot, Timely, Expired;
    forall i | 0 <= i < |h| && LastSave(h, h[i].key, i) && h[i].key in items && h[i].key !in items'
      ensures Crowded(h, i, maxEntries)
    {
      DroppedIsCrowded(items, h, maxEntries, items', i);
    }
    hide LastSave, Crowded;
  }

  lemma DroppedIsCrowded(items: map<Key, Entry>, h: seq<SaveRecord>, maxEntries: int, items': map<Key, Entry>, i: nat)
    requires Faithful(items, h) && Kept(items, items', maxEntries)
    requires i < |h| && LastSave(h, h[i].key, i) && h[i].key in items && h[i].key !in items'
    ensures Crowded(h, i, maxEntries)
  {
    var key := h[i].key;
    assert items[key].sequence - 1 == i;
    forall k | k in items'
      ensures k in Later(h, i)
    {
      assert h[items[k].sequence - 1].key == k;
    }
    SubsetSize(items'.Keys, Later(h, i));
  }

  /** The newest entries are kept: all of them, or as many as the maximum allows. */
  ghost predicate Kept(items: map<Key, Entry>, items': map<Key, Entry>, maxEntries: int) {
    && (forall k :: k in items' ==> k in items && items'[k] == items[k])
    && (forall k, gone :: k in items' && gone in items && gone !in items' ==> items[gone].sequence <= items[k].sequence)
    && (maxEntries <= 0 ==> items' == items)
    && (maxEntries > 0 ==> |items'| <= maxEntries)
    && (items' != items ==> |items'| == maxEntries)
  }

  class MemoryFollowUpStore {
    const ttl: int
    const maxEntries: int
    var sequence: nat
    var items: map<Key, Entry>

    ghost var history: seq<SaveRecord>
    ghost var clock: int

    ghost predicate Valid()
      reads this
    {
      sequence == |history| && Agrees(items, history, ttl, maxEntries, clock)
    }

    constructor (ttl: int, maxEntries: int)
      ensures Valid() && history == [] && clock == 0 && this.ttl == ttl && this.maxEntries == maxEntries
    {
      this.ttl, this.maxEntries := ttl, maxEntries;
      sequence, items := 0, map[];
      history, clock := [], 0;
    }

    /** Loading answers what the whole history of saves would answer. */
    method Load(request: Request, now: int) returns (found: Option<Snapshot>)
      requires Valid() && 0 < now && clock <= now
      modifies this
      ensures Valid() && history == old(history) && clock == now
      ensures var key := KeyOf(request);
              if key.None? then found == None else Answers(history, key.value, ttl, maxEntries, now, found)
    {
      hide Agrees, KeyOf;
      clock := now;
      TimeAgrees(items, history, ttl, maxEntries, old(clock), now);
      if KeyOf(request).None? { return None; }
      var key := KeyOf(request).value;
      AnswersAgree(items, history, ttl, maxEntries, now, now, key);
      if key !in items { return None; }
      var entry := items[key];
      if Expired(ttl, entry.savedAt, now) {
        LazyDeletionAgrees(items, history, ttl, maxEntries, now, key);
        items := items - {key};
        return None;
      }
      var copied := CopySnapshot(entry.snapshot);
      CopyIsClean(entry.snapshot, copied);
      found := Some(copied);
    }

    /** An effective save enters the history and is found in the map; the map stays within its bound. */
    method Save(request: Request, snapshot: Snapshot, now: int) returns (ghost copied: Snapshot)
      requires Valid() && 0 < now && clock <= now
      modifies this
      ensures Valid() && IsCopy(snapshot, copied)
      ensures KeyOf(request).None? || EmptySnapshot(copied) ==> history == old(history) && items == old(items)
      ensures KeyOf(request).Some? && !EmptySnapshot(copied) ==>
        var key := KeyOf(request).value;
        var saved := copied.(createdAt := if copied.createdAt == 0 then now else copied.createdAt);
        && history == old(history) + [SaveRecord(key, saved, now)]
        && key in items && items[key] == Entry(saved, now, |history|)
        && (maxEntries > 0 ==> |items| <= maxEntries)
      ensures clock == now
    {
      hide Agrees, Kept, Unexpired, IsCopy, CleanSnapshot, KeyOf;
      clock := now;
      TimeAgrees(items, history, ttl, maxEntries, old(clock), now);
      var snapshot' := CopySnapshot(snapshot);
      copied := snapshot';
      CopyIsClean(snapshot, snapshot');
      if KeyOf(request).None? || EmptySnapshot(snapshot') { return; }
      var key := KeyOf(request).value;
      snapshot' := snapshot'.(createdAt := if snapshot'.createdAt == 0 then now else snapshot'.createdAt);
      assert CleanSnapshot(snapshot');
      sequence := sequence + 1;
      items := items[key := Entry(snapshot', now, sequence)];
      Purge(now);
      Trim();
      SaveAgrees(old(items), history, ttl, maxEntries, now, SaveRecord(key, snapshot', now), items);
      history := history + [SaveRecord(key, snapshot', now)];
    }

    method Purge(now: int)
      modifies this`items
      ensures items == Unexpired(old(items), ttl, now)
    {
      var rest := items.Keys;
      while rest != {}
        invariant rest <= items.Keys
        invariant items == map k | k in old(items)
            && (k in rest || !Expired(ttl, old(items)[k].savedAt, now)) :: old(items)[k]
        decreases |rest|
      {
        var key :| key in rest;
        rest := rest - {key};
        if Expired(ttl, items[key].savedAt, now) { items := items - {key}; }
      }
    }

    method Trim()
      modifies this`items
      ensures Kept(old(items), items, maxEntries)
    {
      if maxEntries <= 0 { return; }
      while |items| > maxEntries
        invariant forall k :: k in items ==> k in old(items) && items[k] == old(items)[k]
        invariant forall k, gone :: k in items && gone in old(items) && gone !in items ==>
            old(items)[gone].sequence <= items[k].sequence
        invariant items != old(items) ==> |items| >= maxEntries
        decreases |items|
      {
        var rest := items.Keys;
        var oldest :| oldest in rest;
        rest := rest - {oldest};
        while rest != {}
          invariant oldest in items && rest <= items.Keys
          invariant forall k :: k in items && k !in rest ==> items[oldest].sequence <= items[k].sequence
          decreases |rest|
        {
          var key :| key in rest;
          rest := rest - {key};
          if items[key].sequence < items[oldest].sequence { oldest := key; }
        }
        items := items - {oldest};
      }
    }
  }
}
