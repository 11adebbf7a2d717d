/** The budgeted context packer of internal/contextbroker/packer.go. The hash is a parameter. */
module ContextPack {
  import opened Outcome
  import opened SessionState
  import opened Text

  type Hash = string -> string

  datatype Snippet = Snippet(
    id: string, source: string, channelID: string, authorID: string, text: string, createdAt: string,
    pinned: bool, stale: bool)

  datatype Status = New | Changed | Pinned | OmitUnchanged | OmitBudget

  datatype Citation = Citation(tag: string, sourceID: string, snippetID: string, source: string, createdAt: string)

  datatype Item = Item(
    status: Status, sourceID: string, snippet: Snippet, citation: Citation, restoreHandle: string, chars: nat,
    pinned: bool, stalePrevious: bool, stale: bool)

  datatype Omission = Omission(status: Status, sourceID: string, restoreHandle: string)

  datatype Invalidation = Invalidation(sourceID: string, previous: string, current: string, restoreHandle: string)

  datatype Pack = Pack(
    snippets: seq<Snippet>, items: seq<Item>, omitted: seq<Omission>, invalidations: seq<Invalidation>,
    citations: seq<Citation>, chars: nat, truncated: bool, seen: map<string, string>)

  // ---- Snippets ----

  function Normalize(s: Snippet): Snippet {
    s.(id := TrimSpace(s.id), source := TrimSpace(s.source), channelID := TrimSpace(s.channelID),
       authorID := TrimSpace(s.authorID), text := TrimSpace(s.text), createdAt := TrimSpace(s.createdAt))
  }

  function SourceID(h: Hash, s: Snippet): string {
    var n := Normalize(s);
    if n.source != "" && n.id != "" then n.source + ":" + n.id
    else if n.source != "" then n.source
    else if n.id != "" then n.id
    else "snippet:" + h(n.text)
  }

  function Fingerprint(h: Hash, s: Snippet): string {
    var n := Normalize(s);
    h(SourceID(h, n) + "\0" + n.authorID + "\0" + n.createdAt + "\0" + n.text)
  }

  function RestoreHandle(h: Hash, sourceID: string, fingerprint: string): string {
    "ctx:" + h(TrimSpace(sourceID) + "\0" + TrimSpace(fingerprint))
  }

  /** At most limit characters: the value itself, or a trimmed prefix with an ellipsis. */
  function TruncateRunes(value: string, limit: int): (r: string)
    ensures |value| <= limit ==> r == value
    ensures 0 < limit ==> |r| <= limit
  {
    if limit <= 0 || |value| <= limit then value
    else if limit <= 3 then value[..limit]
    else TrimSpace(value[..limit - 3]) + "..."
  }

  /** A value cut short keeps a prefix of itself, and ends with the ellipsis where there is room for one. */
  lemma CutKeepsPrefix(value: string, limit: int)
    requires 0 < limit < |value| && Trimmed(value)
    ensures var r := TruncateRunes(value, limit);
            if limit <= 3 then r <= value && |r| == limit
            else 3 <= |r| && r[|r| - 3..] == "..." && r[..|r| - 3] <= value[..limit - 3]
  {
    if limit > 3 {
      var head := value[..limit - 3];
      var i, j := TrimDropsOnly(IsSpace, head);
      assert head[0] == value[0] && !IsSpace(head[0]);
      var r := TruncateRunes(value, limit);
      assert r[..|r| - 3] == TrimSpace(head) == head[i..j];
    }
  }

  // ---- Order ----

  function Keep(s: seq<Snippet>, pinned: bool): seq<Snippet> {
    if s == [] then []
    else Keep(s[..|s| - 1], pinned) + (if s[|s| - 1].pinned == pinned then [s[|s| - 1]] else [])
  }

  function Prioritized(s: seq<Snippet>): seq<Snippet> {
    Keep(s, true) + Keep(s, false)
  }

  /** Prioritising is a stable partition: a permutation, given by where each snippet comes from, with the pinned ones
      first and the original order within either part. */
  lemma PinnedFirst(s: seq<Snippet>) returns (from: seq<nat>)
    ensures multiset(Prioritized(s)) == multiset(s) && |from| == |Prioritized(s)|
    ensures forall i :: 0 <= i < |from| ==> from[i] < |s| && Prioritized(s)[i] == s[from[i]]
    ensures forall i, j | 0 <= i < j < |from| :: Prioritized(s)[j].pinned ==> Prioritized(s)[i].pinned
    ensures forall i, j | 0 <= i < j < |from| ::
      Prioritized(s)[i].pinned == Prioritized(s)[j].pinned ==> from[i] < from[j]
  {
    KeepParts(s);
    KeepOnly(s, true);
    KeepOnly(s, false);
    var pinned := KeepOrigins(s, true);
    var others := KeepOrigins(s, false);
    hide Keep;
    from := pinned + others;
  }

  /** What is kept comes from ascending places. */
  lemma {:induction false} KeepOrigins(s: seq<Snippet>, pinned: bool) returns (from: seq<nat>)
    ensures |from| == |Keep(s, pinned)| && Increasing(from)
    ensures forall i :: 0 <= i < |from| ==> from[i] < |s| && Keep(s, pinned)[i] == s[from[i]]
  {
    if s == [] {
      from := [];
    } else {
      var n := |s| - 1;
      from := KeepOrigins(s[..n], pinned);
      KeepStep(s, pinned);
      hide Keep;
      if s[n].pinned == pinned { from := from + [n]; }
    }
  }

  predicate Increasing(s: seq<nat>) {
    forall i, j :: 0 <= i < j < |s| ==> s[i] < s[j]
  }

  lemma {:induction false} KeepParts(s: seq<Snippet>)
    ensures multiset(Keep(s, true)) + multiset(Keep(s, false)) == multiset(s)
  {
    if s != [] {
      var n := |s| - 1;
      KeepParts(s[..n]);
      assert s == s[..n] + [s[n]];
      KeepStep(s, s[n].pinned);
      KeepStep(s, !s[n].pinned);
      hide Keep;
    }
  }

  lemma KeepStep(s: seq<Snippet>, pinned: bool)
    requires s != []
    ensures Keep(s, pinned) == Keep(s[..|s| - 1], pinned) + (if s[|s| - 1].pinned == pinned then [s[|s| - 1]] else [])
  {
  }

  lemma {:induction false} KeepOnly(s: seq<Snippet>, pinned: bool)
    ensures forall i :: 0 <= i < |Keep(s, pinned)| ==> Keep(s, pinned)[i].pinned == pinned
  {
    if s != [] { KeepOnly(s[..|s| - 1], pinned); }
  }

  /** The snippets the packer looks at: normalised, in order, without blank ones. */
  function Usable(s: seq<Snippet>): seq<Snippet> {
    if s == [] then []
    else
      var n := Normalize(s[|s| - 1]);
      Usable(s[..|s| - 1]) + (if n.text == "" then [] else [n])
  }

  // ---- Delivery without a budget ----

  /** What the running state holds for the snippet's source. */
  function Previous(h: Hash, seen: map<string, string>, s: Snippet): Option<string> {
    if SourceID(h, s) in seen then Some(seen[SourceID(h, s)]) else None
  }

  predicate Unchanged(h: Hash, previous: Option<string>, s: Snippet) {
    !s.pinned && previous == Some(Fingerprint(h, s))
  }

  predicate Superseded(h: Hash, previous: Option<string>, s: Snippet) {
    !s.pinned && previous.Some? && previous.value != Fingerprint(h, s)
  }

  function ItemOf(h: Hash, previous: Option<string>, s: Snippet, text: string, number: nat): Item {
    var id := SourceID(h, s);
    var stalePrevious := Superseded(h, previous, s);
    Item(if s.pinned then Pinned else if s.stale || stalePrevious then Changed else New,
         id, s.(text := text), Citation("S" + Decimal(number), id, s.id, s.source, s.createdAt),
         RestoreHandle(h, id, Fingerprint(h, s)), |text|, s.pinned, stalePrevious, s.stale)
  }

  function InvalidationOf(h: Hash, previous: Option<string>, s: Snippet): seq<Invalidation> {
    var id := SourceID(h, s);
    if !Superseded(h, previous, s) then []
    else [Invalidation(id, previous.value, Fingerprint(h, s), RestoreHandle(h, id, previous.value))]
  }

  function OmissionOf(h: Hash, s: Snippet, status: Status): Omission {
    Omission(status, SourceID(h, s), RestoreHandle(h, SourceID(h, s), Fingerprint(h, s)))
  }

  function Remember(h: Hash, p: Pack, s: Snippet): Pack {
    p.(seen := p.seen[SourceID(h, s) := Fingerprint(h, s)])
  }

  function Append(h: Hash, p: Pack, previous: Option<string>, s: Snippet, text: string): Pack {
    var item := ItemOf(h, previous, s, text, |p.citations| + 1);
    p.(snippets := p.snippets + [item.snippet], items := p.items + [item], citations := p.citations + [item.citation],
       invalidations := p.invalidations + InvalidationOf(h, previous, s))
  }

  function Add(h: Hash, p: Pack, s: Snippet, text: string): Pack {
    Remember(h, Append(h, p, Previous(h, p.seen, s), s, text).(chars := p.chars + |text|), s)
  }

  function Omit(h: Hash, p: Pack, s: Snippet, status: Status): Pack {
    Remember(h, p.(omitted := p.omitted + [OmissionOf(h, s, status)]), s)
  }

  function Deliver(h: Hash, p: Pack, s: Snippet): Pack {
    if Unchanged(h, Previous(h, p.seen, s), s) then Omit(h, p, s, OmitUnchanged) else Add(h, p, s, s.text)
  }

  /** The pack of all snippets of l, as if the budget were unlimited. */
  function Unbounded(h: Hash, base: map<string, string>, l: seq<Snippet>): Pack {
    if l == [] then Pack([], [], [], [], [], 0, false, base)
    else Deliver(h, Unbounded(h, base, l[..|l| - 1]), l[|l| - 1])
  }

  // ---- The budget ----

  /** The snippet that no longer fits: cut to the room left, or omitted when the room is at most three characters. */
  function Cut(h: Hash, p: Pack, s: Snippet, maxChars: int): Pack {
    var room := maxChars - p.chars;
    (if room > 3 then Add(h, p, s, TruncateRunes(s.text, room)) else Omit(h, p, s, OmitBudget)).(truncated := true)
  }

  /** n snippets were processed: all of them if they fit, or else up to the first that does not. */
  ghost predicate Packed(h: Hash, base: map<string, string>, l: seq<Snippet>, maxChars: int, n: nat, p: Pack) {
    if Unbounded(h, base, l).chars <= maxChars then n == |l| && p == Unbounded(h, base, l)
    else
      && 0 < n <= |l|
      && Unbounded(h, base, l[..n - 1]).chars <= maxChars < Unbounded(h, base, l[..n]).chars
      && p == Cut(h, Unbounded(h, base, l[..n - 1]), l[n - 1], maxChars)
  }

  function Budget(maxChars: int): int {
    if maxChars <= 0 then 4000 else maxChars
  }

  ghost predicate Built(h: Hash, snippets: seq<Snippet>, previous: map<string, string>, maxChars: int,
                        base: map<string, string>, n: nat, p: Pack) {
    CleanCopy(previous, base) && Packed(h, base, Usable(Prioritized(snippets)), Budget(maxChars), n, p)
  }

  lemma {:induction false} CharsGrow(h: Hash, base: map<string, string>, l: seq<Snippet>, n: nat)
    requires n <= |l|
    ensures Unbounded(h, base, l[..n]).chars <= Unbounded(h, base, l).chars
    decreases |l|
  {
    hide Unbounded, Deliver;
    if n < |l| {
      var m := |l| - 1;
      CharsGrow(h, base, l[..m], n);
      assert l[..m][..n] == l[..n];
      assert l == l[..m] + [l[m]];
      UnboundedStep(h, base, l[..m], l[m]);
      DeliverAdds(h, Unbounded(h, base, l[..m]), l[m]);
    } else {
      assert l[..n] == l;
    }
  }

  lemma DeliverAdds(h: Hash, p: Pack, s: Snippet)
    ensures p.chars <= Deliver(h, p, s).chars && Deliver(h, p, s).truncated == p.truncated
  {
    hide SourceID, Fingerprint, RestoreHandle, ItemOf, InvalidationOf, OmissionOf, Unchanged;
  }

  // ---- The packer ----

  class Packer {
    const h: Hash
    var pack: Pack

    constructor (h: Hash, seen: map<string, string>)
      ensures this.h == h && pack == Unbounded(h, seen, [])
    {
      this.h := h;
      pack := Pack([], [], [], [], [], 0, false, seen);
    }

    method AppendItem(s: Snippet, text: string, id: string, fingerprint: string, previous: Option<string>)
      requires id == SourceID(h, s) && fingerprint == Fingerprint(h, s)
      modifies this
      ensures pack == Append(h, old(pack), previous, s, text)
    {
      hide SourceID, Fingerprint, RestoreHandle, Decimal;
      var status := New;
      var stalePrevious := false;
      if s.pinned {
        status := Pinned;
      } else if s.stale || (previous.Some? && previous.value != fingerprint) {
        status := Changed;
        stalePrevious := previous.Some? && previous.value != fingerprint;
      }
      if stalePrevious {
        var invalidation := Invalidation(id, previous.value, fingerprint, RestoreHandle(h, id, previous.value));
        pack := pack.(invalidations := pack.invalidations + [invalidation]);
      }
      var citation := Citation("S" + Decimal(|pack.citations| + 1), id, s.id, s.source, s.createdAt);
      var item := Item(status, id, s.(text := text), citation, RestoreHandle(h, id, fingerprint), |text|,
                       s.pinned, stalePrevious, s.stale);
      pack := pack.(citations := pack.citations + [citation], items := pack.items + [item],
                    snippets := pack.snippets + [item.snippet]);
    }

    /** One snippet of the loop; full says that it did not fit, which ends the loop. */
    method Process(s: Snippet, maxChars: int) returns (full: bool)
      modifies this
      ensures full <==> Deliver(h, old(pack), s).chars > maxChars && !Unchanged(h, Previous(h, old(pack).seen, s), s)
      ensures pack == if full then Cut(h, old(pack), s, maxChars) else Deliver(h, old(pack), s)
    {
      hide SourceID, Fingerprint, RestoreHandle, ItemOf, InvalidationOf, TruncateRunes;
      var id, fingerprint := SourceID(h, s), Fingerprint(h, s);
      var previous := if id in pack.seen then Some(pack.seen[id]) else None;
      pack := pack.(seen := pack.seen[id := fingerprint]);
      if previous == Some(fingerprint) && !s.pinned {
        pack := pack.(omitted := pack.omitted + [Omission(OmitUnchanged, id, RestoreHandle(h, id, fingerprint))]);
        return false;
      }
      var size := |s.text|;
      if pack.chars + size > maxChars {
        var remaining := maxChars - pack.chars;
        if remaining > 3 {
          var text := TruncateRunes(s.text, remaining);
          pack := pack.(chars := pack.chars + |text|);
          AppendItem(s, text, id, fingerprint, previous);
        } else {
          pack := pack.(omitted := pack.omitted + [Omission(OmitBudget, id, RestoreHandle(h, id, fingerprint))]);
        }
        pack := pack.(truncated := true);
        return true;
      }
      pack := pack.(chars := pack.chars + size);
      AppendItem(s, s.text, id, fingerprint, previous);
      return false;
    }
  }

  method PrioritizeSnippets(snippets: seq<Snippet>) returns (ordered: seq<Snippet>)
    ensures ordered == Prioritized(snippets)
  {
    ordered := [];
    for i := 0 to |snippets|
      invariant ordered == Keep(snippets[..i], true)
    {
      assert snippets[..i + 1][..i] == snippets[..i];
      if snippets[i].pinned { ordered := ordered + [snippets[i]]; }
    }
    assert snippets[..|snippets|] == snippets;
    ghost var pinned := ordered;
    for i := 0 to |snippets|
      invariant ordered == pinned + Keep(snippets[..i], false)
    {
      assert snippets[..i + 1][..i] == snippets[..i];
      if !snippets[i].pinned { ordered := ordered + [snippets[i]]; }
    }
  }

  /** The running state and the state handed on are one map, so each snippet is compared with what the snippets
      before it left behind. */
  method BuildPack(h: Hash, snippets: seq<Snippet>, previous: map<string, string>, maxChars: int)
    returns (pack: Pack)
    ensures exists base, n :: Built(h, snippets, previous, maxChars, base, n, pack)
  {
    hide *;
    var limit := Budget(maxChars);
    var seen := CopySeen(previous);
    ghost var base := seen;
    var ordered := PrioritizeSnippets(snippets);
    var packer := new Packer(h, seen);
    ghost var done: seq<Snippet> := [];
    NothingProcessed(h, base, ordered, maxChars);
    for i := 0 to |ordered|
      invariant done == Usable(ordered[..i])
      invariant packer.h == h && fresh(packer)
      invariant packer.pack == Unbounded(h, base, done) && packer.pack.chars <= limit
    {
      UsablePrefix(ordered, i);
      var snippet := Normalize(ordered[i]);
      if snippet.text == "" { continue; }
      UnboundedStep(h, base, done, snippet);
      UnchangedCostsNothing(h, packer.pack, snippet);
      var full := packer.Process(snippet, limit);
      if full {
        FullIsPacked(h, snippets, previous, maxChars, base, i, packer.pack);
        return packer.pack;
      }
      done := done + [snippet];
    }
    assert ordered[..|ordered|] == ordered;
    pack := packer.pack;
    FittingIsPacked(h, snippets, previous, maxChars, base, pack);
  }

  lemma NothingProcessed(h: Hash, base: map<string, string>, s: seq<Snippet>, maxChars: int)
    ensures Usable(s[..0]) == [] && Unbounded(h, base, []).chars <= Budget(maxChars)
  {
  }

  lemma FittingIsPacked(h: Hash, snippets: seq<Snippet>, previous: map<string, string>, maxChars: int,
                        base: map<string, string>, p: Pack)
    requires CleanCopy(previous, base) && p.chars <= Budget(maxChars)
    requires p == Unbounded(h, base, Usable(Prioritized(snippets)))
    ensures Built(h, snippets, previous, maxChars, base, |Usable(Prioritized(snippets))|, p)
  {
  }

  lemma FullIsPacked(h: Hash, snippets: seq<Snippet>, previous: map<string, string>, maxChars: int,
                     base: map<string, string>, i: nat, p: Pack)
    requires CleanCopy(previous, base) && i < |Prioritized(snippets)| && Normalize(Prioritized(snippets)[i]).text != ""
    requires var before := Unbounded(h, base, Usable(Prioritized(snippets)[..i]));
             var s := Normalize(Prioritized(snippets)[i]);
             before.chars <= Budget(maxChars) < Deliver(h, before, s).chars && p == Cut(h, before, s, Budget(maxChars))
    ensures Built(h, snippets, previous, maxChars, base, |Usable(Prioritized(snippets)[..i])| + 1, p)
  {
    hide Normalize, Prioritized, Deliver, Cut, CleanCopy, Usable, Unbounded;
    var ordered := Prioritized(snippets);
    var l, done, s := Usable(ordered), Usable(ordered[..i]), Normalize(ordered[i]);
    UsablePrefix(ordered, i);
    var n := |done| + 1;
    assert l[..n] == done + [s];
    assert l[..n - 1] == l[..n][..n - 1] == done && l[n - 1] == l[..n][n - 1] == s;
    UnboundedStep(h, base, done, s);
    CharsGrow(h, base, l, n);
  }

  lemma UnboundedStep(h: Hash, base: map<string, string>, l: seq<Snippet>, s: Snippet)
    ensures Unbounded(h, base, l + [s]) == Deliver(h, Unbounded(h, base, l), s)
  {
    assert (l + [s])[..|l|] == l;
  }

  lemma UnchangedCostsNothing(h: Hash, p: Pack, s: Snippet)
    ensures Unchanged(h, Previous(h, p.seen, s), s) ==> Deliver(h, p, s).chars == p.chars
  {
  }

  lemma {:induction false} UsablePrefix(s: seq<Snippet>, i: nat)
    requires i < |s|
    ensures Usable(s[..i + 1]) == Usable(s[..i]) + (if Normalize(s[i]).text == "" then [] else [Normalize(s[i])])
    ensures Usable(s[..i]) <= Usable(s[..i + 1]) <= Usable(s)
    decreases |s|
  {
    hide Usable, Normalize;
    UsableStep(s[..i], s[i]);
    assert s[..i + 1] == s[..i] + [s[i]];
    if i + 1 < |s| {
      var n := |s| - 1;
      UsablePrefix(s[..n], i);
      assert s[..n][..i + 1] == s[..i + 1];
      assert s == s[..n] + [s[n]];
      UsableStep(s[..n], s[n]);
    } else {
      assert s[..i + 1] == s;
    }
  }

  lemma UsableStep(s: seq<Snippet>, x: Snippet)
    ensures Usable(s + [x]) == Usable(s) + (if Normalize(x).text == "" then [] else [Normalize(x)])
    ensures Usable(s) <= Usable(s + [x])
  {
    assert (s + [x])[..|s|] == s;
    hide Normalize;
  }

  // ---- What a pack contains ----

  /** The state handed on after the first n snippets. */
  function SeenAfter(h: Hash, base: map<string, string>, l: seq<Snippet>, n: nat): map<string, string>
    requires n <= |l|
  {
    Unbounded(h, base, l[..n]).seen
  }

  lemma SeenStep(h: Hash, base: map<string, string>, l: seq<Snippet>, n: nat)
    requires n < |l|
    ensures SeenAfter(h, base, l, n + 1) == SeenAfter(h, base, l, n)[SourceID(h, l[n]) := Fingerprint(h, l[n])]
  {
    hide SourceID, Fingerprint, ItemOf, InvalidationOf, OmissionOf, Unchanged;
    assert l[..n + 1] == l[..n] + [l[n]];
    UnboundedStep(h, base, l[..n], l[n]);
  }

  /** Snippet k is the last of its source among the first n. */
  predicate LastOfSource(h: Hash, l: seq<Snippet>, n: nat, k: int)
    requires n <= |l|
  {
    0 <= k < n && forall j :: k < j < n ==> SourceID(h, l[j]) != SourceID(h, l[k])
  }

  predicate Unmet(h: Hash, l: seq<Snippet>, n: nat, id: string)
    requires n <= |l|
  {
    forall k :: 0 <= k < n ==> SourceID(h, l[k]) != id
  }

  /** The next state is the cleaned previous one overwritten by the fingerprints of the snippets processed: the last
      snippet of a source decides ... */
  lemma {:induction false} SeenOfLast(h: Hash, base: map<string, string>, l: seq<Snippet>, n: nat, k: nat)
    requires n <= |l| && LastOfSource(h, l, n, k)
    ensures SourceID(h, l[k]) in SeenAfter(h, base, l, n)
    ensures SeenAfter(h, base, l, n)[SourceID(h, l[k])] == Fingerprint(h, l[k])
  {
    hide SourceID, Fingerprint, SeenAfter;
    SeenStep(h, base, l, n - 1);
    if k < n - 1 { SeenOfLast(h, base, l, n - 1, k); }
  }

  /** ... and sources not met keep what they had. */
  lemma {:induction false} SeenOfUnmet(h: Hash, base: map<string, string>, l: seq<Snippet>, n: nat, id: string)
    requires n <= |l| && Unmet(h, l, n, id)
    ensures id in SeenAfter(h, base, l, n) <==> id in base
    ensures id in base ==> SeenAfter(h, base, l, n)[id] == base[id]
  {
    hide SourceID, Fingerprint;
    if n > 0 {
      SeenOfUnmet(h, base, l, n - 1, id);
      SeenStep(h, base, l, n - 1);
      assert SourceID(h, l[n - 1]) != id;
    }
  }

  /** Whatever the budget does, the state is that of the snippets processed. */
  lemma PackedSeen(h: Hash, base: map<string, string>, l: seq<Snippet>, maxChars: int, n: nat, p: Pack)
    requires Packed(h, base, l, maxChars, n, p)
    ensures n <= |l| && p.seen == SeenAfter(h, base, l, n)
  {
    hide SourceID, Fingerprint, ItemOf, InvalidationOf, OmissionOf, TruncateRunes, Unbounded;
    if Unbounded(h, base, l).chars <= maxChars {
      assert l[..n] == l;
    } else {
      SeenStep(h, base, l, n - 1);
    }
  }

  function Sum(items: seq<Item>): nat {
    if items == [] then 0 else Sum(items[..|items| - 1]) + items[|items| - 1].chars
  }

  /** Items, snippets and citations are aligned, tagged S1 to Sn, and their sizes add up. */
  predicate Aligned(p: Pack) {
    && |p.snippets| == |p.items| == |p.citations|
    && (forall j :: 0 <= j < |p.items| ==>
          && p.citations[j] == p.items[j].citation && p.snippets[j] == p.items[j].snippet
          && p.citations[j].tag == "S" + Decimal(j + 1)
          && p.items[j].chars == |p.items[j].snippet.text|
          && p.citations[j].sourceID == p.items[j].sourceID)
    && p.chars == Sum(p.items)
  }

  lemma AddAligned(h: Hash, p: Pack, s: Snippet, text: string)
    requires Aligned(p)
    ensures Aligned(Add(h, p, s, text))
  {
    hide SourceID, Fingerprint, InvalidationOf, RestoreHandle, Decimal;
    var p' := Add(h, p, s, text);
    assert p'.items[..|p.items|] == p.items;
  }

  lemma {:induction false} UnboundedAligned(h: Hash, base: map<string, string>, l: seq<Snippet>)
    ensures Aligned(Unbounded(h, base, l))
  {
    hide Aligned, Unbounded, Deliver;
    if l == [] {
      NothingAligned(h, base);
    } else {
      var n := |l| - 1;
      UnboundedAligned(h, base, l[..n]);
      assert l == l[..n] + [l[n]];
      UnboundedStep(h, base, l[..n], l[n]);
      DeliverAligned(h, Unbounded(h, base, l[..n]), l[n]);
    }
  }

  lemma NothingAligned(h: Hash, base: map<string, string>)
    ensures Aligned(Unbounded(h, base, []))
  {
  }

  lemma DeliverAligned(h: Hash, p: Pack, s: Snippet)
    requires Aligned(p)
    ensures Aligned(Deliver(h, p, s))
  {
    AddAligned(h, p, s, s.text);
    hide SourceID, Fingerprint, RestoreHandle, Add, OmissionOf, Decimal, Sum;
  }

  /** Every pack is aligned and within its budget, and it is truncated exactly when the unlimited pack is not. */
  lemma PackWithinBudget(h: Hash, base: map<string, string>, l: seq<Snippet>, maxChars: int, n: nat, p: Pack)
    requires 0 < maxChars && Packed(h, base, l, maxChars, n, p)
    ensures Aligned(p) && p.chars <= maxChars
    ensures p.truncated <==> Unbounded(h, base, l).chars > maxChars
    ensures !p.truncated ==> n == |l|
  {
    hide SourceID, Fingerprint, RestoreHandle, ItemOf, InvalidationOf, Aligned;
    UnboundedAligned(h, base, l);
    UnboundedUntruncated(h, base, l);
    if Unbounded(h, base, l).chars > maxChars {
      var before := Unbounded(h, base, l[..n - 1]);
      UnboundedAligned(h, base, l[..n - 1]);
      CutAligned(h, before, l[n - 1], maxChars);
    }
  }

  lemma CutAligned(h: Hash, p: Pack, s: Snippet, maxChars: int)
    requires Aligned(p) && p.chars <= maxChars
    ensures Aligned(Cut(h, p, s, maxChars)) && Cut(h, p, s, maxChars).chars <= maxChars
  {
    var room := maxChars - p.chars;
    var text := TruncateRunes(s.text, room);
    AddAligned(h, p, s, text);
    AddChars(h, p, s, text);
    OmitAligned(h, p, s);
    var q := if room > 3 then Add(h, p, s, text) else Omit(h, p, s, OmitBudget);
    hide Add, Omit, TruncateRunes, Aligned;
    TruncatedAligned(q);
  }

  lemma AddChars(h: Hash, p: Pack, s: Snippet, text: string)
    ensures Add(h, p, s, text).chars == p.chars + |text|
  {
    hide SourceID, Fingerprint, RestoreHandle, ItemOf, InvalidationOf;
  }

  lemma OmitAligned(h: Hash, p: Pack, s: Snippet)
    requires Aligned(p)
    ensures Aligned(Omit(h, p, s, OmitBudget)) && Omit(h, p, s, OmitBudget).chars == p.chars
  {
    hide SourceID, Fingerprint, RestoreHandle, OmissionOf, Decimal, Sum;
  }

  lemma TruncatedAligned(p: Pack)
    requires Aligned(p)
    ensures Aligned(p.(truncated := true))
  {
    hide Decimal, Sum;
  }

  lemma {:induction false} UnboundedUntruncated(h: Hash, base: map<string, string>, l: seq<Snippet>)
    ensures !Unbounded(h, base, l).truncated
  {
    if l != [] {
      hide Deliver;
      UnboundedUntruncated(h, base, l[..|l| - 1]);
      DeliverAdds(h, Unbounded(h, base, l[..|l| - 1]), l[|l| - 1]);
    }
  }

  /** Decimal tags are distinct. */
  function Value(s: string): int {
    if s == "" then 0 else 10 * Value(s[..|s| - 1]) + (s[|s| - 1] as int - '0' as int)
  }

  lemma {:induction false} DecimalRoundTrip(n: nat)
    ensures Value(Decimal(n)) == n
  {
    var s := Decimal(n);
    assert "0123456789"[n % 10] as int - '0' as int == n % 10;
    if n >= 10 {
      DecimalRoundTrip(n / 10);
      assert s[..|s| - 1] == Decimal(n / 10);
    } else {
      assert s[..|s| - 1] == "";
    }
  }

  lemma TagDetermines(i: nat, j: nat)
    requires "S" + Decimal(i) == "S" + Decimal(j)
    ensures i == j
  {
    DecimalRoundTrip(i);
    DecimalRoundTrip(j);
    hide Decimal, Value;
    assert ("S" + Decimal(i))[1..] == Decimal(i) && ("S" + Decimal(j))[1..] == Decimal(j);
  }

  lemma TagsDistinct(p: Pack, i: nat, j: nat)
    requires Aligned(p) && i < |p.citations| && j < |p.citations| && p.citations[i].tag == p.citations[j].tag
    ensures i == j
  {
    hide Decimal, Sum;
    TagDetermines(i + 1, j + 1);
  }

  // ---- Where each snippet went ----

  /** Snippet k was unchanged with respect to what the snippets before it left. */
  predicate UnchangedAt(h: Hash, base: map<string, string>, l: seq<Snippet>, k: nat)
    requires k < |l|
  {
    Unchanged(h, Previous(h, SeenAfter(h, base, l, k), l[k]), l[k])
  }

  /** Snippet k differs from what the snippets before it left for its source. */
  predicate SupersedesAt(h: Hash, base: map<string, string>, l: seq<Snippet>, k: nat)
    requires k < |l|
  {
    Superseded(h, Previous(h, SeenAfter(h, base, l, k), l[k]), l[k])
  }

  /** How a snippet is handled: omitted as unchanged, or delivered, in place of an earlier version or not. */
  datatype Handling = Skipped | Delivered | Replacing

  predicate Handled(h: Hash, base: map<string, string>, l: seq<Snippet>, k: nat, way: Handling)
    requires k < |l|
  {
    match way
    case Skipped => UnchangedAt(h, base, l, k)
    case Delivered => !UnchangedAt(h, base, l, k)
    case Replacing => SupersedesAt(h, base, l, k)
  }

  /** The indices of the snippets so handled. */
  function Indices(h: Hash, base: map<string, string>, l: seq<Snippet>, n: nat, way: Handling): (ids: seq<nat>)
    requires n <= |l|
    ensures forall j :: 0 <= j < |ids| ==> ids[j] < n
  {
    if n == 0 then []
    else
      var rest := Indices(h, base, l, n - 1, way);
      if Handled(h, base, l, n - 1, way) then rest + [n - 1] else rest
  }

  lemma {:induction false} IndicesComplete(h: Hash, base: map<string, string>, l: seq<Snippet>, n: nat, way: Handling)
    requires n <= |l|
    ensures Increasing(Indices(h, base, l, n, way))
    ensures forall k | 0 <= k < n :: k in Indices(h, base, l, n, way) <==> Handled(h, base, l, k, way)
  {
    hide Handled;
    if n > 0 {
      IndicesComplete(h, base, l, n - 1, way);
      var before, ids := Indices(h, base, l, n - 1, way), Indices(h, base, l, n, way);
      assert ids == before || ids == before + [n - 1];
      forall i, j | 0 <= i < j < |ids|
        ensures ids[i] < ids[j]
      {
        assert ids[i] == before[i];
        assert j < |before| ==> ids[j] == before[j];
      }
    }
  }

  function DeliveredItem(h: Hash, base: map<string, string>, l: seq<Snippet>, k: nat, number: nat): Item
    requires k < |l|
  {
    ItemOf(h, Previous(h, SeenAfter(h, base, l, k), l[k]), l[k], l[k].text, number)
  }

  /** Each snippet lands in exactly one of Items and Omitted, in order: it is omitted exactly when the running state
      already held its fingerprint and it is not pinned, and delivered whole otherwise. */
  ghost predicate Accounted(h: Hash, base: map<string, string>, l: seq<Snippet>, n: nat, p: Pack)
    requires n <= |l|
  {
    && Items(h, base, l, Indices(h, base, l, n, Delivered), p.items)
    && Omissions(h, l, Indices(h, base, l, n, Skipped), p.omitted)
    && |p.items| + |p.omitted| == n
  }

  predicate Items(h: Hash, base: map<string, string>, l: seq<Snippet>, delivered: seq<nat>, items: seq<Item>) {
    && |items| == |delivered|
    && forall j :: 0 <= j < |delivered| ==>
        delivered[j] < |l| && items[j] == DeliveredItem(h, base, l, delivered[j], j + 1)
  }

  predicate Omissions(h: Hash, l: seq<Snippet>, skipped: seq<nat>, omitted: seq<Omission>) {
    && |omitted| == |skipped|
    && forall j :: 0 <= j < |skipped| ==> skipped[j] < |l| && omitted[j] == OmissionOf(h, l[skipped[j]], OmitUnchanged)
  }

  lemma UnboundedGrows(h: Hash, base: map<string, string>, l: seq<Snippet>, n: nat)
    requires n < |l|
    ensures var p, p' := Unbounded(h, base, l[..n]), Unbounded(h, base, l[..n + 1]);
            if UnchangedAt(h, base, l, n) then p'.items == p.items
              && p'.omitted == p.omitted + [OmissionOf(h, l[n], OmitUnchanged)]
            else p'.items == p.items + [DeliveredItem(h, base, l, n, |p.items| + 1)] && p'.omitted == p.omitted
  {
    hide SourceID, Fingerprint, RestoreHandle, ItemOf, InvalidationOf, OmissionOf, Unchanged;
    UnboundedStep(h, base, l[..n], l[n]);
    assert l[..n + 1] == l[..n] + [l[n]];
    UnboundedAligned(h, base, l[..n]);
  }

  lemma {:induction false} Conserved(h: Hash, base: map<string, string>, l: seq<Snippet>, n: nat)
    requires n <= |l|
    ensures Accounted(h, base, l, n, Unbounded(h, base, l[..n]))
  {
    hide Accounted, Unbounded;
    if n == 0 {
      NothingAccounted(h, base, l);
      assert l[..0] == [];
    } else {
      Conserved(h, base, l, n - 1);
      ConservedStep(h, base, l, n - 1);
    }
  }

  lemma NothingAccounted(h: Hash, base: map<string, string>, l: seq<Snippet>)
    ensures Accounted(h, base, l, 0, Unbounded(h, base, []))
  {
  }

  lemma ConservedStep(h: Hash, base: map<string, string>, l: seq<Snippet>, n: nat)
    requires n < |l| && Accounted(h, base, l, n, Unbounded(h, base, l[..n]))
    ensures Accounted(h, base, l, n + 1, Unbounded(h, base, l[..n + 1]))
  {
    hide DeliveredItem, OmissionOf, UnchangedAt, Unbounded, Items, Omissions;
    UnboundedGrows(h, base, l, n);
    var p := Unbounded(h, base, l[..n]);
    if UnchangedAt(h, base, l, n) {
      OmissionsGrow(h, l, Indices(h, base, l, n, Skipped), p.omitted, n);
    } else {
      ItemsGrow(h, base, l, Indices(h, base, l, n, Delivered), p.items, n);
    }
  }

  lemma ItemsGrow(h: Hash, base: map<string, string>, l: seq<Snippet>, delivered: seq<nat>, items: seq<Item>, k: nat)
    requires k < |l| && Items(h, base, l, delivered, items)
    ensures Items(h, base, l, delivered + [k], items + [DeliveredItem(h, base, l, k, |items| + 1)])
  {
    hide DeliveredItem;
  }

  lemma OmissionsGrow(h: Hash, l: seq<Snippet>, skipped: seq<nat>, omitted: seq<Omission>, k: nat)
    requires k < |l| && Omissions(h, l, skipped, omitted)
    ensures Omissions(h, l, skipped + [k], omitted + [OmissionOf(h, l[k], OmitUnchanged)])
  {
    hide OmissionOf;
  }

  /** Invalidation v is of snippet k, and names the fingerprint that the running state held for its source, with the
      handle that restores it. */
  predicate Replaces(h: Hash, base: map<string, string>, l: seq<Snippet>, k: nat, v: Invalidation)
    requires k < |l|
  {
    && !l[k].pinned && v.sourceID == SourceID(h, l[k]) && v.sourceID in SeenAfter(h, base, l, k)
    && v.previous == SeenAfter(h, base, l, k)[v.sourceID] && v.current == Fingerprint(h, l[k]) && v.previous != v.current
    && v.restoreHandle == RestoreHandle(h, v.sourceID, v.previous)
  }

  /** One invalidation for each of the first n snippets that replaces an earlier version, in order, and no other. */
  ghost predicate Invalidates(h: Hash, base: map<string, string>, l: seq<Snippet>, n: nat, invalidations: seq<Invalidation>)
    requires n <= |l|
  {
    var ids := Indices(h, base, l, n, Replacing);
    && |invalidations| == |ids|
    && forall j :: 0 <= j < |ids| ==> Replaces(h, base, l, ids[j], invalidations[j])
  }

  lemma {:induction false} UnboundedInvalidates(h: Hash, base: map<string, string>, l: seq<Snippet>, n: nat)
    requires n <= |l|
    ensures Invalidates(h, base, l, n, Unbounded(h, base, l[..n]).invalidations)
  {
    hide Unbounded, Invalidates;
    if n == 0 {
      NothingInvalidated(h, base, l);
      assert l[..0] == [];
    } else {
      var before := Unbounded(h, base, l[..n - 1]);
      UnboundedInvalidates(h, base, l, n - 1);
      assert l[..n] == l[..n - 1] + [l[n - 1]];
      UnboundedStep(h, base, l[..n - 1], l[n - 1]);
      DeliverInvalidates(h, before, l[n - 1]);
      OneMoreInvalidates(h, base, l, n - 1, before.invalidations);
    }
  }

  lemma NothingInvalidated(h: Hash, base: map<string, string>, l: seq<Snippet>)
    ensures Invalidates(h, base, l, 0, Unbounded(h, base, []).invalidations)
  {
  }

  lemma DeliverInvalidates(h: Hash, p: Pack, s: Snippet)
    ensures Deliver(h, p, s).invalidations == p.invalidations + InvalidationOf(h, Previous(h, p.seen, s), s)
    ensures forall text :: Add(h, p, s, text).invalidations == p.invalidations + InvalidationOf(h, Previous(h, p.seen, s), s)
  {
    hide SourceID, Fingerprint, RestoreHandle, ItemOf, OmissionOf;
  }

  lemma OneMoreInvalidates(h: Hash, base: map<string, string>, l: seq<Snippet>, n: nat, invalidations: seq<Invalidation>)
    requires n < |l| && Invalidates(h, base, l, n, invalidations)
    ensures Invalidates(h, base, l, n + 1,
                        invalidations + InvalidationOf(h, Previous(h, SeenAfter(h, base, l, n), l[n]), l[n]))
  {
    var more := InvalidationOf(h, Previous(h, SeenAfter(h, base, l, n), l[n]), l[n]);
    OneMoreReplaces(h, base, l, n);
    hide Replaces, InvalidationOf, SupersedesAt, SeenAfter;
    var ids, ids' := Indices(h, base, l, n, Replacing), Indices(h, base, l, n + 1, Replacing);
    assert ids' == if SupersedesAt(h, base, l, n) then ids + [n] else ids;
  }

  lemma OneMoreReplaces(h: Hash, base: map<string, string>, l: seq<Snippet>, n: nat)
    requires n < |l|
    ensures var more := InvalidationOf(h, Previous(h, SeenAfter(h, base, l, n), l[n]), l[n]);
            if SupersedesAt(h, base, l, n) then |more| == 1 && Replaces(h, base, l, n, more[0]) else more == []
  {
    hide SourceID, Fingerprint, RestoreHandle, SeenAfter;
  }

  /** The snippet cut off last was dropped: the room left was too small to show any of it. */
  ghost predicate Dropped(h: Hash, base: map<string, string>, l: seq<Snippet>, maxChars: int, n: nat)
    requires n <= |l|
  {
    0 < n && Unbounded(h, base, l).chars > maxChars && maxChars - Unbounded(h, base, l[..n - 1]).chars <= 3
  }

  /** With any budget: one invalidation for each delivered snippet, whole or cut, that replaces an earlier version, in
      order, naming the running fingerprint it replaces; and no other. */
  lemma PackInvalidates(h: Hash, base: map<string, string>, l: seq<Snippet>, maxChars: int, n: nat, p: Pack)
    requires Packed(h, base, l, maxChars, n, p)
    ensures n <= |l| && Invalidates(h, base, l, if Dropped(h, base, l, maxChars, n) then n - 1 else n, p.invalidations)
  {
    hide Unbounded, Invalidates, Deliver;
    assert l[..|l|] == l;
    if Unbounded(h, base, l).chars <= maxChars {
      UnboundedInvalidates(h, base, l, n);
    } else {
      var before := Unbounded(h, base, l[..n - 1]);
      UnboundedInvalidates(h, base, l, n - 1);
      CutInvalidates(h, before, l[n - 1], maxChars);
      OneMoreInvalidates(h, base, l, n - 1, before.invalidations);
    }
  }

  lemma CutInvalidates(h: Hash, p: Pack, s: Snippet, maxChars: int)
    ensures Cut(h, p, s, maxChars).invalidations ==
      if maxChars - p.chars > 3 then p.invalidations + InvalidationOf(h, Previous(h, p.seen, s), s) else p.invalidations
  {
    DeliverInvalidates(h, p, s);
    hide SourceID, Fingerprint, RestoreHandle, ItemOf, OmissionOf, InvalidationOf, TruncateRunes;
  }

  /** So every invalidation of every pack is of a processed snippet and names what it replaces. */
  lemma InvalidationsNameWhatTheyReplace(h: Hash, base: map<string, string>, l: seq<Snippet>, maxChars: int, n: nat,
                                         p: Pack, v: Invalidation) returns (k: nat)
    requires Packed(h, base, l, maxChars, n, p) && v in p.invalidations
    ensures k < n <= |l| && SupersedesAt(h, base, l, k) && Replaces(h, base, l, k, v)
  {
    PackInvalidates(h, base, l, maxChars, n, p);
    hide Packed, Replaces, SupersedesAt;
    var m := if Dropped(h, base, l, maxChars, n) then n - 1 else n;
    var ids := Indices(h, base, l, m, Replacing);
    IndicesComplete(h, base, l, m, Replacing);
    var j :| 0 <= j < |p.invalidations| && p.invalidations[j] == v;
    k := ids[j];
    assert k in ids;
  }

  /** Snippet s did not fit after the pack before. Either p ends with its item, cut to the room left, or with its omission
      for budget; all else of items and omissions is as before. */
  predicate EndsCut(h: Hash, before: Pack, s: Snippet, maxChars: int, p: Pack) {
    var room := maxChars - before.chars;
    if room <= 3 then p.items == before.items && p.omitted == before.omitted + [OmissionOf(h, s, OmitBudget)]
    else
      var item := ItemOf(h, Previous(h, before.seen, s), s, TruncateRunes(s.text, room), |before.items| + 1);
      p.omitted == before.omitted && p.items == before.items + [item]
  }

  /** With a budget the same holds of all processed snippets but the one cut, which is the last, was not unchanged, and
      is the last item or the last omission. */
  lemma PackAccounts(h: Hash, base: map<string, string>, l: seq<Snippet>, maxChars: int, n: nat, p: Pack)
    requires Packed(h, base, l, maxChars, n, p)
    ensures |p.items| + |p.omitted| == n <= |l|
    ensures !p.truncated ==> Accounted(h, base, l, n, p)
    ensures p.truncated ==>
      && 0 < n && !UnchangedAt(h, base, l, n - 1)
      && var before := Unbounded(h, base, l[..n - 1]);
         Accounted(h, base, l, n - 1, before) && EndsCut(h, before, l[n - 1], maxChars, p)
  {
    hide Accounted, UnchangedAt, Unbounded, Cut, Deliver, EndsCut, Sum, Decimal;
    UnboundedUntruncated(h, base, l);
    Conserved(h, base, l, |l|);
    assert l[..|l|] == l;
    AccountedTotal(h, base, l, |l|, Unbounded(h, base, l));
    if Unbounded(h, base, l).chars > maxChars {
      Conserved(h, base, l, n - 1);
      AccountedTotal(h, base, l, n - 1, Unbounded(h, base, l[..n - 1]));
      UnboundedAligned(h, base, l[..n - 1]);
      CutEnds(h, Unbounded(h, base, l[..n - 1]), l[n - 1], maxChars);
      CutChanged(h, base, l, n - 1);
    }
  }

  lemma AccountedTotal(h: Hash, base: map<string, string>, l: seq<Snippet>, n: nat, p: Pack)
    requires n <= |l| && Accounted(h, base, l, n, p)
    ensures |p.items| + |p.omitted| == n
  {
  }

  lemma CutChanged(h: Hash, base: map<string, string>, l: seq<Snippet>, n: nat)
    requires n < |l| && Unbounded(h, base, l[..n]).chars < Unbounded(h, base, l[..n + 1]).chars
    ensures !UnchangedAt(h, base, l, n)
  {
    hide Unbounded, Deliver, Unchanged, Previous;
    assert l[..n + 1] == l[..n] + [l[n]];
    UnboundedStep(h, base, l[..n], l[n]);
    UnchangedCostsNothing(h, Unbounded(h, base, l[..n]), l[n]);
  }

  lemma CutEnds(h: Hash, p: Pack, s: Snippet, maxChars: int)
    requires |p.citations| == |p.items|
    ensures var p' := Cut(h, p, s, maxChars);
            p'.truncated && EndsCut(h, p, s, maxChars, p') && |p'.items| + |p'.omitted| == |p.items| + |p.omitted| + 1
  {
    hide SourceID, Fingerprint, RestoreHandle, ItemOf, InvalidationOf, OmissionOf, TruncateRunes;
  }

  // ---- Redelivery ----

  /** The hash yields non-blank text without surrounding space, as hexadecimal digits are. */
  ghost predicate CleanHash(h: Hash) {
    forall x :: h(x) != "" && Trimmed(h(x))
  }

  /** Snippets of one source agree; in particular, distinct sources do. */
  predicate Consistent(h: Hash, l: seq<Snippet>) {
    forall i, j :: 0 <= i < |l| && 0 <= j < |l| && SourceID(h, l[i]) == SourceID(h, l[j]) ==>
        Fingerprint(h, l[i]) == Fingerprint(h, l[j])
  }

  lemma SourceIDClean(h: Hash, s: Snippet)
    requires CleanHash(h)
    ensures SourceID(h, s) != "" && Trimmed(SourceID(h, s))
  {
    var n := Normalize(s);
    var id := SourceID(h, s);
    if n.source != "" && n.id != "" {
      assert id[0] == n.source[0] && id[|id| - 1] == n.id[|n.id| - 1];
    } else if n.source == "" && n.id == "" {
      assert id[0] == 's' && id[|id| - 1] == h(n.text)[|h(n.text)| - 1];
    }
  }

  lemma CleanUpdate(m: map<string, string>, key: string, value: string)
    requires CleanMap(m) && key != "" && Trimmed(key) && value != "" && Trimmed(value)
    ensures CleanMap(m[key := value])
  {
    hide Trimmed;
  }

  /** So the state handed on survives the cleaning copy of the next call. */
  lemma {:induction false} SeenStaysClean(h: Hash, base: map<string, string>, l: seq<Snippet>, n: nat)
    requires n <= |l| && CleanHash(h) && CleanMap(base)
    ensures CleanMap(SeenAfter(h, base, l, n))
  {
    hide SourceID, Fingerprint, CleanMap, Trimmed, CleanHash;
    if n > 0 {
      SeenStaysClean(h, base, l, n - 1);
      SeenStep(h, base, l, n - 1);
      SourceIDClean(h, l[n - 1]);
      FingerprintClean(h, l[n - 1]);
      CleanUpdate(SeenAfter(h, base, l, n - 1), SourceID(h, l[n - 1]), Fingerprint(h, l[n - 1]));
    }
  }

  lemma FingerprintClean(h: Hash, s: Snippet)
    requires CleanHash(h)
    ensures Fingerprint(h, s) != "" && Trimmed(Fingerprint(h, s))
  {
    hide SourceID, Trimmed;
    var n := Normalize(s);
    var text := SourceID(h, n) + "\0" + n.authorID + "\0" + n.createdAt + "\0" + n.text;
    hide Normalize;
    assert Fingerprint(h, s) == h(text);
  }

  /** The state after a whole pass holds every snippet's fingerprint. */
  lemma {:induction false} AllRemembered(h: Hash, base: map<string, string>, l: seq<Snippet>, n: nat, k: nat)
    requires Consistent(h, l) && k < n <= |l|
    ensures SourceID(h, l[k]) in SeenAfter(h, base, l, n)
        && SeenAfter(h, base, l, n)[SourceID(h, l[k])] == Fingerprint(h, l[k])
  {
    hide SourceID, Fingerprint, SeenAfter;
    SeenStep(h, base, l, n - 1);
    if k < n - 1 { AllRemembered(h, base, l, n - 1, k); }
  }

  /** A second pass from that state leaves it as it is. */
  lemma {:induction false} SecondPassStable(h: Hash, base: map<string, string>, l: seq<Snippet>, n: nat)
    requires Consistent(h, l) && n <= |l|
    ensures SeenAfter(h, SeenAfter(h, base, l, |l|), l, n) == SeenAfter(h, base, l, |l|)
  {
    hide SourceID, Fingerprint, SeenAfter, Consistent;
    var s := SeenAfter(h, base, l, |l|);
    if n == 0 {
      SeenAtFirst(h, s, l);
    } else {
      SecondPassStable(h, base, l, n - 1);
      AllRemembered(h, base, l, |l|, n - 1);
      SeenStep(h, s, l, n - 1);
    }
  }

  lemma SeenAtFirst(h: Hash, base: map<string, string>, l: seq<Snippet>)
    ensures SeenAfter(h, base, l, 0) == base
  {
    assert l[..0] == [];
  }

  lemma SecondPassUnchanged(h: Hash, base: map<string, string>, l: seq<Snippet>, k: nat)
    requires Consistent(h, l) && k < |l|
    ensures UnchangedAt(h, SeenAfter(h, base, l, |l|), l, k) == !l[k].pinned
  {
    hide SourceID, Fingerprint, SeenAfter, Consistent;
    SecondPassStable(h, base, l, k);
    AllRemembered(h, base, l, |l|, k);
  }

  predicate OnlyPinned(p: Pack) {
    p.invalidations == [] && forall j :: 0 <= j < |p.items| ==> p.items[j].pinned && p.items[j].status == Pinned
  }

  /** On the second pass only pinned snippets are delivered, at no more than their first cost, and nothing is
      invalidated. */
  lemma {:induction false} SecondPass(h: Hash, base: map<string, string>, l: seq<Snippet>, n: nat)
    requires Consistent(h, l) && n <= |l|
    ensures OnlyPinned(Unbounded(h, SeenAfter(h, base, l, |l|), l[..n]))
    ensures Unbounded(h, SeenAfter(h, base, l, |l|), l[..n]).chars <= Unbounded(h, base, l[..n]).chars
  {
    hide SourceID, Fingerprint, Deliver, Consistent, OnlyPinned;
    var again := SeenAfter(h, base, l, |l|);
    if n == 0 {
      NothingDelivered(h, base, again);
      assert l[..0] == [];
    } else {
      SecondPass(h, base, l, n - 1);
      SecondPassStable(h, base, l, n - 1);
      AllRemembered(h, base, l, |l|, n - 1);
      hide Unbounded;
      SecondStep(h, Unbounded(h, base, l[..n - 1]), Unbounded(h, again, l[..n - 1]), l[n - 1]);
      assert l[..n] == l[..n - 1] + [l[n - 1]];
      UnboundedStep(h, base, l[..n - 1], l[n - 1]);
      UnboundedStep(h, again, l[..n - 1], l[n - 1]);
    }
  }

  lemma NothingDelivered(h: Hash, base: map<string, string>, again: map<string, string>)
    ensures OnlyPinned(Unbounded(h, again, [])) && Unbounded(h, again, []).chars <= Unbounded(h, base, []).chars
  {
  }

  lemma SecondStep(h: Hash, p: Pack, q: Pack, s: Snippet)
    requires SourceID(h, s) in q.seen && q.seen[SourceID(h, s)] == Fingerprint(h, s)
    requires OnlyPinned(q) && q.chars <= p.chars
    ensures OnlyPinned(Deliver(h, q, s)) && Deliver(h, q, s).chars <= Deliver(h, p, s).chars
  {
    hide SourceID, Fingerprint, RestoreHandle, Decimal;
  }

  /** Packing the same snippets again from the state of an untruncated pack omits every unpinned snippet, invalidates
      nothing and hands on the same state. */
  lemma Redelivery(h: Hash, snippets: seq<Snippet>, previous: map<string, string>, maxChars: int,
                   base: map<string, string>, n: nat, p: Pack, base': map<string, string>, n': nat, q: Pack)
    requires CleanHash(h) && Consistent(h, Usable(Prioritized(snippets)))
    requires Built(h, snippets, previous, maxChars, base, n, p) && !p.truncated
    requires Built(h, snippets, p.seen, maxChars, base', n', q)
    ensures q.seen == p.seen && !q.truncated && n' == n == |Usable(Prioritized(snippets))|
    ensures OnlyPinned(q)
    ensures var l := Usable(Prioritized(snippets));
            && Accounted(h, base', l, n, q)
            && forall k :: 0 <= k < n ==> UnchangedAt(h, base', l, k) == !l[k].pinned
  {
    hide SourceID, Fingerprint, Accounted, UnchangedAt, OnlyPinned, Prioritized, Usable, CleanCopy, CleanMap,
      SeenAfter, Deliver, Aligned, Unbounded, Cut, CleanHash, Consistent;
    var l := Usable(Prioritized(snippets));
    PackWithinBudget(h, base, l, Budget(maxChars), n, p);
    PackedSeen(h, base, l, Budget(maxChars), n, p);
    CleanCopyIsClean(previous, base);
    SeenStaysClean(h, base, l, n);
    CleanCopyIsClean(p.seen, base');
    SecondPass(h, base, l, n);
    SecondPassStable(h, base, l, n);
    assert l[..n] == l;
    PackWithinBudget(h, base', l, Budget(maxChars), n', q);
    PackedSeen(h, base', l, Budget(maxChars), n', q);
    PackAccounts(h, base', l, Budget(maxChars), n', q);
    forall k | 0 <= k < n
      ensures UnchangedAt(h, base', l, k) == !l[k].pinned
    {
      SecondPassUnchanged(h, base, l, k);
    }
  }
}
