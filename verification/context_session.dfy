/** Packs of one session, each made from the state the one before handed on (internal/contextbroker/packer.go): when a
    snippet omitted as unchanged has really been shown. */
module ContextSessions {
  import opened ContextPack
  import opened Outcome
  import opened SessionState
  import opened Text

  /** A source and the fingerprint of one of its versions. */
  type Version = (string, string)

  function VersionOf(h: Hash, s: Snippet): Version {
    (SourceID(h, s), Fingerprint(h, s))
  }

  /** The versions delivered whole among the first n snippets. */
  function Whole(h: Hash, base: map<string, string>, l: seq<Snippet>, n: nat): set<Version>
    requires n <= |l|
  {
    set k | 0 <= k < n && !UnchangedAt(h, base, l, k) :: VersionOf(h, l[k])
  }

  /** All that a state remembers was shown. */
  predicate Honest(state: map<string, string>, shown: set<Version>) {
    forall id :: id in state ==> (id, state[id]) in shown
  }

  /** Processing whole snippets keeps a state honest, and what it omits as unchanged was shown before. */
  lemma {:induction false} WholeKeepsHonest(h: Hash, base: map<string, string>, l: seq<Snippet>, n: nat, shown: set<Version>)
    requires n <= |l| && Honest(base, shown)
    ensures Honest(SeenAfter(h, base, l, n), shown + Whole(h, base, l, n))
    ensures forall k | 0 <= k < n :: UnchangedAt(h, base, l, k) ==> VersionOf(h, l[k]) in shown + Whole(h, base, l, k)
  {
    hide SourceID, Fingerprint, SeenAfter, UnchangedAt, Whole, Honest;
    if n == 0 {
      SeenAtFirst(h, base, l);
      HonestGrows(base, shown, shown + Whole(h, base, l, 0));
    } else {
      var m := n - 1;
      WholeKeepsHonest(h, base, l, m, shown);
      SeenStep(h, base, l, m);
      WholeGrows(h, base, l, m);
      HonestGrows(SeenAfter(h, base, l, m), shown + Whole(h, base, l, m), shown + Whole(h, base, l, n));
      if UnchangedAt(h, base, l, m) {
        UnchangedWasSeen(h, base, l, m);
        HonestAt(SeenAfter(h, base, l, m), shown + Whole(h, base, l, m), SourceID(h, l[m]));
      }
      OneMoreHonest(SeenAfter(h, base, l, m), shown + Whole(h, base, l, n), VersionOf(h, l[m]));
    }
  }

  lemma HonestGrows(state: map<string, string>, shown: set<Version>, more: set<Version>)
    requires Honest(state, shown) && shown <= more
    ensures Honest(state, more)
  {
  }

  lemma HonestAt(state: map<string, string>, shown: set<Version>, id: string)
    requires Honest(state, shown) && id in state
    ensures (id, state[id]) in shown
  {
  }

  lemma UnchangedWasSeen(h: Hash, base: map<string, string>, l: seq<Snippet>, k: nat)
    requires k < |l| && UnchangedAt(h, base, l, k)
    ensures var seen := SeenAfter(h, base, l, k);
            SourceID(h, l[k]) in seen && seen[SourceID(h, l[k])] == Fingerprint(h, l[k])
  {
    hide SourceID, Fingerprint, SeenAfter;
  }

  lemma WholeGrows(h: Hash, base: map<string, string>, l: seq<Snippet>, n: nat)
    requires n < |l|
    ensures Whole(h, base, l, n) <= Whole(h, base, l, n + 1)
    ensures UnchangedAt(h, base, l, n) ==> Whole(h, base, l, n + 1) == Whole(h, base, l, n)
    ensures !UnchangedAt(h, base, l, n) ==> Whole(h, base, l, n + 1) == Whole(h, base, l, n) + {VersionOf(h, l[n])}
  {
    hide UnchangedAt, VersionOf;
  }

  // ---- One call ----

  /** A call of the packer: what was asked, the cleaned previous state, how many snippets were processed, and the pack. */
  datatype Call = Call(snippets: seq<Snippet>, maxChars: int, base: map<string, string>, n: nat, pack: Pack)

  function Offered(c: Call): seq<Snippet> {
    Usable(Prioritized(c.snippets))
  }

  predicate Fits(c: Call) {
    c.n <= |Offered(c)| && (c.pack.truncated ==> 0 < c.n)
  }

  /** The versions a call showed whole: those of its delivered snippets, but for the one cut. */
  function ShownBy(h: Hash, c: Call): set<Version>
    requires Fits(c)
  {
    Whole(h, c.base, Offered(c), if c.pack.truncated then c.n - 1 else c.n)
  }

  /** The room the first k snippets would take. */
  function RoomFor(h: Hash, base: map<string, string>, l: seq<Snippet>, k: nat): int
    requires k <= |l|
  {
    Unbounded(h, base, l[..k]).chars
  }

  /** Snippet k is the first for which there is not room. */
  predicate OverflowsAt(h: Hash, base: map<string, string>, l: seq<Snippet>, maxChars: int, k: nat) {
    k < |l| && RoomFor(h, base, l, k) <= maxChars < RoomFor(h, base, l, k + 1)
  }

  /** Before a call: either there is room for all that is offered, or the first snippet that does not fit has been shown
      whole already, or is to be by the call. */
  predicate Frank(h: Hash, base: map<string, string>, l: seq<Snippet>, maxChars: int, shown: set<Version>) {
    forall k | 0 <= k < |l| && OverflowsAt(h, base, l, maxChars, k) :: VersionOf(h, l[k]) in shown + Whole(h, base, l, k)
  }

  predicate FrankCall(h: Hash, c: Call, shown: set<Version>) {
    Frank(h, c.base, Offered(c), Budget(c.maxChars), shown)
  }

  lemma RoomGrows(h: Hash, base: map<string, string>, l: seq<Snippet>, i: nat, j: nat)
    requires i <= j <= |l|
    ensures RoomFor(h, base, l, i) <= RoomFor(h, base, l, j)
  {
    assert l[..j][..i] == l[..i];
    CharsGrow(h, base, l[..j], i);
  }

  lemma CutsAtEnd(h: Hash, base: map<string, string>, l: seq<Snippet>, maxChars: int, n: nat, p: Pack)
    requires 0 < maxChars && Packed(h, base, l, maxChars, n, p)
    ensures p.truncated <==> RoomFor(h, base, l, |l|) > maxChars
    ensures p.truncated ==> 0 < n <= |l| && OverflowsAt(h, base, l, maxChars, n - 1)
  {
    hide Unbounded, Cut, Aligned;
    PackWithinBudget(h, base, l, maxChars, n, p);
    assert l[..|l|] == l;
  }

  /** The snippet that overflows is the one the pack cuts. */
  lemma OverflowIsCut(h: Hash, base: map<string, string>, l: seq<Snippet>, maxChars: int, n: nat, p: Pack, k: nat)
    requires 0 < maxChars && Packed(h, base, l, maxChars, n, p) && k < |l|
    ensures OverflowsAt(h, base, l, maxChars, k) <==> p.truncated && k + 1 == n
  {
    hide RoomFor, Packed;
    CutsAtEnd(h, base, l, maxChars, n, p);
    RoomGrows(h, base, l, k + 1, |l|);
    if p.truncated && k + 1 < n {
      RoomGrows(h, base, l, k + 1, n - 1);
    } else if p.truncated && n <= k {
      RoomGrows(h, base, l, n, k);
    }
  }

  lemma FrankIffShown(h: Hash, c: Call, shown: set<Version>)
    requires Fits(c) && Packed(h, c.base, Offered(c), Budget(c.maxChars), c.n, c.pack)
    ensures FrankCall(h, c, shown) <==>
      (c.pack.truncated ==> VersionOf(h, Offered(c)[c.n - 1]) in shown + ShownBy(h, c))
  {
    var l := Offered(c);
    forall k | 0 <= k < |l|
      ensures OverflowsAt(h, c.base, l, Budget(c.maxChars), k) <==> c.pack.truncated && k + 1 == c.n
    {
      OverflowIsCut(h, c.base, l, Budget(c.maxChars), c.n, c.pack, k);
    }
    hide Packed, OverflowsAt, Offered, Whole, VersionOf;
  }

  lemma BuiltFits(h: Hash, previous: map<string, string>, c: Call)
    requires Built(h, c.snippets, previous, c.maxChars, c.base, c.n, c.pack)
    ensures Fits(c) && Packed(h, c.base, Offered(c), Budget(c.maxChars), c.n, c.pack)
  {
    hide Built, Packed, Unbounded, Cut, Usable, Prioritized, CleanCopy;
    BuiltIsPacked(h, previous, c);
    PackAccounts(h, c.base, Offered(c), Budget(c.maxChars), c.n, c.pack);
  }

  lemma BuiltIsPacked(h: Hash, previous: map<string, string>, c: Call)
    requires Built(h, c.snippets, previous, c.maxChars, c.base, c.n, c.pack)
    ensures Packed(h, c.base, Offered(c), Budget(c.maxChars), c.n, c.pack) && CleanCopy(previous, c.base)
  {
    hide Packed, CleanCopy, Usable, Prioritized;
  }

  /** From an honest state a call omits as unchanged only what was shown whole. */
  lemma SkippedWasShown(h: Hash, c: Call, shown: set<Version>, k: nat)
    requires Fits(c) && Honest(c.base, shown) && k < c.n && UnchangedAt(h, c.base, Offered(c), k)
    ensures VersionOf(h, Offered(c)[k]) in shown + Whole(h, c.base, Offered(c), k)
  {
    WholeKeepsHonest(h, c.base, Offered(c), c.n, shown);
  }

  /** The state it hands on is honest exactly when the call is frank, which its request and the state it was handed
      decide. */
  lemma HonestIffFrank(h: Hash, c: Call, shown: set<Version>)
    requires Fits(c) && Packed(h, c.base, Offered(c), Budget(c.maxChars), c.n, c.pack) && Honest(c.base, shown)
    ensures Honest(c.pack.seen, shown + ShownBy(h, c)) <==> FrankCall(h, c, shown)
  {
    FrankIffShown(h, c, shown);
    hide FrankCall;
    var l := Offered(c);
    PackedSeen(h, c.base, l, Budget(c.maxChars), c.n, c.pack);
    var m := if c.pack.truncated then c.n - 1 else c.n;
    WholeKeepsHonest(h, c.base, l, m, shown);
    hide Packed, Whole, UnchangedAt, Offered, SeenAfter, Honest;
    if c.pack.truncated {
      SeenStep(h, c.base, l, m);
      OneMoreHonest(SeenAfter(h, c.base, l, m), shown + ShownBy(h, c), VersionOf(h, l[m]));
    }
  }

  lemma OneMoreHonest(state: map<string, string>, shown: set<Version>, v: Version)
    requires Honest(state, shown)
    ensures Honest(state[v.0 := v.1], shown) <==> v in shown
  {
    assert state[v.0 := v.1][v.0] == v.1;
  }

  /** A version the state remembers is omitted as unchanged the next time it is offered unpinned. */
  lemma RememberedIsSkipped(h: Hash, state: map<string, string>, s: Snippet)
    requires SourceID(h, s) in state && state[SourceID(h, s)] == Fingerprint(h, s)
    ensures var again := s.(pinned := false);
            VersionOf(h, again) == VersionOf(h, s) && Unchanged(h, Previous(h, state, again), again)
  {
    assert Normalize(s.(pinned := false)) == Normalize(s).(pinned := false);
  }

  /** So a call that is not frank hands on a state from which the snippet it cut, offered again, is omitted as unchanged
      without ever having been shown whole. */
  lemma CutIsSkippedUnseen(h: Hash, c: Call, shown: set<Version>)
    requires Fits(c) && Packed(h, c.base, Offered(c), Budget(c.maxChars), c.n, c.pack) && !FrankCall(h, c, shown)
    ensures c.pack.truncated
    ensures var again := Offered(c)[c.n - 1].(pinned := false);
            Unchanged(h, Previous(h, c.pack.seen, again), again) && VersionOf(h, again) !in shown + ShownBy(h, c)
  {
    FrankIffShown(h, c, shown);
    var l := Offered(c);
    PackedSeen(h, c.base, l, Budget(c.maxChars), c.n, c.pack);
    SeenStep(h, c.base, l, c.n - 1);
    RememberedIsSkipped(h, c.pack.seen, l[c.n - 1]);
    hide *;
  }

  // ---- A session ----

  /** The state handed to call i: none at first, then the one handed on before. */
  function Handed(calls: seq<Call>, i: nat): map<string, string>
    requires i <= |calls|
  {
    if i == 0 then map[] else calls[i - 1].pack.seen
  }

  ghost predicate Session(h: Hash, calls: seq<Call>) {
    forall i :: 0 <= i < |calls| ==>
      Built(h, calls[i].snippets, Handed(calls, i), calls[i].maxChars, calls[i].base, calls[i].n, calls[i].pack)
  }

  predicate AllFit(calls: seq<Call>) {
    forall i :: 0 <= i < |calls| ==> Fits(calls[i])
  }

  /** The versions shown whole by the first i calls. */
  function ShownIn(h: Hash, calls: seq<Call>, i: nat): set<Version>
    requires i <= |calls| && AllFit(calls)
  {
    if i == 0 then {} else ShownIn(h, calls, i - 1) + ShownBy(h, calls[i - 1])
  }

  /** The first i calls were frank. */
  predicate FrankBefore(h: Hash, calls: seq<Call>, i: nat)
    requires i <= |calls| && AllFit(calls)
  {
    forall j :: 0 <= j < i ==> FrankCall(h, calls[j], ShownIn(h, calls, j))
  }

  lemma SessionFits(h: Hash, calls: seq<Call>)
    requires Session(h, calls)
    ensures AllFit(calls)
  {
    hide Built, Fits;
    forall i | 0 <= i < |calls|
      ensures Fits(calls[i])
    {
      BuiltFits(h, Handed(calls, i), calls[i]);
    }
  }

  /** The cleaning copy changes nothing that a pack handed on. */
  lemma {:induction false} BaseIsHanded(h: Hash, calls: seq<Call>, i: nat)
    requires CleanHash(h) && Session(h, calls) && i < |calls|
    ensures calls[i].base == Handed(calls, i) && CleanMap(Handed(calls, i))
    ensures Packed(h, calls[i].base, Offered(calls[i]), Budget(calls[i].maxChars), calls[i].n, calls[i].pack)
  {
    hide Built, Packed, CleanHash, CleanCopy, CleanMap, Usable, Prioritized;
    if i == 0 {
      NothingIsClean();
    } else {
      var c := calls[i - 1];
      BaseIsHanded(h, calls, i - 1);
      PackedSeen(h, c.base, Offered(c), Budget(c.maxChars), c.n, c.pack);
      SeenStaysClean(h, c.base, Offered(c), c.n);
    }
    BuiltIsPacked(h, Handed(calls, i), calls[i]);
    CleanCopyIsClean(Handed(calls, i), calls[i].base);
  }

  lemma NothingIsClean()
    ensures CleanMap(map[])
  {
  }

  lemma {:induction false} FrankKeepsHonest(h: Hash, calls: seq<Call>, i: nat)
    requires CleanHash(h) && Session(h, calls) && AllFit(calls) && i <= |calls|
    requires FrankBefore(h, calls, i)
    ensures Honest(Handed(calls, i), ShownIn(h, calls, i))
  {
    hide Session, FrankCall, FrankBefore, ShownBy, ShownIn, AllFit, CleanHash, Packed, Fits, Honest, Handed;
    if i == 0 {
      NothingIsHonest(h, calls);
    } else {
      FrankEarlier(h, calls, i);
      FrankKeepsHonest(h, calls, i - 1);
      BaseIsHanded(h, calls, i - 1);
      HandedOn(h, calls, i);
      HonestIffFrank(h, calls[i - 1], ShownIn(h, calls, i - 1));
    }
  }

  lemma NothingIsHonest(h: Hash, calls: seq<Call>)
    requires AllFit(calls)
    ensures Honest(Handed(calls, 0), ShownIn(h, calls, 0))
  {
  }

  lemma FrankEarlier(h: Hash, calls: seq<Call>, i: nat)
    requires 0 < i <= |calls| && AllFit(calls) && FrankBefore(h, calls, i)
    ensures FrankBefore(h, calls, i - 1) && FrankCall(h, calls[i - 1], ShownIn(h, calls, i - 1))
  {
    hide FrankCall, ShownIn, Fits;
  }

  lemma HandedOn(h: Hash, calls: seq<Call>, i: nat)
    requires 0 < i <= |calls| && AllFit(calls)
    ensures Fits(calls[i - 1]) && Handed(calls, i) == calls[i - 1].pack.seen
    ensures ShownIn(h, calls, i) == ShownIn(h, calls, i - 1) + ShownBy(h, calls[i - 1])
  {
  }

  /** Throughout a session whose calls were frank so far, what is omitted as unchanged was delivered whole: by an earlier
      call, or earlier in the same one. */
  lemma SkippedWasDelivered(h: Hash, calls: seq<Call>, i: nat, k: nat)
    requires CleanHash(h) && Session(h, calls) && AllFit(calls) && i < |calls| && k < calls[i].n
    requires FrankBefore(h, calls, i)
    requires Fits(calls[i]) && UnchangedAt(h, calls[i].base, Offered(calls[i]), k)
    ensures VersionOf(h, Offered(calls[i])[k]) in ShownIn(h, calls, i) + Whole(h, calls[i].base, Offered(calls[i]), k)
  {
    hide Session, FrankBefore, AllFit, ShownIn, CleanHash, Packed, UnchangedAt, Whole, VersionOf;
    FrankKeepsHonest(h, calls, i);
    BaseIsHanded(h, calls, i);
    SkippedWasShown(h, calls[i], ShownIn(h, calls, i), k);
  }

  /** Two calls in which a snippet is first dropped for want of room and then omitted as unchanged: it is never shown. */
  lemma DroppedThenSkipped(h: Hash, s: Snippet, small: int, large: int) returns (calls: seq<Call>)
    requires CleanHash(h) && Normalize(s) == s && !s.pinned && 0 < small <= 3 && small < |s.text| <= large
    ensures |calls| == 2 && Session(h, calls) && Usable(Prioritized([s])) == [s]
    ensures calls[0].snippets == calls[1].snippets == [s] && calls[0].maxChars == small && calls[1].maxChars == large
    ensures calls[0].pack.items == [] && calls[1].pack.items == [] && !calls[1].pack.truncated
    ensures |calls[1].pack.omitted| == 1 && calls[1].pack.omitted[0].status == OmitUnchanged
  {
    Alone(s);
    NothingIsClean();
    CleanIsItsCopy(map[]);
    SourceIDClean(h, s);
    FingerprintClean(h, s);
    CleanUpdate(map[], SourceID(h, s), Fingerprint(h, s));
    hide Built, Cut, Deliver, Unbounded, SourceID, Fingerprint, Normalize, Usable, Prioritized, CleanHash, CleanMap,
      CleanCopy, Keep;
    var none := Unbounded(h, map[], []);
    var first := Cut(h, none, s, small);
    var later := Unbounded(h, first.seen, []);
    DroppedFirst(h, s, small, none, later);
    CleanIsItsCopy(first.seen);
    OneBuilt(h, s, small, map[], none);
    OneBuilt(h, s, large, first.seen, later);
    var a, b := Call([s], small, map[], 1, first), Call([s], large, first.seen, 1, Deliver(h, later, s));
    TwoCalls(h, a, b);
    hide Session;
    calls := [a, b];
  }

  lemma TwoCalls(h: Hash, a: Call, b: Call)
    requires Built(h, a.snippets, map[], a.maxChars, a.base, a.n, a.pack)
    requires Built(h, b.snippets, a.pack.seen, b.maxChars, b.base, b.n, b.pack)
    ensures Session(h, [a, b])
  {
    hide Built;
  }

  /** For one, a five-letter note offered to a packer with room for three characters, and again with room for all. */
  lemma NeverShown(h: Hash) returns (calls: seq<Call>)
    requires CleanHash(h)
    ensures Session(h, calls) && |calls| == 2 && calls[0].pack.items == calls[1].pack.items == []
    ensures |calls[1].pack.omitted| == 1 && calls[1].pack.omitted[0].status == OmitUnchanged
  {
    hide Session;
    calls := DroppedThenSkipped(h, Snippet("1", "doc", "", "", "hello", "", false, false), 3, 4000);
  }

  lemma DroppedFirst(h: Hash, s: Snippet, small: int, none: Pack, later: Pack)
    requires !s.pinned && small <= 3 && none == Unbounded(h, map[], [])
    requires later == Unbounded(h, Cut(h, none, s, small).seen, [])
    ensures Deliver(h, none, s).chars == |s.text| && Cut(h, none, s, small).items == []
    ensures Cut(h, none, s, small).seen == map[][SourceID(h, s) := Fingerprint(h, s)]
    ensures var p := Deliver(h, later, s);
            p.items == [] && !p.truncated && p.chars == 0 && |p.omitted| == 1 && p.omitted[0].status == OmitUnchanged
  {
    hide SourceID, Fingerprint, RestoreHandle;
  }

  lemma CleanIsItsCopy(m: map<string, string>)
    requires CleanMap(m)
    ensures CleanCopy(m, m)
  {
    hide Trimmed;
    forall k | k in m
      ensures Entry(m, k, k)
    {
    }
  }

  lemma Alone(s: Snippet)
    requires Normalize(s) == s && s.text != ""
    ensures Usable(Prioritized([s])) == [s]
  {
    assert [s][..0] == [];
    assert Keep([s], s.pinned) == [s] && Keep([s], !s.pinned) == [];
    hide Normalize;
  }

  lemma OneBuilt(h: Hash, s: Snippet, maxChars: int, state: map<string, string>, none: Pack)
    requires Usable(Prioritized([s])) == [s] && 0 < maxChars && CleanCopy(state, state) && none == Unbounded(h, state, [])
    ensures Built(h, [s], state, maxChars, state, 1, OnePack(h, none, s, maxChars))
  {
    hide Packed, Usable, Prioritized, CleanCopy, OnePack;
    OnePacked(h, s, maxChars, state, none);
  }

  function OnePack(h: Hash, none: Pack, s: Snippet, maxChars: int): Pack {
    if Deliver(h, none, s).chars <= maxChars then Deliver(h, none, s) else Cut(h, none, s, maxChars)
  }

  lemma OnePacked(h: Hash, s: Snippet, maxChars: int, state: map<string, string>, none: Pack)
    requires 0 < maxChars && none == Unbounded(h, state, [])
    ensures Packed(h, state, [s], maxChars, 1, OnePack(h, none, s, maxChars))
  {
    assert none.chars == 0;
    hide Deliver, Cut, Unbounded;
    UnboundedStep(h, state, [], s);
    assert [] + [s] == [s] && [s][..0] == [] && [s][..1] == [s];
  }
}
