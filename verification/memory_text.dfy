/** Text as the memory store keeps and searches it: normalisation and mention counting
    (internal/memory/store.go). Lower-casing is a parameter. */
module MemoryText {
  import opened Text

  // ---- Normalisation ----

  /** What is used of Unicode lower-casing, character by character. */
  ghost predicate Folding(lower: char -> char) {
    && lower(' ') == ' '
    && forall c :: lower(lower(c)) == lower(c) && (IsSpace(lower(c)) <==> IsSpace(c))
  }

  function ToLower(lower: char -> char, s: string): (r: string)
    ensures |r| == |s|
  {
    seq(|s|, i requires 0 <= i < |s| => lower(s[i]))
  }

  /** The characters of s before its first space. */
  function Word(s: string): (w: string)
    ensures w <= s
  {
    if s == "" || IsSpace(s[0]) then "" else [s[0]] + Word(s[1..])
  }

  /** strings.Fields. */
  function Fields(s: string): seq<string>
    decreases |s|
  {
    if s == "" then []
    else if IsSpace(s[0]) then Fields(s[1..])
    else [Word(s)] + Fields(s[|Word(s)|..])
  }

  function Join(words: seq<string>): string {
    if words == [] then "" else if |words| == 1 then words[0] else words[0] + " " + Join(words[1..])
  }

  function NormalizeText(lower: char -> char, s: string): string {
    Join(Fields(ToLower(lower, TrimSpace(s))))
  }

  predicate IsWord(w: string) {
    w != "" && forall i :: 0 <= i < |w| ==> !IsSpace(w[i])
  }

  predicate AllWords(words: seq<string>) {
    forall i :: 0 <= i < |words| ==> IsWord(words[i])
  }

  /** Words separated by single blanks, with nothing around them. */
  predicate SingleSpaced(s: string) {
    && Trimmed(s)
    && forall i :: 0 < i < |s| && IsSpace(s[i]) ==> s[i] == ' ' && !IsSpace(s[i - 1])
  }

  predicate Lowered(lower: char -> char, s: string) {
    forall i :: 0 <= i < |s| ==> lower(s[i]) == s[i]
  }

  lemma {:induction false} WordIsWord(s: string)
    requires s != "" && !IsSpace(s[0])
    ensures IsWord(Word(s)) && (|Word(s)| == |s| || IsSpace(s[|Word(s)|]))
  {
    if |s| > 1 && !IsSpace(s[1]) {
      WordIsWord(s[1..]);
    }
  }

  lemma {:induction false} FieldsAreWords(s: string)
    ensures AllWords(Fields(s))
    decreases |s|
  {
    if s == "" {
    } else if IsSpace(s[0]) {
      FieldsAreWords(s[1..]);
    } else {
      WordIsWord(s);
      FieldsAreWords(s[|Word(s)|..]);
    }
  }

  /** Splitting undoes joining: no word is lost, split or merged. */
  lemma {:induction false} FieldsOfJoin(words: seq<string>)
    requires AllWords(words)
    ensures Fields(Join(words)) == words
  {
    if |words| == 1 {
      WordOf(words[0], "");
      assert words[0] + "" == words[0] && words[0][|words[0]|..] == "";
    } else if words != [] {
      var rest := " " + Join(words[1..]);
      WordOf(words[0], rest);
      assert Join(words) == words[0] + rest && (words[0] + rest)[|words[0]|..] == rest;
      assert rest[1..] == Join(words[1..]);
      FieldsOfJoin(words[1..]);
    }
  }

  lemma {:induction false} WordOf(w: string, rest: string)
    requires IsWord(w) && (rest == "" || IsSpace(rest[0]))
    ensures Word(w + rest) == w
  {
    assert (w + rest)[1..] == w[1..] + rest;
    if |w| == 1 {
      assert w[1..] + rest == rest;
    } else {
      WordOf(w[1..], rest);
    }
  }

  lemma {:induction false} JoinSingleSpaced(words: seq<string>)
    requires AllWords(words)
    ensures SingleSpaced(Join(words))
    ensures words != [] ==> Join(words) != "" && !IsSpace(Join(words)[0])
  {
    if |words| > 1 {
      var rest := Join(words[1..]);
      JoinSingleSpaced(words[1..]);
      var s := words[0] + " " + rest;
      forall i | 0 < i < |s| && IsSpace(s[i])
        ensures s[i] == ' ' && !IsSpace(s[i - 1])
      {
        if i > |words[0]| { assert s[i] == rest[i - |words[0]| - 1]; }
      }
    }
  }

  lemma {:induction false} JoinLowered(lower: char -> char, words: seq<string>)
    requires Folding(lower) && forall i :: 0 <= i < |words| ==> Lowered(lower, words[i])
    ensures Lowered(lower, Join(words))
  {
    if |words| > 1 { JoinLowered(lower, words[1..]); }
  }

  lemma {:induction false} FieldsLowered(lower: char -> char, s: string)
    requires Lowered(lower, s)
    ensures forall i :: 0 <= i < |Fields(s)| ==> Lowered(lower, Fields(s)[i])
    decreases |s|
  {
    if s == "" {
    } else if IsSpace(s[0]) {
      FieldsLowered(lower, s[1..]);
    } else {
      FieldsLowered(lower, s[|Word(s)|..]);
    }
  }

  /** Normalised text is lower-cased words separated by single blanks ... */
  lemma NormalizedIsCanonical(lower: char -> char, s: string)
    requires Folding(lower)
    ensures SingleSpaced(NormalizeText(lower, s)) && Lowered(lower, NormalizeText(lower, s))
  {
    var low := ToLower(lower, TrimSpace(s));
    FieldsAreWords(low);
    JoinSingleSpaced(Fields(low));
    FieldsLowered(lower, low);
    JoinLowered(lower, Fields(low));
  }

  /** ... with the words of the original in their order ... */
  lemma NormalizedKeepsWords(lower: char -> char, s: string)
    requires Folding(lower)
    ensures Fields(NormalizeText(lower, s)) == Fields(ToLower(lower, s))
  {
    FieldsAreWords(ToLower(lower, TrimSpace(s)));
    FieldsOfJoin(Fields(ToLower(lower, TrimSpace(s))));
    var i, j := TrimDropsOnly(IsSpace, s);
    LoweredSpaces(lower, s, i, j);
    hide *;
    var low := ToLower(lower, s);
    FieldsSkip(low, i, j);
  }

  /** Lower-casing keeps the spaces around s[i..j], and commutes with taking s[i..j]. */
  lemma LoweredSpaces(lower: char -> char, s: string, i: nat, j: nat)
    requires Folding(lower) && i <= j <= |s| && forall k | 0 <= k < |s| :: k < i || j <= k ==> IsSpace(s[k])
    ensures ToLower(lower, s)[i..j] == ToLower(lower, s[i..j])
    ensures forall k | 0 <= k < |s| :: k < i || j <= k ==> IsSpace(ToLower(lower, s)[k])
  {
    hide IsSpace;
  }

  /** Leading and trailing spaces make no field. */
  lemma {:induction false} FieldsSkip(s: string, i: nat, j: nat)
    requires i <= j <= |s|
    requires forall k | 0 <= k < |s| :: k < i || j <= k ==> IsSpace(s[k])
    ensures Fields(s) == Fields(s[i..j])
    decreases |s|
  {
    if i > 0 {
      FieldsSkip(s[1..], i - 1, j - 1);
      assert s[1..][i - 1..j - 1] == s[i..j];
    } else if j < |s| {
      FieldsSkip(s[..|s| - 1], 0, j);
      assert s[..|s| - 1][..j] == s[..j];
      FieldsDropLast(s);
    } else {
      assert s[i..j] == s;
    }
  }

  lemma {:induction false} FieldsDropLast(s: string)
    requires s != "" && IsSpace(s[|s| - 1])
    ensures Fields(s) == Fields(s[..|s| - 1])
    decreases |s|
  {
    var t := s[..|s| - 1];
    if |s| > 1 && IsSpace(s[0]) {
      FieldsDropLast(s[1..]);
      assert s[1..][..|s| - 2] == t[1..];
    } else if |s| > 1 {
      var w := Word(t);
      WordIsWord(t);
      assert s == w + s[|w|..] && t[|w|..] == s[|w|..][..|s| - 1 - |w|];
      assert |w| < |t| ==> s[|w|] == t[|w|];
      WordOf(w, s[|w|..]);
      FieldsDropLast(s[|w|..]);
    }
  }

  /** ... and normalising it again changes nothing. */
  lemma NormalizeIsIdempotent(lower: char -> char, s: string)
    requires Folding(lower)
    ensures NormalizeText(lower, NormalizeText(lower, s)) == NormalizeText(lower, s)
  {
    var n := NormalizeText(lower, s);
    NormalizedIsCanonical(lower, s);
    assert TrimSpace(n) == n && ToLower(lower, n) == n;
    FieldsAreWords(ToLower(lower, TrimSpace(s)));
    FieldsOfJoin(Fields(ToLower(lower, TrimSpace(s))));
  }

  // ---- Counting mentions ----

  predicate OccursAt(t: string, p: string, i: int) {
    0 <= i <= i + |p| <= |t| && t[i..i + |p|] == p
  }

  predicate Contains(t: string, p: string) {
    exists i :: 0 <= i <= |t| && OccursAt(t, p, i)
  }

  /** The database's replace(t, p, ''). */
  function Erase(t: string, p: string): string
    requires p != ""
  {
    if |t| < |p| then t
    else if t[..|p|] == p then Erase(t[|p|..], p)
    else [t[0]] + Erase(t[1..], p)
  }

  /** How often p occurs in t, scanning from the left and never reusing a character. */
  function Mentions(t: string, p: string): nat
    requires p != ""
  {
    if |t| < |p| then 0
    else if t[..|p|] == p then 1 + Mentions(t[|p|..], p)
    else Mentions(t[1..], p)
  }

  /** The length difference is a multiple of the pattern's length, and the multiple is the number of mentions. */
  lemma {:induction false} DifferenceCounts(t: string, p: string)
    requires p != ""
    ensures |t| - |Erase(t, p)| == Mentions(t, p) * |p|
    ensures (|t| - |Erase(t, p)|) % |p| == 0 && (|t| - |Erase(t, p)|) / |p| == Mentions(t, p)
  {
    if |t| >= |p| {
      if t[..|p|] == p {
        DifferenceCounts(t[|p|..], p);
        OneMore(Mentions(t[|p|..], p), |p|);
      } else {
        DifferenceCounts(t[1..], p);
      }
    }
    QuotientOf(Mentions(t, p), |p|);
  }

  lemma OneMore(q: nat, d: nat)
    ensures (1 + q) * d == d + q * d
  {
  }

  lemma QuotientOf(q: nat, d: nat)
    requires 0 < d
    ensures (q * d) / d == q && (q * d) % d == 0
  {
    var n := q * d;
    var k := n / d - q;
    assert d * k == -(n % d);
    Multiples(d, k);
  }

  lemma Multiples(d: nat, k: int)
    ensures 0 < k ==> d <= d * k
    ensures k < 0 ==> d * k + d <= 0
  {
  }

  /** Occurrences that share no character, in order. */
  predicate Disjoint(t: string, p: string, at: seq<int>) {
    && (forall i :: 0 <= i < |at| ==> OccursAt(t, p, at[i]))
    && (forall i :: 0 < i < |at| ==> at[i - 1] + |p| <= at[i])
  }

  /** The count is reached by some disjoint occurrences ... */
  lemma {:induction false} MentionsReached(t: string, p: string) returns (at: seq<int>)
    requires p != ""
    ensures Disjoint(t, p, at) && |at| == Mentions(t, p)
  {
    if |t| < |p| { return []; }
    var hit := t[..|p|] == p;
    var d := if hit then |p| else 1;
    var later := MentionsReached(t[d..], p);
    var moved := Moved(t, p, d, later);
    if hit {
      assert OccursAt(t, p, 0);
      at := [0] + moved;
      assert moved == at[1..];
    } else {
      at := moved;
    }
  }

  lemma Moved(t: string, p: string, d: nat, later: seq<int>) returns (moved: seq<int>)
    requires p != "" && d <= |t| && Disjoint(t[d..], p, later)
    ensures Disjoint(t, p, moved) && |moved| == |later| && forall i :: 0 <= i < |moved| ==> d <= moved[i]
  {
    moved := seq(|later|, i requires 0 <= i < |later| => later[i] + d);
    forall i | 0 <= i < |moved|
      ensures OccursAt(t, p, moved[i]) && d <= moved[i]
    {
      assert OccursAt(t[d..], p, later[i]);
      assert t[moved[i]..moved[i] + |p|] == t[d..][later[i]..later[i] + |p|];
    }
    forall i | 0 < i < |moved|
      ensures moved[i - 1] + |p| <= moved[i]
    {
      assert later[i - 1] + |p| <= later[i];
    }
  }

  /** ... and no disjoint occurrences are more: scanning from the left loses nothing. */
  lemma {:induction false} MentionsMost(t: string, p: string, at: seq<int>)
    requires p != "" && Disjoint(t, p, at)
    ensures |at| <= Mentions(t, p)
  {
    if at == [] { return; }
    assert OccursAt(t, p, at[0]) && |p| <= |t|;
    var d := if t[..|p|] == p then |p| else 1;
    var kept := if at[0] < d then at[1..] else at;
    assert at[0] == 0 ==> t[0..|p|] == t[..|p|];
    StartsAscend(t, p, at);
    var moved := seq(|kept|, i requires 0 <= i < |kept| => kept[i] - d);
    forall i | 0 <= i < |moved|
      ensures OccursAt(t[d..], p, moved[i])
    {
      assert OccursAt(t, p, kept[i]);
      OccursLater(t, p, d, kept[i]);
    }
    forall i | 0 < i < |moved|
      ensures moved[i - 1] + |p| <= moved[i]
    {
      assert kept[i - 1] + |p| <= kept[i];
    }
    MentionsMost(t[d..], p, moved);
  }

  lemma OccursLater(t: string, p: string, d: nat, i: int)
    requires d <= |t| && d <= i && OccursAt(t, p, i)
    ensures OccursAt(t[d..], p, i - d)
  {
    var u := t[d..];
    assert u[i - d..i - d + |p|] == t[i..i + |p|];
  }

  lemma {:induction false} StartsAscend(t: string, p: string, at: seq<int>)
    requires p != "" && Disjoint(t, p, at) && at != []
    ensures forall i :: 0 < i < |at| ==> at[0] + |p| <= at[i]
  {
    var i := 1;
    while i < |at|
      invariant 1 <= i <= |at|
      invariant forall k :: 0 < k < i ==> at[0] + |p| <= at[k]
    {
      assert at[i - 1] + |p| <= at[i];
      i := i + 1;
    }
  }

  /** Messages that do not contain the text add nothing, so the query may leave them out. */
  lemma MentionedWhenContained(t: string, p: string)
    requires p != ""
    ensures Mentions(t, p) > 0 <==> Contains(t, p)
  {
    if Mentions(t, p) > 0 {
      var at := MentionsReached(t, p);
      assert OccursAt(t, p, at[0]);
    }
    if Contains(t, p) {
      var i :| 0 <= i <= |t| && OccursAt(t, p, i);
      MentionsMost(t, p, [i]);
    }
  }

  /** The query's sum over the messages that contain the text. */
  function CountMentions(texts: seq<string>, p: string): int
    requires p != ""
  {
    if texts == [] then 0
    else
      var t := texts[|texts| - 1];
      CountMentions(texts[..|texts| - 1], p) + if Contains(t, p) then (|t| - |Erase(t, p)|) / |p| else 0
  }

  function TotalMentions(texts: seq<string>, p: string): nat
    requires p != ""
  {
    if texts == [] then 0 else TotalMentions(texts[..|texts| - 1], p) + Mentions(texts[|texts| - 1], p)
  }

  lemma {:induction false} CountIsTotal(texts: seq<string>, p: string)
    requires p != ""
    ensures CountMentions(texts, p) == TotalMentions(texts, p)
  {
    if texts != [] {
      CountIsTotal(texts[..|texts| - 1], p);
      DifferenceCounts(texts[|texts| - 1], p);
      MentionedWhenContained(texts[|texts| - 1], p);
    }
  }
}
