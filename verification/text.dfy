/** Strings as Go's strings and unicode packages treat them: white space, trimming, numbers. */
module Text {

  /** The characters for which Go's unicode.IsSpace holds. */
  predicate IsSpace(c: char) {
    var n := c as int;
    || 0x09 <= n <= 0x0D || n == 0x20 || n == 0x85 || n == 0xA0 || n == 0x1680
    || 0x2000 <= n <= 0x200A || n == 0x2028 || n == 0x2029 || n == 0x202F || n == 0x205F || n == 0x3000
  }

  /** No character of the class at either end. */
  predicate TrimmedOf(p: char -> bool, s: string) {
    s == "" || (!p(s[0]) && !p(s[|s| - 1]))
  }

  function Trim(p: char -> bool, s: string): (r: string)
    ensures TrimmedOf(p, r)
    ensures TrimmedOf(p, s) ==> r == s
    ensures |r| <= |s|
  {
    if s == "" then s
    else if p(s[0]) then Trim(p, s[1..])
    else if p(s[|s| - 1]) then Trim(p, s[..|s| - 1])
    else s
  }

  /** Only characters of the class are dropped, and only at the ends. */
  lemma {:induction false} TrimDropsOnly(p: char -> bool, s: string) returns (i: nat, j: nat)
    ensures i <= j <= |s| && Trim(p, s) == s[i..j]
    ensures forall k | 0 <= k < |s| :: k < i || j <= k ==> p(s[k])
  {
    if s != "" && p(s[0]) {
      var t := s[1..];
      var a, b := TrimDropsOnly(p, t);
      hide Trim;
      i, j := a + 1, b + 1;
      assert s[i..j] == t[a..b];
      forall k | 0 <= k < |s| && (k < i || j <= k)
        ensures p(s[k])
      {
        if k > 0 { assert s[k] == t[k - 1]; }
      }
    } else if s != "" && p(s[|s| - 1]) {
      var t := s[..|s| - 1];
      i, j := TrimDropsOnly(p, t);
      hide Trim;
      assert s[i..j] == t[i..j];
      forall k | 0 <= k < |s| && (k < i || j <= k)
        ensures p(s[k])
      {
        if k < |t| { assert s[k] == t[k]; }
      }
    } else {
      i, j := 0, |s|;
    }
  }

  /** Trimming may start at either end. */
  lemma {:induction false} TrimLast(p: char -> bool, s: string)
    requires s != "" && p(s[|s| - 1])
    ensures Trim(p, s) == Trim(p, s[..|s| - 1])
  {
    if |s| > 1 && p(s[0]) {
      TrimLast(p, s[1..]);
      assert s[1..][..|s| - 2] == s[..|s| - 1][1..];
    }
  }

  /** Characters of the class around a string are trimmed off with it. */
  lemma {:induction false} TrimAround(p: char -> bool, before: string, s: string, after: string)
    requires forall c :: c in before || c in after ==> p(c)
    ensures Trim(p, before + s + after) == Trim(p, s)
    decreases |before| + |after|
  {
    var all := before + s + after;
    if before != "" {
      assert all[0] == before[0] && all[1..] == before[1..] + s + after;
      TrimAround(p, before[1..], s, after);
    } else if after != "" {
      assert all[|all| - 1] == after[|after| - 1] && all[..|all| - 1] == before + s + after[..|after| - 1];
      TrimLast(p, all);
      TrimAround(p, before, s, after[..|after| - 1]);
    } else {
      assert all == s;
    }
  }

  predicate Trimmed(s: string) {
    TrimmedOf(IsSpace, s)
  }

  /** strings.TrimSpace. */
  function TrimSpace(s: string): (r: string)
    ensures Trimmed(r)
    ensures Trimmed(s) ==> r == s
    ensures |r| <= |s|
  {
    Trim(IsSpace, s)
  }

  /** A number in decimal digits. */
  function Decimal(n: nat): string {
    (if n < 10 then "" else Decimal(n / 10)) + ["0123456789"[n % 10]]
  }
}
