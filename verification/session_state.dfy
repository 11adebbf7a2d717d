/** The map of source fingerprints already shown in a session, and the cleaning copy made of it
    (copySeen in internal/contextbroker/packer.go, copyContextState in internal/agent/followup.go). */
module SessionState {
  import opened Text

  /** Keys and values are trimmed and non-blank. */
  predicate CleanMap(m: map<string, string>) {
    forall k :: k in m ==> k != "" && Trimmed(k) && m[k] != "" && Trimmed(m[k])
  }

  /** The copy has, for every trimmed key with a usable entry, the trimmed value of one such entry: Go visits
      the entries in no particular order, so colliding keys leave any one of them. */
  ghost predicate CleanCopy(seen: map<string, string>, copied: map<string, string>) {
    && (forall k :: k in copied ==> exists raw ::
        raw in seen && Entry(seen, raw, k) && copied[k] == TrimSpace(seen[raw]))
    && (forall raw :: raw in seen && Entry(seen, raw, TrimSpace(raw)) ==> TrimSpace(raw) in copied)
  }

  predicate Entry(seen: map<string, string>, raw: string, key: string)
    requires raw in seen
  {
    key != "" && TrimSpace(raw) == key && TrimSpace(seen[raw]) != ""
  }

  /** A copy is clean, and copying a clean map changes nothing. */
  lemma CleanCopyIsClean(seen: map<string, string>, copied: map<string, string>)
    requires CleanCopy(seen, copied)
    ensures CleanMap(copied)
    ensures CleanMap(seen) ==> copied == seen
  {
    forall k | k in copied
      ensures k != "" && Trimmed(k) && copied[k] != "" && Trimmed(copied[k])
      ensures CleanMap(seen) ==> k in seen && copied[k] == seen[k]
    {
      hide Trimmed;
      var raw :| raw in seen && Entry(seen, raw, k) && copied[k] == TrimSpace(seen[raw]);
    }
    if CleanMap(seen) {
      hide Trimmed;
      forall k | k in seen
        ensures k in copied
      {
        assert Entry(seen, k, TrimSpace(k));
      }
    }
  }

  method CopySeen(seen: map<string, string>) returns (copied: map<string, string>)
    ensures CleanCopy(seen, copied)
  {
    copied := map[];
    var rest := seen.Keys;
    while rest != {}
      invariant rest <= seen.Keys
      invariant forall k :: k in copied ==> exists raw ::
          raw in seen && Entry(seen, raw, k) && copied[k] == TrimSpace(seen[raw])
      invariant forall raw :: raw in seen && raw !in rest && Entry(seen, raw, TrimSpace(raw)) ==>
          TrimSpace(raw) in copied
      decreases |rest|
    {
      var raw :| raw in rest;
      rest := rest - {raw};
      var key, value := TrimSpace(raw), TrimSpace(seen[raw]);
      if key != "" && value != "" {
        assert Entry(seen, raw, key);
        copied := copied[key := value];
      }
    }
  }
}
