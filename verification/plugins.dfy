/** Plugin commands: matching text against triggers, and what validated manifests guarantee
    (internal/plugins/matcher.go, manifest.go). */
module Plugins {
  import opened Outcome
  import opened Text

  /** What is used of Unicode: simple case folding, letters and digits, and the characters capabilities are made of. */
  datatype Alphabet = Alphabet(fold: char -> char, isWordChar: char -> bool, isCapabilityChar: char -> bool)

  datatype Safety = NoSafety | Public | Restricted | OtherSafety

  datatype Dispatch = NoDispatch | DryRun | SendMessage | OtherDispatch

  datatype Adapter = NoAdapter | PrefixCommand | OtherAdapter

  datatype Trigger = Trigger(kind: string, value: string, aliases: seq<string>)

  datatype Action = Action(
    id: string, trigger: Trigger, surfaces: seq<string>, permissions: seq<string>, safety: Safety, dispatch: Dispatch,
    adapter: Adapter)

  /** restValid stands for the checks of the fields left out. */
  datatype Manifest = Manifest(
    id: string, triggers: seq<Trigger>, actions: seq<Action>, surfaces: seq<string>, permissions: seq<string>,
    dispatch: Dispatch, restValid: bool)

  datatype CommandPlan = CommandPlan(manifest: Manifest, action: Action, command: string, arguments: string,
                                     required: seq<string>)

  // ---- Matching text ----

  predicate EqualFold(l: Alphabet, a: string, b: string) {
    |a| == |b| && forall i :: 0 <= i < |a| ==> l.fold(a[i]) == l.fold(b[i])
  }

  /** The arguments, if the trimmed text is the command or starts with it and a space. */
  function MatchCommand(l: Alphabet, text: string, command: string): (args: Option<string>)
    ensures args.Some? ==> Trimmed(args.value)
  {
    var t, c := TrimSpace(text), TrimSpace(command);
    if |t| < |c| || !EqualFold(l, t[..|c|], c) then None
    else if |t| == |c| then Some("")
    else if !IsSpace(t[|c|]) then None
    else Some(TrimSpace(t[|c|..]))
  }

  function BuildCommand(trigger: string, args: string): string {
    if TrimSpace(args) == "" then TrimSpace(trigger) else TrimSpace(trigger) + " " + TrimSpace(args)
  }

  function TrimLeftTo(l: Alphabet, s: string): string {
    if s == "" || l.isWordChar(s[0]) then s else TrimLeftTo(l, s[1..])
  }

  function BareCommand(l: Alphabet, command: string): string {
    TrimLeftTo(l, TrimSpace(command))
  }

  function UsableAliases(l: Alphabet, value: string, aliases: seq<string>): seq<string> {
    if aliases == [] then []
    else
      var alias := TrimSpace(aliases[0]);
      (if alias == "" || EqualFold(l, alias, value) then [] else [alias]) + UsableAliases(l, value, aliases[1..])
  }

  function TriggerAliases(l: Alphabet, trigger: Trigger): seq<string> {
    var value := TrimSpace(trigger.value);
    var bare := BareCommand(l, value);
    (if bare != "" && !EqualFold(l, bare, value) then [bare] else []) + UsableAliases(l, value, trigger.aliases)
  }

  function MatchFirst(l: Alphabet, text: string, commands: seq<string>): Option<string> {
    if commands == [] then None
    else if MatchCommand(l, text, commands[0]).Some? then MatchCommand(l, text, commands[0])
    else MatchFirst(l, text, commands[1..])
  }

  /** The arguments, by the trigger's value or else the first alias that matches. */
  function MatchPrefixTrigger(l: Alphabet, trigger: Trigger, text: string): Option<string> {
    var value := TrimSpace(trigger.value);
    if value == "" then None
    else if MatchCommand(l, text, value).Some? then MatchCommand(l, text, value)
    else MatchFirst(l, text, TriggerAliases(l, trigger))
  }

  predicate Blank(s: string) {
    forall c :: c in s ==> IsSpace(c)
  }

  /** What is left of a string when the space after it is dropped. */
  lemma KeptPart(tail: string) returns (kept: string)
    ensures kept <= tail && Blank(tail[|kept|..]) && TrimSpace(kept) == TrimSpace(tail)
    ensures kept == "" || !IsSpace(kept[|kept| - 1])
  {
    var i, j := TrimDropsOnly(IsSpace, tail);
    if i == j {
      kept := "";
    } else {
      kept := tail[..j];
      assert kept[j - 1] == TrimSpace(tail)[j - i - 1];
      assert kept == tail[..i] + tail[i..j] + "";
      TrimAround(IsSpace, tail[..i], TrimSpace(tail), "");
    }
    hide IsSpace, Trim;
    assert forall k :: 0 <= k < |tail| - |kept| ==> tail[|kept|..][k] == tail[k + |kept|];
  }

  /** Whoever speaks a command in any case, with any space before it, and either nothing or a space and anything after,
      is understood, and what follows comes back trimmed as the arguments. */
  lemma SpokenIsMatched(l: Alphabet, before: string, spoken: string, tail: string, command: string)
    requires Blank(before) && Trimmed(spoken) && spoken != "" && EqualFold(l, spoken, TrimSpace(command))
    requires tail == "" || IsSpace(tail[0])
    ensures MatchCommand(l, before + spoken + tail, command) == Some(TrimSpace(tail))
  {
    var kept := KeptPart(tail);
    var t, rest := spoken + kept, tail[|kept|..];
    assert before + spoken + tail == before + t + rest;
    TrimAround(IsSpace, before, t, rest);
    assert t[0] == spoken[0] && t[|t| - 1] == if kept == "" then spoken[|spoken| - 1] else kept[|kept| - 1];
    assert TrimSpace(before + spoken + tail) == t;
    hide IsSpace, Trim, TrimSpace;
    assert t[..|spoken|] == spoken && t[|spoken|..] == kept;
    assert kept != "" ==> kept[0] == tail[0] == t[|spoken|];
  }

  /** And nothing else is: matched text is the command, in some case, and that tail. */
  lemma MatchedIsSpoken(l: Alphabet, text: string, command: string) returns (spoken: string, tail: string)
    requires MatchCommand(l, text, command).Some?
    ensures TrimSpace(text) == spoken + tail && EqualFold(l, spoken, TrimSpace(command))
    ensures (tail == "" || IsSpace(tail[0])) && MatchCommand(l, text, command) == Some(TrimSpace(tail))
  {
    var t, c := TrimSpace(text), TrimSpace(command);
    spoken, tail := t[..|c|], t[|c|..];
    assert t == spoken + tail;
  }

  /** Folding tells spaces from other characters. */
  predicate FoldKeepsSpace(l: Alphabet, s: string, t: string) {
    forall i, j | 0 <= i < |s| && 0 <= j < |t| :: l.fold(s[i]) == l.fold(t[j]) ==> IsSpace(s[i]) == IsSpace(t[j])
  }

  /** Two commands match one text only if the shorter also matches the longer: triggers that do not match each other are
      never ambiguous. */
  lemma AmbiguousOnlyIfNested(l: Alphabet, text: string, short: string, long: string)
    requires MatchCommand(l, text, short).Some? && MatchCommand(l, text, long).Some?
    requires |TrimSpace(short)| <= |TrimSpace(long)| && FoldKeepsSpace(l, TrimSpace(text), TrimSpace(long))
    ensures MatchCommand(l, long, short).Some?
  {
    hide IsSpace, TrimSpace;
    var t, a, b := TrimSpace(text), TrimSpace(short), TrimSpace(long);
    assert forall i :: 0 <= i < |a| ==> t[..|a|][i] == t[i];
    assert forall i :: 0 <= i < |b| ==> t[..|b|][i] == t[i] && l.fold(t[i]) == l.fold(b[i]);
    assert forall i :: 0 <= i < |a| ==> b[..|a|][i] == b[i];
    if |b| > |a| { assert l.fold(t[|a|]) == l.fold(b[|a|]); }
  }

  /** A built command matches its own trigger, with the same arguments. */
  lemma BuiltCommandMatches(l: Alphabet, trigger: Trigger, args: string)
    requires TrimSpace(trigger.value) != ""
    ensures MatchPrefixTrigger(l, trigger, BuildCommand(trigger.value, args)) == Some(TrimSpace(args))
  {
    var v, a := TrimSpace(trigger.value), TrimSpace(args);
    var built := BuildCommand(trigger.value, args);
    hide Trim;
    if a != "" {
      assert built[0] == v[0] && built[|built| - 1] == a[|a| - 1];
      assert built[..|v|] == v && built[|v|] == ' ' && built[|v|..] == " " + a;
      TrimBlankBefore(a);
    } else {
      assert built == v && v[..|v|] == v;
    }
  }

  lemma TrimBlankBefore(a: string)
    requires Trimmed(a)
    ensures TrimSpace(" " + a) == a
  {
    assert (" " + a)[1..] == a;
  }

  lemma {:induction false} MatchFirstTrimmed(l: Alphabet, text: string, commands: seq<string>)
    ensures var args := MatchFirst(l, text, commands); args.Some? ==> Trimmed(args.value)
  {
    if commands != [] { MatchFirstTrimmed(l, text, commands[1..]); }
  }

  /** Matching again the command built from a match, by value or by alias, gives the same command and arguments. */
  lemma RematchIsStable(l: Alphabet, trigger: Trigger, text: string)
    requires MatchPrefixTrigger(l, trigger, text).Some?
    ensures var args := MatchPrefixTrigger(l, trigger, text).value;
            MatchPrefixTrigger(l, trigger, BuildCommand(trigger.value, args)) == Some(args) && Trimmed(args)
  {
    MatchFirstTrimmed(l, text, TriggerAliases(l, trigger));
    BuiltCommandMatches(l, trigger, MatchPrefixTrigger(l, trigger, text).value);
  }

  // ---- Capabilities ----

  function NormalizeCapability(l: Alphabet, value: string): Option<string> {
    var v := TrimSpace(value);
    if v == "" || |v| > 128 || exists i :: 0 <= i < |v| && !l.isCapabilityChar(v[i]) then None else Some(v)
  }

  /** The capabilities an action requires: permissions that are no capability are dropped. */
  function Required(l: Alphabet, permissions: seq<string>): seq<string> {
    if permissions == [] then []
    else
      var c := NormalizeCapability(l, permissions[0]);
      (if c.Some? then [c.value] else []) + Required(l, permissions[1..])
  }

  predicate ValidPermissions(l: Alphabet, permissions: seq<string>) {
    forall i :: 0 <= i < |permissions| ==> NormalizeCapability(l, permissions[i]).Some?
  }

  /** No permission is dropped exactly when all are capabilities, and then each is required as it stands, trimmed. */
  lemma {:induction false} NoneDroppedIffValid(l: Alphabet, permissions: seq<string>)
    ensures |Required(l, permissions)| <= |permissions|
    ensures |Required(l, permissions)| == |permissions| <==> ValidPermissions(l, permissions)
    ensures ValidPermissions(l, permissions) ==>
      forall i :: 0 <= i < |permissions| ==> Required(l, permissions)[i] == TrimSpace(permissions[i])
  {
    if permissions != [] {
      var rest := permissions[1..];
      NoneDroppedIffValid(l, rest);
      hide NormalizeCapability, TrimSpace;
      CapabilityIsTrimmed(l, permissions[0]);
      if ValidPermissions(l, permissions) {
        assert forall i :: 0 <= i < |rest| ==> rest[i] == permissions[i + 1];
        forall i | 0 <= i < |permissions|
          ensures Required(l, permissions)[i] == TrimSpace(permissions[i])
        {
          if i > 0 { assert permissions[i] == rest[i - 1]; }
        }
      } else if ValidPermissions(l, rest) {
        var i :| 0 <= i < |permissions| && NormalizeCapability(l, permissions[i]).None?;
        if i > 0 { assert rest[i - 1] == permissions[i]; }
      }
    }
  }

  lemma CapabilityIsTrimmed(l: Alphabet, value: string)
    ensures var c := NormalizeCapability(l, value); c.Some? ==> c.value == TrimSpace(value)
  {
  }

  // ---- Actions ----

  function SafetyFor(permissions: seq<string>): Safety {
    if permissions == [] then Public else Restricted
  }

  function NormalizedDispatch(d: Dispatch): Dispatch {
    if d == NoDispatch then DryRun else d
  }

  function NormalizeAction(m: Manifest, a: Action): Action {
    a.(id := TrimSpace(a.id),
       surfaces := if a.surfaces == [] then m.surfaces else a.surfaces,
       safety := if a.safety == NoSafety then SafetyFor(a.permissions) else a.safety,
       dispatch := NormalizedDispatch(if a.dispatch == NoDispatch then m.dispatch else a.dispatch),
       adapter := if a.adapter == NoAdapter then PrefixCommand else a.adapter)
  }

  function LegacyAction(m: Manifest, k: nat): Action
    requires k < |m.triggers|
  {
    Action(if |m.triggers| > 1 then "legacy-" + Decimal(k + 1) else "legacy", m.triggers[k], m.surfaces, m.permissions,
           SafetyFor(m.permissions), NormalizedDispatch(m.dispatch), PrefixCommand)
  }

  function NormalizedActions(m: Manifest): seq<Action> {
    if m.actions != [] then seq(|m.actions|, k requires 0 <= k < |m.actions| => NormalizeAction(m, m.actions[k]))
    else seq(|m.triggers|, k requires 0 <= k < |m.triggers| => LegacyAction(m, k))
  }

  predicate ValidTrigger(t: Trigger) {
    TrimSpace(t.kind) != "" && TrimSpace(t.value) != ""
      && forall i :: 0 <= i < |t.aliases| ==> TrimSpace(t.aliases[i]) != ""
  }

  predicate ValidSurfaces(surfaces: seq<string>) {
    forall i :: 0 <= i < |surfaces| ==> TrimSpace(surfaces[i]) != ""
  }

  predicate ValidAction(l: Alphabet, m: Manifest, a: Action) {
    && TrimSpace(a.id) != "" && ValidTrigger(a.trigger)
    && (a.surfaces != [] || m.surfaces != []) && ValidSurfaces(if a.surfaces == [] then m.surfaces else a.surfaces)
    && ValidPermissions(l, a.permissions)
    && (a.safety == Public || a.safety == Restricted)
    && !(a.safety == Public && a.permissions != []) && !(a.safety == Restricted && a.permissions == [])
    && a.dispatch != OtherDispatch && a.adapter != OtherAdapter
  }

  predicate ValidManifest(l: Alphabet, m: Manifest) {
    && TrimSpace(m.id) != "" && (m.triggers != [] || m.actions != [])
    && (forall k :: 0 <= k < |m.triggers| ==> ValidTrigger(m.triggers[k]))
    && (m.surfaces != [] || m.actions != []) && ValidSurfaces(m.surfaces) && ValidPermissions(l, m.permissions)
    && m.dispatch != OtherDispatch
    && (forall k :: 0 <= k < |m.actions| ==> ValidAction(l, m, m.actions[k]))
    && m.restValid
  }

  /** In a validated manifest every action keeps all its permissions, and is public exactly when it has none. */
  lemma ValidatedActionsKeepPermissions(l: Alphabet, m: Manifest, k: nat)
    requires ValidManifest(l, m) && k < |NormalizedActions(m)|
    ensures var a := NormalizedActions(m)[k];
            && |Required(l, a.permissions)| == |a.permissions|
            && (forall i :: 0 <= i < |a.permissions| ==> Required(l, a.permissions)[i] == TrimSpace(a.permissions[i]))
            && (a.safety == Public <==> a.permissions == []) && (a.safety == Public || a.safety == Restricted)
            && ValidTrigger(a.trigger) && a.dispatch in {DryRun, SendMessage} && a.adapter == PrefixCommand
  {
    var a := NormalizedActions(m)[k];
    assert m.actions != [] ==> ValidAction(l, m, m.actions[k]);
    NoneDroppedIffValid(l, a.permissions);
  }

  // ---- Planning ----

  datatype Candidate = Candidate(manifest: Manifest, action: Action)

  predicate Supports(a: Action, surface: string) {
    exists i :: 0 <= i < |a.surfaces| && TrimSpace(a.surfaces[i]) == surface
  }

  function Among(m: Manifest, actions: seq<Action>, surface: string): seq<Candidate> {
    if actions == [] then []
    else
      var a := actions[0];
      var head := if Supports(a, surface) && TrimSpace(a.trigger.kind) == "prefix" then [Candidate(m, a)] else [];
      head + Among(m, actions[1..], surface)
  }

  /** The prefix actions of a surface, in the order both searches visit them. */
  function Candidates(manifests: seq<Manifest>, surface: string): seq<Candidate> {
    if manifests == [] then []
    else Among(manifests[0], NormalizedActions(manifests[0]), surface) + Candidates(manifests[1..], surface)
  }

  function First(cs: seq<Candidate>, p: Candidate -> bool): (k: Option<nat>)
    ensures k.Some? ==> k.value < |cs| && p(cs[k.value]) && forall i :: 0 <= i < k.value ==> !p(cs[i])
    ensures k.None? ==> forall i :: 0 <= i < |cs| ==> !p(cs[i])
  {
    if cs == [] then None
    else if p(cs[0]) then Some(0)
    else
      var rest := First(cs[1..], p);
      assert forall i :: 0 < i < |cs| ==> cs[i] == cs[1..][i - 1];
      if rest.None? then None else Some(rest.value + 1)
  }

  function PlanOf(l: Alphabet, c: Candidate, args: string): CommandPlan {
    var a := c.action;
    CommandPlan(c.manifest, a, BuildCommand(a.trigger.value, args), args, Required(l, a.permissions))
  }

  predicate Matches(l: Alphabet, c: Candidate, text: string) {
    MatchPrefixTrigger(l, c.action.trigger, text).Some?
  }

  function PlanCommand(l: Alphabet, manifests: seq<Manifest>, surface: string, text: string): Option<CommandPlan> {
    var s, t := TrimSpace(surface), TrimSpace(text);
    if s == "" || t == "" then None
    else
      var cs := Candidates(manifests, s);
      var k := First(cs, c => Matches(l, c, t));
      if k.None? then None else Some(PlanOf(l, cs[k.value], MatchPrefixTrigger(l, cs[k.value].action.trigger, t).value))
  }

  predicate Named(c: Candidate, pluginID: string, value: string) {
    TrimSpace(c.manifest.id) == pluginID && TrimSpace(c.action.trigger.value) == value
  }

  function PlanCommandFromTrigger(l: Alphabet, manifests: seq<Manifest>, surface: string, pluginID: string, value: string,
                                  arguments: string): Option<CommandPlan>
  {
    var s, id, v := TrimSpace(surface), TrimSpace(pluginID), TrimSpace(value);
    if s == "" || id == "" || v == "" then None
    else
      var cs := Candidates(manifests, s);
      var k := First(cs, c => Named(c, id, v));
      if k.None? then None else Some(PlanOf(l, cs[k.value], TrimSpace(arguments)))
  }

  /** The candidate at k is the one planned for text. */
  predicate PlannedAt(l: Alphabet, cs: seq<Candidate>, k: nat, text: string) {
    k < |cs| && Matches(l, cs[k], text) && forall i :: 0 <= i < k ==> !Matches(l, cs[i], text)
  }

  lemma PlannedCandidate(l: Alphabet, manifests: seq<Manifest>, surface: string, text: string)
    returns (k: nat, args: string)
    requires PlanCommand(l, manifests, surface, text).Some?
    ensures var cs := Candidates(manifests, TrimSpace(surface));
            && PlannedAt(l, cs, k, TrimSpace(text))
              && MatchPrefixTrigger(l, cs[k].action.trigger, TrimSpace(text)) == Some(args)
            && PlanCommand(l, manifests, surface, text).value == PlanOf(l, cs[k], args)
    ensures Trimmed(args) && TrimSpace(surface) != ""
  {
    var cs, t := Candidates(manifests, TrimSpace(surface)), TrimSpace(text);
    k := First(cs, c => Matches(l, c, t)).value;
    args := MatchPrefixTrigger(l, cs[k].action.trigger, t).value;
    hide Candidates, PlanOf, MatchPrefixTrigger;
    assert forall i :: 0 <= i < k ==> !Matches(l, cs[i], t);
    RematchIsStable(l, cs[k].action.trigger, t);
  }

  /** Nothing before the planned candidate is equal to it, since it would match as well. */
  lemma PlannedOnce(l: Alphabet, cs: seq<Candidate>, k: nat, text: string, j: nat)
    requires PlannedAt(l, cs, k, text) && j <= k && cs[j] == cs[k]
    ensures j == k
  {
    hide MatchPrefixTrigger;
  }

  /** Planning the planned command again finds a candidate, at the latest the same one; and the plan comes back exactly
      when no candidate before it matches its command. */
  lemma ReplanIff(l: Alphabet, manifests: seq<Manifest>, surface: string, text: string) returns (k: nat, again: nat)
    requires PlanCommand(l, manifests, surface, text).Some?
    ensures var p := PlanCommand(l, manifests, surface, text).value;
            var cs := Candidates(manifests, TrimSpace(surface));
            && PlannedAt(l, cs, k, TrimSpace(text)) && cs[k] == Candidate(p.manifest, p.action)
            && again <= k && PlannedAt(l, cs, again, p.command) && PlanCommand(l, manifests, surface, p.command).Some?
            && (PlanCommand(l, manifests, surface, p.command) == Some(p) <==>
                forall i :: 0 <= i < k ==> !Matches(l, cs[i], p.command))
  {
    var args;
    k, args := PlannedCandidate(l, manifests, surface, text);
    var cs := Candidates(manifests, TrimSpace(surface));
    var p := PlanOf(l, cs[k], args);
    RematchIsStable(l, cs[k].action.trigger, TrimSpace(text));
    MatchedHasValue(l, cs[k].action.trigger, TrimSpace(text));
    BuiltIsTrimmed(cs[k].action.trigger.value, args);
    hide Candidates, MatchPrefixTrigger, BuildCommand, TrimSpace;
    assert Matches(l, cs[k], p.command);
    again := First(cs, c => Matches(l, c, p.command)).value;
    if cs[again] == cs[k] { PlannedOnce(l, cs, k, TrimSpace(text), again); }
  }

  lemma MatchedHasValue(l: Alphabet, trigger: Trigger, text: string)
    requires MatchPrefixTrigger(l, trigger, text).Some?
    ensures TrimSpace(trigger.value) != ""
  {
  }

  lemma BuiltIsTrimmed(value: string, args: string)
    requires TrimSpace(value) != ""
    ensures BuildCommand(value, args) != "" && TrimSpace(BuildCommand(value, args)) == BuildCommand(value, args)
  {
    var v, a, built := TrimSpace(value), TrimSpace(args), BuildCommand(value, args);
    if a != "" {
      assert built[0] == v[0] && built[|built| - 1] == a[|a| - 1];
    }
  }

  lemma NamedCandidate(l: Alphabet, manifests: seq<Manifest>, surface: string, pluginID: string, value: string,
                       arguments: string, k: nat)
    returns (j: nat)
    requires var cs := Candidates(manifests, TrimSpace(surface));
             k < |cs| && Named(cs[k], TrimSpace(pluginID), TrimSpace(value))
    requires TrimSpace(surface) != "" && TrimSpace(pluginID) != "" && TrimSpace(value) != ""
    ensures var cs, id, v := Candidates(manifests, TrimSpace(surface)), TrimSpace(pluginID), TrimSpace(value);
            && j <= k && Named(cs[j], id, v) && (forall i :: 0 <= i < j ==> !Named(cs[i], id, v))
            && PlanCommandFromTrigger(l, manifests, surface, pluginID, value, arguments)
               == Some(PlanOf(l, cs[j], TrimSpace(arguments)))
  {
    hide Candidates, PlanOf, TrimSpace;
    var cs, id, v := Candidates(manifests, TrimSpace(surface)), TrimSpace(pluginID), TrimSpace(value);
    j := First(cs, d => Named(d, id, v)).value;
  }

  /** Naming the planned trigger by its plugin and value plans the same command with the same arguments. The action, and
      with it the required capabilities, is that of the first candidate so named; and the plan is the same exactly when
      no candidate before the planned one has that plugin and value. */
  lemma TriggerPlanAgrees(l: Alphabet, manifests: seq<Manifest>, surface: string, text: string) returns (k: nat, j: nat)
    requires PlanCommand(l, manifests, surface, text).Some?
    requires TrimSpace(PlanCommand(l, manifests, surface, text).value.manifest.id) != ""
    ensures var p := PlanCommand(l, manifests, surface, text).value;
            var cs := Candidates(manifests, TrimSpace(surface));
            var value := p.action.trigger.value;
            var named := PlanCommandFromTrigger(l, manifests, surface, p.manifest.id, value, p.arguments);
            && PlannedAt(l, cs, k, TrimSpace(text)) && j <= k && cs[k] == Candidate(p.manifest, p.action)
            && named.Some? && named.value.command == p.command && named.value.arguments == p.arguments
            && cs[j] == Candidate(named.value.manifest, named.value.action)
            && (named == Some(p) <==> forall i :: 0 <= i < k ==> !Named(cs[i], TrimSpace(p.manifest.id), TrimSpace(value)))
  {
    var args;
    k, args := PlannedCandidate(l, manifests, surface, text);
    var cs := Candidates(manifests, TrimSpace(surface));
    MatchedHasValue(l, cs[k].action.trigger, TrimSpace(text));
    hide Candidates, MatchPrefixTrigger, TrimSpace, Required, PlanCommand, PlanCommandFromTrigger;
    j := NamedCandidate(l, manifests, surface, cs[k].manifest.id, cs[k].action.trigger.value, args, k);
    if cs[j] == cs[k] { PlannedOnce(l, cs, k, TrimSpace(text), j); }
  }

  // ---- Where the two searches part ----

  /** Letters in their plain, caseless alphabet, for the examples. */
  const PLAIN := Alphabet(c => c, c => 'a' <= c <= 'z', c => 'a' <= c <= 'z')

  function Example(id: string, value: string, aliases: seq<string>, permissions: seq<string>): Action {
    var trigger := Trigger("prefix", value, aliases);
    Action(id, trigger, ["guild_text"], permissions, SafetyFor(permissions), SendMessage, PrefixCommand)
  }

  function ExampleManifest(a: Action, b: Action): Manifest {
    Manifest("plugin", [], [a, b], [], [], DryRun, true)
  }

  lemma ExampleCandidates(a: Action, b: Action)
    requires a.surfaces == b.surfaces == ["guild_text"] && a.trigger.kind == b.trigger.kind == "prefix"
    requires Trimmed(a.id) && Trimmed(b.id) && a.safety == SafetyFor(a.permissions) && b.safety == SafetyFor(b.permissions)
    requires a.dispatch == b.dispatch == SendMessage && a.adapter == b.adapter == PrefixCommand
    ensures var m := ExampleManifest(a, b); Candidates([m], "guild_text") == [Candidate(m, a), Candidate(m, b)]
  {
    var m := ExampleManifest(a, b);
    Plain("guild_text");
    Plain("prefix");
    Plain(a.id);
    Plain(b.id);
    assert a.surfaces[0] == b.surfaces[0] == "guild_text";
    assert NormalizedActions(m) == [a, b];
    assert Among(m, [a, b], "guild_text") == [Candidate(m, a)] + Among(m, [b], "guild_text") by {
      assert [a, b][1..] == [b];
    }
    assert Among(m, [b], "guild_text") == [Candidate(m, b)] + Among(m, [], "guild_text") by {
      assert [b][1..] == [];
    }
    assert [m][1..] == [];
  }

  lemma ExampleIsValid(a: Action, b: Action)
    requires ValidExample(a) && ValidExample(b)
    ensures ValidManifest(PLAIN, ExampleManifest(a, b))
  {
    Plain("plugin");
    Plain("guild_text");
    hide TrimSpace, ValidTrigger, ValidPermissions;
    var m := ExampleManifest(a, b);
    assert ValidAction(PLAIN, m, a) && ValidAction(PLAIN, m, b);
  }

  predicate ValidExample(a: Action) {
    && TrimSpace(a.id) != "" && ValidTrigger(a.trigger) && a.surfaces == ["guild_text"]
    && ValidPermissions(PLAIN, a.permissions) && a.safety == SafetyFor(a.permissions)
    && a.dispatch == SendMessage && a.adapter == PrefixCommand
  }

  lemma Plain(s: string)
    requires Trimmed(s)
    ensures TrimSpace(s) == s
  {
  }

  /** An alias may lead to a command that an earlier trigger takes: "ls now" plans "!play list now", which the trigger
      "!play" before it claims with other arguments. */
  lemma ReplannedElsewhere() returns (m: Manifest, p: CommandPlan, q: CommandPlan)
    ensures PlanCommand(PLAIN, [m], "guild_text", "ls now") == Some(p) && p.command == "!play list now"
    ensures PlanCommand(PLAIN, [m], "guild_text", p.command) == Some(q) && q.command == p.command
    ensures p.arguments == "now" && q.arguments == "list now" && q.action != p.action
    ensures ValidManifest(PLAIN, m)
  {
    var a, b := Example("play", "!play", [], []), Example("list", "!play list", ["ls"], []);
    PlayIsValid(a, b);
    m := ExampleManifest(a, b);
    ExampleCandidates(a, b);
    var cs := [Candidate(m, a), Candidate(m, b)];
    PlayMisses();
    ListTakes();
    PlayTakes();
    p, q := PlanOf(PLAIN, cs[1], "now"), PlanOf(PLAIN, cs[0], "list now");
    BuiltExamples();
    hide MatchPrefixTrigger, Candidates, TrimSpace, BuildCommand, Required;
    PlannedFirst(cs, [m], "ls now", 1);
    PlannedFirst(cs, [m], "!play list now", 0);
  }

  lemma PlannedFirst(cs: seq<Candidate>, manifests: seq<Manifest>, text: string, k: nat)
    requires cs == Candidates(manifests, "guild_text") && TrimSpace("guild_text") == "guild_text"
    requires TrimSpace(text) == text && text != "" && PlannedAt(PLAIN, cs, k, text)
    ensures PlanCommand(PLAIN, manifests, "guild_text", text)
         == Some(PlanOf(PLAIN, cs[k], MatchPrefixTrigger(PLAIN, cs[k].action.trigger, text).value))
  {
    hide Candidates, MatchPrefixTrigger, TrimSpace;
    var j := First(cs, c => Matches(PLAIN, c, text));
    assert Matches(PLAIN, cs[k], text) && j.Some? && j.value == k;
  }

  lemma PlayIsValid(a: Action, b: Action)
    requires a == Example("play", "!play", [], []) && b == Example("list", "!play list", ["ls"], [])
    ensures ValidManifest(PLAIN, ExampleManifest(a, b)) && Trimmed(a.id) && Trimmed(b.id)
  {
    Plain("prefix");
    Plain("play");
    Plain("!play");
    Plain("list");
    Plain("!play list");
    Plain("ls");
    ExampleIsValid(a, b);
  }

  lemma PlayMisses()
    ensures MatchPrefixTrigger(PLAIN, Trigger("prefix", "!play", []), "ls now") == None
  {
    Plain("!play");
    Plain("ls now");
    Plain("play");
    assert "!play"[1..] == "play" && TrimLeftTo(PLAIN, "!play") == TrimLeftTo(PLAIN, "play") == "play";
    assert "ls now"[..5][0] == 'l' && "ls now"[..4][0] == 'l';
    assert MatchFirst(PLAIN, "ls now", ["play"]) == MatchFirst(PLAIN, "ls now", ["play"][1..]);
    assert TriggerAliases(PLAIN, Trigger("prefix", "!play", [])) == ["play"];
  }

  lemma ListTakes()
    ensures MatchPrefixTrigger(PLAIN, Trigger("prefix", "!play list", ["ls"]), "ls now") == Some("now")
  {
    Plain("!play list");
    Plain("play list");
    Plain("ls now");
    Plain("ls");
    TrimBlankBefore("now");
    assert "!play list"[1..] == "play list";
    assert TrimLeftTo(PLAIN, "!play list") == TrimLeftTo(PLAIN, "play list") == "play list";
    assert "ls now"[..2] == "ls" && "ls now"[2..] == " " + "now";
    assert TriggerAliases(PLAIN, Trigger("prefix", "!play list", ["ls"])) == ["play list", "ls"] by {
      assert ["ls"][1..] == [];
    }
    assert ["play list", "ls"][1..] == ["ls"];
  }

  lemma PlayTakes()
    ensures MatchPrefixTrigger(PLAIN, Trigger("prefix", "!play", []), "!play list now") == Some("list now")
  {
    Plain("!play");
    Plain("!play list now");
    TrimBlankBefore("list now");
    assert "!play list now"[..5] == "!play" && "!play list now"[5..] == " " + "list now";
  }

  lemma BuiltExamples()
    ensures BuildCommand("!play list", "now") == "!play list now" == BuildCommand("!play", "list now")
    ensures TrimSpace("guild_text") == "guild_text" && TrimSpace("ls now") == "ls now"
    ensures TrimSpace("!play list now") == "!play list now"
  {
    Plain("!play list");
    Plain("now");
    Plain("!play");
    Plain("list now");
    Plain("guild_text");
    Plain("ls now");
    Plain("!play list now");
  }

  /** A trigger shared by two actions of a plugin may name the wrong one: "run" plans the action that requires admin, and
      naming that action's trigger plans the one that requires nothing. */
  lemma NamedElsewhere() returns (m: Manifest, p: CommandPlan, q: CommandPlan)
    ensures PlanCommand(PLAIN, [m], "guild_text", "run") == Some(p) && p.required == ["admin"]
    ensures PlanCommandFromTrigger(PLAIN, [m], "guild_text", m.id, p.action.trigger.value, p.arguments) == Some(q)
    ensures q.command == p.command && q.required == [] && ValidManifest(PLAIN, m)
  {
    var a, b := Example("go", "!go", [], []), Example("run", "!go", ["run"], ["admin"]);
    GoIsValid(a, b);
    m := ExampleManifest(a, b);
    ExampleCandidates(a, b);
    var cs := [Candidate(m, a), Candidate(m, b)];
    GoMisses();
    RunTakes();
    GoRequires();
    p, q := PlanOf(PLAIN, cs[1], ""), PlanOf(PLAIN, cs[0], "");
    hide MatchPrefixTrigger, Candidates, TrimSpace, BuildCommand, Required;
    PlannedFirst(cs, [m], "run", 1);
    var j := NamedCandidate(PLAIN, [m], "guild_text", "plugin", "!go", "", 0);
  }

  lemma GoIsValid(a: Action, b: Action)
    requires a == Example("go", "!go", [], []) && b == Example("run", "!go", ["run"], ["admin"])
    ensures ValidManifest(PLAIN, ExampleManifest(a, b)) && Trimmed(a.id) && Trimmed(b.id)
  {
    Plain("prefix");
    Plain("go");
    Plain("!go");
    Plain("run");
    Plain("admin");
    ExampleIsValid(a, b);
  }

  lemma GoMisses()
    ensures MatchPrefixTrigger(PLAIN, Trigger("prefix", "!go", []), "run") == None
  {
    Plain("!go");
    Plain("run");
    GoAliases();
    assert ["go"][1..] == [];
    hide TriggerAliases, IsSpace;
    assert "run"[..3] == "run" && "run"[..2][0] == 'r';
  }

  lemma RunTakes()
    ensures MatchPrefixTrigger(PLAIN, Trigger("prefix", "!go", ["run"]), "run") == Some("")
  {
    Plain("!go");
    Plain("run");
    GoAliases();
    assert ["go", "run"][1..] == ["run"];
    hide TriggerAliases, IsSpace;
    assert "run"[..3] == "run" && "run"[..2][0] == 'r';
  }

  lemma GoRequires()
    ensures Required(PLAIN, ["admin"]) == ["admin"] && Required(PLAIN, []) == []
    ensures TrimSpace("guild_text") == "guild_text" && TrimSpace("run") == "run" && TrimSpace("") == ""
    ensures TrimSpace("plugin") == "plugin" && TrimSpace("!go") == "!go"
  {
    Plain("guild_text");
    Plain("plugin");
    Plain("!go");
    Plain("run");
    Plain("admin");
    assert ["admin"][1..] == [];
  }

  lemma GoAliases()
    ensures TriggerAliases(PLAIN, Trigger("prefix", "!go", [])) == ["go"]
    ensures TriggerAliases(PLAIN, Trigger("prefix", "!go", ["run"])) == ["go", "run"]
  {
    Plain("!go");
    Plain("go");
    Plain("run");
    assert "!go"[1..] == "go" && TrimLeftTo(PLAIN, "!go") == TrimLeftTo(PLAIN, "go") == "go";
    assert ["run"][1..] == [];
  }

  // ---- What a plan requires ----

  predicate PublicAction(p: CommandPlan) {
    p.action.safety == Public && p.required == []
  }

  lemma {:induction false} AmongIndex(m: Manifest, actions: seq<Action>, surface: string, k: nat) returns (i: nat)
    requires k < |Among(m, actions, surface)|
    ensures i < |actions| && Among(m, actions, surface)[k] == Candidate(m, actions[i]) && Supports(actions[i], surface)
  {
    var head := |Among(m, actions, surface)| - |Among(m, actions[1..], surface)|;
    if k < head {
      i := 0;
    } else {
      i := AmongIndex(m, actions[1..], surface, k - head);
      i := i + 1;
    }
  }

  /** A candidate is an action of one of the manifests, on the surface asked for. */
  lemma {:induction false} CandidateOrigin(manifests: seq<Manifest>, surface: string, k: nat) returns (j: nat, i: nat)
    requires k < |Candidates(manifests, surface)|
    ensures j < |manifests| && i < |NormalizedActions(manifests[j])|
    ensures Candidates(manifests, surface)[k] == Candidate(manifests[j], NormalizedActions(manifests[j])[i])
    ensures Supports(NormalizedActions(manifests[j])[i], surface)
  {
    hide NormalizedActions, Supports, Among;
    var head := Among(manifests[0], NormalizedActions(manifests[0]), surface);
    if k < |head| {
      j := 0;
      i := AmongIndex(manifests[0], NormalizedActions(manifests[0]), surface, k);
    } else {
      j, i := CandidateOrigin(manifests[1..], surface, k - |head|);
      j := j + 1;
    }
  }

  /** A command planned from validated manifests requires every permission of its action, and is public exactly when
      there are none. */
  lemma PlannedKeepsPermissions(l: Alphabet, manifests: seq<Manifest>, surface: string, text: string)
    requires forall j :: 0 <= j < |manifests| ==> ValidManifest(l, manifests[j])
    requires PlanCommand(l, manifests, surface, text).Some?
    ensures var p := PlanCommand(l, manifests, surface, text).value;
            && |p.required| == |p.action.permissions|
            && (forall i :: 0 <= i < |p.required| ==> p.required[i] == TrimSpace(p.action.permissions[i]))
            && (PublicAction(p) <==> p.action.permissions == [])
  {
    var k, args := PlannedCandidate(l, manifests, surface, text);
    var j, i := CandidateOrigin(manifests, TrimSpace(surface), k);
    hide Candidates, MatchPrefixTrigger, NormalizedActions, ValidManifest, Required, TrimSpace, PlanCommand,
      BuildCommand;
    ValidatedActionsKeepPermissions(l, manifests[j], i);
  }

  /** Without validation a public action is one whose declared permissions are all no capabilities. */
  lemma {:induction false} RequiredEmptyIff(l: Alphabet, permissions: seq<string>)
    ensures Required(l, permissions) == [] <==>
      forall i :: 0 <= i < |permissions| ==> NormalizeCapability(l, permissions[i]).None?
  {
    if permissions != [] {
      var rest := permissions[1..];
      RequiredEmptyIff(l, rest);
      hide NormalizeCapability;
      assert forall i :: 0 < i < |permissions| ==> permissions[i] == rest[i - 1];
      assert forall i :: 0 <= i < |rest| ==> rest[i] == permissions[i + 1];
    }
  }
}
