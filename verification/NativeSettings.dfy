/** The flat plugin settings of a Follower: a mirror of its configuration, overlaid on it again. Protected
    records travel through keys that spell the domain and the id. */
module NativeSettings {
  import opened Prelude
  import opened BundleNames
  import opened DomainGraph
  import opened Spelling

  /** The domains whose records can be protected locally. */
  datatype Kept = KeptAccounts | KeptSources | KeptStreamProfiles | KeptOutputProfiles

  function Prefix(d: Kept): string {
    match d
    case KeptAccounts => "protect_m3u_accounts_"
    case KeptSources => "protect_epg_sources_"
    case KeptStreamProfiles => "protect_stream_profiles_"
    case KeptOutputProfiles => "protect_output_profiles_"
  }

  // ----- Printing and parsing ids -----

  function PrintId(id: nat): string
    requires 1 <= id
  {
    Digits(id, 10, 0)
  }

  function ParseId(s: string): Option<nat> {
    if s == "" then None else ParseDigits(s)
  }

  // ----- Protection keys -----

  datatype Entry = Entry(key: string, on: bool)

  predicate StartsWith(s: string, p: string) {
    |p| <= |s| && s[..|p|] == p
  }

  /** The id a key names in a domain, if it is one of its keys. */
  function IdIn(key: string, d: Kept): Option<nat> {
    if StartsWith(key, Prefix(d)) then ParseId(key[|Prefix(d)|..]) else None
  }

  function KeyFor(d: Kept, id: nat): string
    requires 1 <= id
  {
    Prefix(d) + PrintId(id)
  }

  lemma PrefixesDiffer(d: Kept, e: Kept, rest: string)
    ensures StartsWith(Prefix(d) + rest, Prefix(e)) <==> d == e
  {
    var s := Prefix(d) + rest;
    assert s[..|Prefix(d)|] == Prefix(d);
    assert s[8] == Prefix(d)[8];
    if StartsWith(s, Prefix(e)) { assert Prefix(e)[8] == s[..|Prefix(e)|][8] == s[8]; }
  }

  /** A printed key is read back as its id, in its own domain only. */
  lemma KeyReadsBack(d: Kept, id: nat, e: Kept)
    requires 1 <= id
    ensures IdIn(KeyFor(d, id), e) == if d == e then Some(id) else None
  {
    PrefixesDiffer(d, e, PrintId(id));
    ParsePrinted(id);
    assert (Prefix(d) + PrintId(id))[|Prefix(d)|..] == PrintId(id);
  }

  /** The keys of each domain, by example. */
  lemma KeysAsShown()
    ensures KeyFor(KeptAccounts, 7) == "protect_m3u_accounts_7"
    ensures KeyFor(KeptSources, 7) == "protect_epg_sources_7"
    ensures KeyFor(KeptStreamProfiles, 7) == "protect_stream_profiles_7"
    ensures KeyFor(KeptOutputProfiles, 7) == "protect_output_profiles_7"
  {
    assert PrintId(7) == "7" by { assert Digits(0, 10, 0) == ""; }
  }

  /** What an entry says about a domain's protected ids. */
  datatype Reading = Other | Named(id: nat, on: bool)

  function ReadEntry(entry: Entry, d: Kept): Reading {
    match IdIn(entry.key, d)
    case None => Other
    case Some(id) => Named(id, entry.on)
  }

  function ReadAll(entries: seq<Entry>, d: Kept): seq<Reading> {
    seq(|entries|, k requires 0 <= k < |entries| => ReadEntry(entries[k], d))
  }

  function Overlaid(ids: set<nat>, readings: seq<Reading>): set<nat> {
    if readings == [] then ids
    else
      var before := Overlaid(ids, readings[..|readings| - 1]);
      match readings[|readings| - 1]
      case Other => before
      case Named(id, on) => if on then before + {id} else before - {id}
  }

  function OverlaidIds(ids: set<nat>, entries: seq<Entry>, d: Kept): set<nat> {
    Overlaid(ids, ReadAll(entries, d))
  }

  /** An entry is the last to name an id. */
  predicate LastNamed(entries: seq<Entry>, d: Kept, id: nat, k: nat) {
    && k < |entries| && IdIn(entries[k].key, d) == Some(id)
    && forall j :: k < j < |entries| ==> IdIn(entries[j].key, d) != Some(id)
  }

  predicate NeverNamed(entries: seq<Entry>, d: Kept, id: nat) {
    forall k :: 0 <= k < |entries| ==> IdIn(entries[k].key, d) != Some(id)
  }

  lemma {:induction false} LastReadingDecides(ids: set<nat>, readings: seq<Reading>, id: nat, from: nat)
    requires from <= |readings|
    requires forall j :: from <= j < |readings| ==> !(readings[j].Named? && readings[j].id == id)
    ensures id in Overlaid(ids, readings) <==> id in Overlaid(ids, readings[..from])
  {
    if from == |readings| {
      assert readings[..from] == readings;
    } else {
      var n := |readings| - 1;
      LastReadingDecides(ids, readings[..n], id, from);
      assert readings[..n][..from] == readings[..from];
    }
  }

  lemma UnnamedStays(ids: set<nat>, entries: seq<Entry>, d: Kept, id: nat)
    ensures NeverNamed(entries, d, id) ==> (id in OverlaidIds(ids, entries, d) <==> id in ids)
  {
    hide IdIn;
    if NeverNamed(entries, d, id) { LastReadingDecides(ids, ReadAll(entries, d), id, 0); }
  }

  /** The last entry that names an id decides whether it is protected. */
  lemma LastEntryDecides(ids: set<nat>, entries: seq<Entry>, d: Kept, id: nat, k: nat)
    requires LastNamed(entries, d, id, k)
    ensures id in OverlaidIds(ids, entries, d) <==> entries[k].on
  {
    hide IdIn;
    var readings := ReadAll(entries, d);
    LastReadingDecides(ids, readings, id, k + 1);
    assert readings[..k + 1][k] == readings[k] == ReadEntry(entries[k], d);
  }

  /** What the visible keys make of a domain's protected ids. */
  ghost predicate Protects(ids: set<nat>, entries: seq<Entry>, d: Kept, result: set<nat>) {
    && (forall id: nat :: NeverNamed(entries, d, id) ==> (id in result <==> id in ids))
    && (forall id: nat, k: nat :: LastNamed(entries, d, id, k) ==> (id in result <==> entries[k].on))
  }

  lemma OverlaidProtects(ids: set<nat>, entries: seq<Entry>, d: Kept)
    ensures Protects(ids, entries, d, OverlaidIds(ids, entries, d))
  {
    hide OverlaidIds, NeverNamed, IdIn;
    forall id: nat | NeverNamed(entries, d, id) ensures id in OverlaidIds(ids, entries, d) <==> id in ids {
      UnnamedStays(ids, entries, d, id);
    }
    forall id: nat, k: nat | LastNamed(entries, d, id, k)
      ensures k < |entries| && (id in OverlaidIds(ids, entries, d) <==> entries[k].on)
    {
      LastEntryDecides(ids, entries, d, id, k);
    }
  }

  /** The overlay's loop over the visible settings. */
  method OverlayIds(ids: set<nat>, entries: seq<Entry>, d: Kept) returns (existing: set<nat>)
    ensures existing == OverlaidIds(ids, entries, d)
    ensures Protects(ids, entries, d, existing)
  {
    OverlaidProtects(ids, entries, d);
    existing := ids;
    var readings := ReadAll(entries, d);
    for k := 0 to |readings|
      invariant existing == Overlaid(ids, readings[..k])
    {
      assert readings[..k + 1][..k] == readings[..k];
      match readings[k]
      case Other =>
      case Named(id, on) =>
        if on { existing := existing + {id}; } else { existing := existing - {id}; }
    }
    assert readings[..|readings|] == readings;
  }

  type Protection = map<Kept, set<nat>>

  function ProtectedIn(p: Protection, d: Kept): set<nat> {
    if d in p then p[d] else {}
  }

  /** The mirror a node writes: one switched-on key for each protected record and no other, in any order. */
  predicate Snapshot(entries: seq<Entry>, p: Protection) {
    && (forall k :: 0 <= k < |entries| ==> Mirrors(entries[k], p))
    && (forall d, id :: d in p && id in p[d] ==> 1 <= id && Entry(KeyFor(d, id), true) in entries)
  }

  predicate Mirrors(entry: Entry, p: Protection) {
    exists d, id :: d in p && id in p[d] && 1 <= id && entry == Entry(KeyFor(d, id), true)
  }

  /** A mirrored entry names a protected id, and only in its own domain. */
  lemma MirrorReads(entry: Entry, p: Protection, e: Kept)
    requires Mirrors(entry, p)
    ensures var r := ReadEntry(entry, e); r.Named? ==> r.on && r.id in ProtectedIn(p, e)
  {
    var d, id :| d in p && id in p[d] && 1 <= id && entry == Entry(KeyFor(d, id), true);
    KeyReadsBack(d, id, e);
  }

  /** Overlaying switched-on readings adds exactly the ids they name. */
  lemma {:induction false} ReadingsAdd(ids: set<nat>, readings: seq<Reading>, id: nat)
    requires forall k :: 0 <= k < |readings| && readings[k].Named? ==> readings[k].on
    ensures id in Overlaid(ids, readings) <==> id in ids || Named(id, true) in readings
  {
    if readings != [] {
      var n := |readings| - 1;
      ReadingsAdd(ids, readings[..n], id);
      assert readings == readings[..n] + [readings[n]];
    }
  }

  /** The readings of a snapshot name exactly the protected ids. */
  lemma SnapshotReads(entries: seq<Entry>, p: Protection, d: Kept, id: nat)
    requires Snapshot(entries, p)
    ensures Named(id, true) in ReadAll(entries, d) <==> id in ProtectedIn(p, d)
  {
    var readings := ReadAll(entries, d);
    if id in ProtectedIn(p, d) {
      KeyReadsBack(d, id, d);
      var k :| 0 <= k < |entries| && entries[k] == Entry(KeyFor(d, id), true);
      assert readings[k] == ReadEntry(entries[k], d);
    }
    if Named(id, true) in readings {
      var k :| 0 <= k < |readings| && readings[k] == Named(id, true);
      MirrorReads(entries[k], p, d);
    }
  }

  lemma SnapshotSwitchesOn(entries: seq<Entry>, p: Protection, d: Kept)
    requires Snapshot(entries, p)
    ensures forall k :: 0 <= k < |entries| && ReadAll(entries, d)[k].Named? ==> ReadAll(entries, d)[k].on
  {
    forall k | 0 <= k < |entries| && ReadAll(entries, d)[k].Named? ensures ReadAll(entries, d)[k].on {
      MirrorReads(entries[k], p, d);
    }
  }

  /** Through printing and parsing, a node's own snapshot carries exactly its protected ids: overlaid on any
      configuration it adds those and no others. */
  lemma SnapshotAdds(ids: set<nat>, entries: seq<Entry>, p: Protection, d: Kept)
    requires Snapshot(entries, p)
    ensures OverlaidIds(ids, entries, d) == ids + ProtectedIn(p, d)
  {
    SnapshotSwitchesOn(entries, p, d);
    forall id: nat ensures id in OverlaidIds(ids, entries, d) <==> id in ids || id in ProtectedIn(p, d) {
      ReadingsAdd(ids, ReadAll(entries, d), id);
      SnapshotReads(entries, p, d, id);
    }
  }

  /** So overlaying a configuration's own snapshot changes nothing, and on an empty one restores it. */
  lemma ProtectionRoundTrip(entries: seq<Entry>, p: Protection, d: Kept)
    requires Snapshot(entries, p)
    ensures OverlaidIds(ProtectedIn(p, d), entries, d) == ProtectedIn(p, d)
    ensures OverlaidIds({}, entries, d) == ProtectedIn(p, d)
  {
    SnapshotAdds(ProtectedIn(p, d), entries, p, d);
    SnapshotAdds({}, entries, p, d);
  }

  // ----- Check boxes over a list of choices -----

  function Elements<T(==)>(s: seq<T>): set<T> {
    set x | x in s
  }

  /** The chosen elements, in the order of the list. */
  function Pick<T(==)>(s: set<T>, all: seq<T>): seq<T> {
    if all == [] then []
    else Pick(s, all[..|all| - 1]) + if all[|all| - 1] in s then [all[|all| - 1]] else []
  }

  lemma {:induction false} PickSame<T>(s: set<T>, t: set<T>, all: seq<T>)
    requires forall x :: x in all ==> (x in s <==> x in t)
    ensures Pick(s, all) == Pick(t, all)
  {
    if all != [] { PickSame(s, t, all[..|all| - 1]); }
  }

  lemma {:induction false} PickMembers<T>(s: set<T>, all: seq<T>, x: T)
    ensures x in Pick(s, all) <==> x in s && x in all
  {
    if all != [] {
      PickMembers(s, all[..|all| - 1], x);
      assert all == all[..|all| - 1] + [all[|all| - 1]];
    }
  }

  /** A choice after the visible boxes; what has no box keeps its state. */
  function Chosen<T(==)>(configured: seq<T>, boxes: map<T, bool>, all: seq<T>): set<T> {
    set x | x in all && if x in boxes then boxes[x] else x in configured
  }

  /** A list no box touches keeps its spelling, and so does Main's. */
  function Choices<T(==)>(configured: seq<T>, boxes: map<T, bool>, all: seq<T>, follower: bool): seq<T> {
    if follower && exists x :: x in all && x in boxes then Pick(Chosen(configured, boxes, all), all) else configured
  }

  /** A choice with a box follows it, a choice without keeps its state, and nothing else remains. */
  predicate Ticked<T(==)>(configured: seq<T>, boxes: map<T, bool>, all: seq<T>, chosen: seq<T>, x: T) {
    x in chosen <==> x in all && if x in boxes then boxes[x] else x in configured
  }

  predicate AnyBox<T(==)>(boxes: map<T, bool>, all: seq<T>) {
    exists x :: x in all && x in boxes
  }

  /** One list is another with some elements left out. */
  predicate PartOf<T(==)>(part: seq<T>, all: seq<T>) {
    if part == [] then true
    else if all == [] then false
    else PartOf(if part[|part| - 1] == all[|all| - 1] then part[..|part| - 1] else part, all[..|all| - 1])
  }

  lemma {:induction false} PickIsPart<T>(s: set<T>, all: seq<T>)
    ensures PartOf(Pick(s, all), all)
  {
    if all != [] {
      var n := |all| - 1;
      PickIsPart(s, all[..n]);
      var picked := Pick(s, all[..n]);
      if all[n] in s {
        assert (picked + [all[n]])[..|picked|] == picked;
      } else {
        assert Pick(s, all) == picked;
        if picked != [] {
          PickMembers(s, all[..n], picked[|picked| - 1]);
          assert picked[|picked| - 1] in picked;
        }
      }
    }
  }

  /** What the visible boxes make of a list of choices; a list no box touches keeps its spelling. */
  ghost predicate Selects<T(!new)>(configured: seq<T>, boxes: map<T, bool>, all: seq<T>, chosen: seq<T>) {
    if AnyBox(boxes, all) then PartOf(chosen, all) && forall x :: Ticked(configured, boxes, all, chosen, x)
    else chosen == configured
  }

  lemma ChoicesSelect<T(!new)>(configured: seq<T>, boxes: map<T, bool>, all: seq<T>)
    ensures Selects(configured, boxes, all, Choices(configured, boxes, all, true))
  {
    var chosen := Chosen(configured, boxes, all);
    forall x ensures x in Pick(chosen, all) <==> x in chosen && x in all { PickMembers(chosen, all, x); }
    PickIsPart(chosen, all);
  }

  lemma MainsChoices<T>(configured: seq<T>, boxes: map<T, bool>, all: seq<T>)
    ensures Choices(configured, boxes, all, false) == configured
  {
  }

  /** The overlay's loop over the choices. */
  method OverlayChoices<T(==, !new)>(configured: seq<T>, boxes: map<T, bool>, all: seq<T>, follower: bool)
    returns (chosen: seq<T>)
    ensures chosen == Choices(configured, boxes, all, follower)
    ensures follower ==> Selects(configured, boxes, all, chosen)
    ensures !follower ==> chosen == configured
  {
    var selection, saw := Elements(configured), false;
    for k := 0 to |all|
      invariant forall x :: x in selection <==>
        if x in boxes && x in all[..k] then boxes[x] else x in configured
      invariant saw <==> exists x :: x in all[..k] && x in boxes
    {
      var next := all[..k + 1];
      assert next == all[..k] + [all[k]];
      if all[k] in boxes {
        saw := true;
        selection := if boxes[all[k]] then selection + {all[k]} else selection - {all[k]};
      }
    }
    assert all[..|all|] == all;
    PickSame(selection, Chosen(configured, boxes, all), all);
    ChoicesSelect(configured, boxes, all);
    return if saw && follower then Pick(selection, all) else configured;
  }

  /** The mirror of a list: a box for every choice. */
  function Boxes<T(==)>(configured: seq<T>, all: seq<T>): map<T, bool> {
    map x | x in Elements(all) :: x in configured
  }

  /** Overlaying a list's own mirror, on whatever list, puts exactly its choices, in order. */
  lemma MirroredChoices<T>(configured: seq<T>, other: seq<T>, all: seq<T>)
    requires all != []
    ensures Choices(other, Boxes(configured, all), all, true) == Pick(Elements(configured), all)
  {
    assert all[0] in all && all[0] in Boxes(configured, all);
    PickSame(Chosen(other, Boxes(configured, all), all), Elements(configured), all);
  }

  // ----- The whole configuration -----

  /** A setting's name: those the overlay treats specially, the other native ones, and everything else, the
      secrets and storage options among it. */
  datatype Field =
    | RoleField | ScopeField | RedundancyMode | DeploymentMode | ClientAccessMode
    | AutoStart | ImportOnStart | AutomaticApply | KnownHostsPath
    | Native(name: string)
    | Hidden(name: string)

  datatype Scalar = Switch(on: bool) | Word(text: string)

  datatype CoreKey = StreamKey | ProxyKey | EpgKey | UserLimitKey | DvrKey | HdHomeRunKey | OtherKey(name: string)

  type Fields = map<Field, Scalar>

  /** A node's configuration: `outputs` is the older list of protected output profiles. */
  datatype Config = Config(
    fields: Fields, domains: seq<Domain>, core: seq<CoreKey>, protected: Protection, outputs: set<nat>)

  /** The flat settings the plugin shows. */
  datatype Visible = Visible(
    fields: Fields, boxes: map<Domain, bool>, coreBoxes: map<CoreKey, bool>, entries: seq<Entry>)

  const CORE_KEYS: seq<CoreKey> := [StreamKey, ProxyKey, EpgKey, UserLimitKey, DvrKey, HdHomeRunKey]

  /** The content preset: everything but generic settings and output profiles. */
  function ContentDomains(): seq<Domain> {
    Pick(All() - {OutputProfiles, CoreSettings}, InOrder(All(), 0))
  }

  function FieldOr(fields: Fields, f: Field, default: Scalar): Scalar {
    if f in fields then fields[f] else default
  }

  predicate AsBool(v: Scalar) {
    match v
    case Switch(on) => on
    case Word(text) => text in ["1", "true", "yes", "on"]
  }

  predicate KnownMode(v: Scalar) {
    v in [Word("cold_standby"), Word("plugin_vip"), Word("external_proxy")]
  }

  /** The one redundancy mode, read off the older fields where it is not set. */
  function SelectedMode(fields: Fields): Scalar {
    var mode := FieldOr(fields, RedundancyMode, Word(""));
    if KnownMode(mode) then mode
    else if FieldOr(fields, DeploymentMode, Word("")) == Word("cold_standby") then Word("cold_standby")
    else if FieldOr(fields, ClientAccessMode, Word("")) == Word("plugin_vip") then Word("plugin_vip")
    else if FieldOr(fields, ClientAccessMode, Word("")) == Word("external_proxy") then Word("external_proxy")
    else Word("cold_standby")
  }

  function Normalized(fields: Fields): Fields {
    var mode := SelectedMode(fields);
    if mode == Word("cold_standby") then
      fields[RedundancyMode := mode][DeploymentMode := Word("cold_standby")][ClientAccessMode := Word("disabled")]
        [AutoStart := Switch(AsBool(FieldOr(fields, AutoStart, Switch(true))))]
        [ImportOnStart := Switch(true)][AutomaticApply := Switch(false)]
    else if mode == Word("plugin_vip") then
      fields[RedundancyMode := mode][DeploymentMode := Word("online")][ClientAccessMode := Word("plugin_vip")]
    else
      fields[RedundancyMode := mode][DeploymentMode := Word("online")][ClientAccessMode := Word("external_proxy")]
  }

  const LEGACY_KNOWN_HOSTS := Word("/data/redundancy-secrets/known_hosts")
  const KNOWN_HOSTS := Word("/data/failovarr-state/known_hosts")

  function WithKnownHosts(fields: Fields): Fields {
    if KnownHostsPath in fields && fields[KnownHostsPath] == LEGACY_KNOWN_HOSTS then
      fields[KnownHostsPath := KNOWN_HOSTS]
    else
      fields
  }

  function RoleIn(visible: Fields, configured: Fields): Scalar {
    FieldOr(visible, RoleField, FieldOr(configured, RoleField, Word("follower")))
  }

  /** Native fields the plugin shows replace the configured ones; a Main keeps its scope. */
  function OverlaidFields(visible: Fields, configured: Fields): Fields {
    var leads := RoleIn(visible, configured) == Word("leader");
    map f | f in configured.Keys + visible.Keys && (f in configured || (!f.Hidden? && !(leads && f.ScopeField?))) ::
      if f in visible && !f.Hidden? && !(leads && f.ScopeField?) then visible[f] else configured[f]
  }

  /** The protected ids configured for a domain, the older list of output profiles included. */
  function Configured(c: Config, d: Kept): set<nat> {
    ProtectedIn(c.protected, d) + if d.KeptOutputProfiles? then c.outputs else {}
  }

  function AllKept(): set<Kept> { {KeptAccounts, KeptSources, KeptStreamProfiles, KeptOutputProfiles} }

  function OverlaidProtection(entries: seq<Entry>, c: Config, follower: bool): Protection {
    if follower then
      map d | d in AllKept() && OverlaidIds(Configured(c, d), entries, d) != {} ::
        OverlaidIds(Configured(c, d), entries, d)
    else if c.outputs != {} then c.protected[KeptOutputProfiles := Configured(c, KeptOutputProfiles)]
    else c.protected
  }

  /** `_native_overlay`. */
  function Overlay(v: Visible, c: Config): Config {
    var fields := OverlaidFields(v.fields, c.fields);
    var follower := RoleIn(v.fields, c.fields) == Word("follower");
    var preset := follower && FieldOr(fields, ScopeField, Word("")) == Word("iptv_content");
    var protected := OverlaidProtection(v.entries, c, follower);
    Config(
      Normalized(WithKnownHosts(fields)),
      if preset then ContentDomains() else Choices(c.domains, v.boxes, InOrder(All(), 0), follower),
      if preset then [] else Choices(c.core, v.coreBoxes, CORE_KEYS, follower),
      protected, ProtectedIn(protected, KeptOutputProfiles))
  }

  /** A field as it is shown, or else as it is configured. */
  function Shown(visible: Fields, configured: Fields, f: Field, default: Scalar): Scalar {
    if f in visible then visible[f] else if f in configured then configured[f] else default
  }

  /** One field of the overlay. */
  ghost predicate FieldOverlaid(v: Fields, c: Fields, r: Fields, f: Field) {
    match f
    case Hidden(_) => (f in r <==> f in c) && (f in c ==> r[f] == c[f])
    case ScopeField =>
      if Shown(v, c, RoleField, Word("follower")) == Word("leader") then
        (f in r <==> f in c) && (f in c ==> r[f] == c[f])
      else
        (f in r <==> f in v || f in c) && (f in r ==> r[f] == Shown(v, c, f, Word("")))
    case KnownHostsPath =>
      && (f in r <==> f in v || f in c)
      && (f in r && Shown(v, c, f, Word("")) != Word("/data/redundancy-secrets/known_hosts") ==>
            r[f] == Shown(v, c, f, Word("")))
      && (f in r && Shown(v, c, f, Word("")) == Word("/data/redundancy-secrets/known_hosts") ==>
            r[f] == Word("/data/failovarr-state/known_hosts"))
    case RoleField => (f in r <==> f in v || f in c) && (f in r ==> r[f] == Shown(v, c, f, Word("")))
    case Native(_) => (f in r <==> f in v || f in c) && (f in r ==> r[f] == Shown(v, c, f, Word("")))
    case _ => true
  }

  /** The redundancy mode is the one selected, or else read off the older fields, a cold standby first. */
  ghost predicate ModeSelected(v: Fields, c: Fields, r: Fields) {
    var selected := Shown(v, c, RedundancyMode, Word(""));
    var access := Shown(v, c, ClientAccessMode, Word(""));
    var cold, vip, proxy := Word("cold_standby"), Word("plugin_vip"), Word("external_proxy");
    && RedundancyMode in r
    && (selected in [cold, vip, proxy] ==> r[RedundancyMode] == selected)
    && (selected !in [cold, vip, proxy] ==>
          r[RedundancyMode] ==
            if Shown(v, c, DeploymentMode, Word("")) != cold && access in [vip, proxy] then access else cold)
  }

  /** What each redundancy mode makes of the fields it decides: only a cold standby does without client access,
      imports when it starts and applies nothing on its own; it starts on its own unless told not to. */
  ghost predicate ModeDecides(v: Fields, c: Fields, r: Fields) {
    && {RedundancyMode, DeploymentMode, ClientAccessMode} <= r.Keys
    && (r[RedundancyMode] == Word("cold_standby") ==>
          && r[DeploymentMode] == Word("cold_standby") && r[ClientAccessMode] == Word("disabled")
          && {AutoStart, ImportOnStart, AutomaticApply} <= r.Keys
          && r[ImportOnStart] == Switch(true) && r[AutomaticApply] == Switch(false)
          && r[AutoStart] == Switch(Shown(v, c, AutoStart, Switch(true)) in
               [Switch(true), Word("1"), Word("true"), Word("yes"), Word("on")]))
    && (r[RedundancyMode] != Word("cold_standby") ==>
          && r[DeploymentMode] == Word("online") && r[ClientAccessMode] == r[RedundancyMode]
          && forall f :: f in {AutoStart, ImportOnStart, AutomaticApply} ==>
               (f in r <==> f in v || f in c) && (f in r ==> r[f] == Shown(v, c, f, Word(""))))
  }

  lemma OverlaidField(v: Visible, c: Config, f: Field)
    ensures FieldOverlaid(v.fields, c.fields, Overlay(v, c).fields, f)
  {
    var fields := OverlaidFields(v.fields, c.fields);
    NormalizedTwice(WithKnownHosts(fields));
    hide Normalized;
    assert f in fields ==> fields[f] == Shown(v.fields, c.fields, f, Word("")) || f.ScopeField? || f.Hidden?;
  }

  lemma NormalizedModes(fields: Fields)
    ensures ModeSelected(map[], fields, Normalized(fields))
    ensures ModeDecides(map[], fields, Normalized(fields))
  {
  }

  /** The fields that normalizing reads are as shown, or else as configured. */
  lemma ModeFields(v: Fields, c: Fields, f: Field)
    requires f in {RedundancyMode, DeploymentMode, ClientAccessMode, AutoStart, ImportOnStart, AutomaticApply}
    ensures var fields := WithKnownHosts(OverlaidFields(v, c));
      && (f in fields <==> f in v || f in c)
      && forall default :: Shown(map[], fields, f, default) == Shown(v, c, f, default)
  {
  }

  lemma OverlaidSelectsMode(v: Visible, c: Config)
    ensures ModeSelected(v.fields, c.fields, Overlay(v, c).fields)
  {
    var fields := WithKnownHosts(OverlaidFields(v.fields, c.fields));
    NormalizedModes(fields);
    ModeFields(v.fields, c.fields, RedundancyMode);
    ModeFields(v.fields, c.fields, DeploymentMode);
    ModeFields(v.fields, c.fields, ClientAccessMode);
    hide Normalized, WithKnownHosts, OverlaidFields, Shown, ModeDecides, OverlaidProtection, ContentDomains, Choices;
  }

  lemma SameDecisions(v: Fields, c: Fields, r: Fields)
    requires ModeDecides(map[], WithKnownHosts(OverlaidFields(v, c)), r)
    ensures ModeDecides(v, c, r)
  {
    ModeFields(v, c, AutoStart);
    ModeFields(v, c, ImportOnStart);
    ModeFields(v, c, AutomaticApply);
    hide WithKnownHosts, OverlaidFields, Shown;
  }

  lemma OverlaidModeDecides(v: Visible, c: Config)
    ensures ModeDecides(v.fields, c.fields, Overlay(v, c).fields)
  {
    hide Normalized, WithKnownHosts, OverlaidFields, Shown, ModeDecides, OverlaidProtection, ContentDomains, Choices;
    NormalizedModes(WithKnownHosts(OverlaidFields(v.fields, c.fields)));
    SameDecisions(v.fields, c.fields, Overlay(v, c).fields);
  }

  ghost predicate FieldsOverlaid(v: Fields, c: Fields, r: Fields) {
    && (forall f :: FieldOverlaid(v, c, r, f))
    && ModeSelected(v, c, r) && ModeDecides(v, c, r)
  }

  lemma OverlaysFields(v: Visible, c: Config)
    ensures FieldsOverlaid(v.fields, c.fields, Overlay(v, c).fields)
  {
    forall f ensures FieldOverlaid(v.fields, c.fields, Overlay(v, c).fields, f) { OverlaidField(v, c, f); }
    OverlaidSelectsMode(v, c);
    OverlaidModeDecides(v, c);
    hide FieldOverlaid, ModeSelected, ModeDecides, Overlay;
  }

  predicate Shows(v: Visible, c: Config, role: string) {
    Shown(v.fields, c.fields, RoleField, Word("follower")) == Word(role)
  }

  predicate ShowsPreset(v: Visible, c: Config) {
    Shown(v.fields, c.fields, ScopeField, Word("")) == Word("iptv_content")
  }

  /** The content preset selects everything but generic settings and output profiles, and a Main's selections
      stay. */
  ghost predicate SelectionsOverlaid(v: Visible, c: Config, r: Config) {
    if !Shows(v, c, "follower") then
      r.domains == c.domains && r.core == c.core
    else if ShowsPreset(v, c) then
      && r.core == [] && PartOf(r.domains, InOrder(All(), 0))
      && forall d :: d in r.domains <==> d in All() && d != OutputProfiles && d != CoreSettings
    else
      && Selects(c.domains, v.boxes, InOrder(All(), 0), r.domains)
      && Selects(c.core, v.coreBoxes, CORE_KEYS, r.core)
  }

  lemma PresetDomains(d: Domain)
    ensures d in ContentDomains() <==> d in All() && d != OutputProfiles && d != CoreSettings
  {
    hide Pick, InOrder, All;
    PickMembers(All() - {OutputProfiles, CoreSettings}, InOrder(All(), 0), d);
    InOrderMembers(All(), 0, d);
    AllSupported(d);
  }

  lemma ShownScope(v: Visible, c: Config)
    requires Shows(v, c, "follower")
    ensures FieldOr(OverlaidFields(v.fields, c.fields), ScopeField, Word("")) ==
      Shown(v.fields, c.fields, ScopeField, Word(""))
  {
    assert Word("follower") != Word("leader");
  }

  /** Which selections the overlay makes, by role and scope. */
  lemma SelectionsByRole(v: Visible, c: Config)
    ensures var follower, preset, r := Shows(v, c, "follower"), ShowsPreset(v, c), Overlay(v, c);
      && r.domains == (if follower && preset then ContentDomains()
                       else Choices(c.domains, v.boxes, InOrder(All(), 0), follower))
      && r.core == (if follower && preset then [] else Choices(c.core, v.coreBoxes, CORE_KEYS, follower))
  {
    assert RoleIn(v.fields, c.fields) == Shown(v.fields, c.fields, RoleField, Word("follower"));
    if Shows(v, c, "follower") { ShownScope(v, c); }
    hide Normalized, WithKnownHosts, OverlaidFields, OverlaidProtection, InOrder, All, Choices, ContentDomains, Shown,
      RoleIn;
  }

  lemma PresetSelects()
    ensures PartOf(ContentDomains(), InOrder(All(), 0))
    ensures forall d :: d in ContentDomains() <==> d in All() && d != OutputProfiles && d != CoreSettings
  {
    PickIsPart(All() - {OutputProfiles, CoreSettings}, InOrder(All(), 0));
    forall d ensures d in ContentDomains() <==> d in All() && d != OutputProfiles && d != CoreSettings {
      PresetDomains(d);
    }
    hide All, InOrder, Pick, PartOf;
  }

  lemma OverlaysSelections(v: Visible, c: Config)
    ensures SelectionsOverlaid(v, c, Overlay(v, c))
  {
    hide Overlay, Shows, ShowsPreset, All, InOrder, Choices, Selects, PartOf, ContentDomains;
    SelectionsByRole(v, c);
    ChoicesSelect(c.domains, v.boxes, InOrder(All(), 0));
    ChoicesSelect(c.core, v.coreBoxes, CORE_KEYS);
    MainsChoices(c.domains, v.boxes, InOrder(All(), 0));
    MainsChoices(c.core, v.coreBoxes, CORE_KEYS);
    PresetSelects();
  }

  /** A Follower's keys decide over its protected records, and the older list of output profiles counts. */
  ghost predicate ProtectionOverlaid(v: Visible, c: Config, r: Config) {
    && r.outputs == ProtectedIn(r.protected, KeptOutputProfiles)
    && forall d: Kept ::
         var ids := ProtectedIn(c.protected, d) + if d == KeptOutputProfiles then c.outputs else {};
         if Shows(v, c, "follower") then Protects(ids, v.entries, d, ProtectedIn(r.protected, d))
         else ProtectedIn(r.protected, d) == ids
  }

  lemma OverlaysProtection(v: Visible, c: Config)
    ensures ProtectionOverlaid(v, c, Overlay(v, c))
  {
    hide Protects, OverlaidIds, Normalized, WithKnownHosts, OverlaidFields, InOrder, All, Choices, ContentDomains;
    forall d: Kept ensures Protects(Configured(c, d), v.entries, d, OverlaidIds(Configured(c, d), v.entries, d)) {
      OverlaidProtects(Configured(c, d), v.entries, d);
    }
  }

  /** The overlay: what becomes of every field, selection and protected record. */
  method NativeOverlay(v: Visible, c: Config) returns (r: Config)
    ensures r == Overlay(v, c)
    ensures FieldsOverlaid(v.fields, c.fields, r.fields)
    ensures SelectionsOverlaid(v, c, r) && ProtectionOverlaid(v, c, r)
  {
    OverlaysFields(v, c);
    OverlaysSelections(v, c);
    OverlaysProtection(v, c);
    hide FieldsOverlaid, SelectionsOverlaid, ProtectionOverlaid, Normalized, WithKnownHosts, OverlaidFields;
    var follower := RoleIn(v.fields, c.fields) == Word("follower");
    var fields := OverlaidFields(v.fields, c.fields);
    var domains := OverlayChoices(c.domains, v.boxes, InOrder(All(), 0), follower);
    var core := OverlayChoices(c.core, v.coreBoxes, CORE_KEYS, follower);
    if follower && FieldOr(fields, ScopeField, Word("")) == Word("iptv_content") {
      domains, core := ContentDomains(), [];
    }
    var protected := c.protected;
    if follower {
      protected := OverlayProtection(v.entries, c);
    } else if c.outputs != {} {
      protected := protected[KeptOutputProfiles := Configured(c, KeptOutputProfiles)];
    }
    r := Config(
      Normalized(WithKnownHosts(fields)), domains, core, protected, ProtectedIn(protected, KeptOutputProfiles));
  }

  method OverlayProtection(entries: seq<Entry>, c: Config) returns (protected: Protection)
    ensures protected == OverlaidProtection(entries, c, true)
  {
    protected := map[];
    var todo := AllKept();
    while todo != {}
      invariant todo <= AllKept() && protected.Keys <= AllKept() - todo
      invariant forall d :: d in AllKept() - todo ==>
        if OverlaidIds(Configured(c, d), entries, d) != {} then
          d in protected && protected[d] == OverlaidIds(Configured(c, d), entries, d)
        else d !in protected
      decreases todo
    {
      var d :| d in todo;
      var ids := OverlayIds(Configured(c, d), entries, d);
      if ids != {} { protected := protected[d := ids]; }
      todo := todo - {d};
    }
    assert protected.Keys == OverlaidProtection(entries, c, true).Keys;
  }

  // ----- The mirror -----

  /** `native_settings_snapshot`: no hidden field, a box for every choice, a key for every protected record. */
  predicate MirrorOf(v: Visible, c: Config) {
    var source := Normalized(c.fields);
    && v.fields == (map f | f in source && !f.Hidden? :: source[f])
    && v.boxes == Boxes(c.domains, InOrder(All(), 0)) && v.coreBoxes == Boxes(c.core, CORE_KEYS)
    && Snapshot(v.entries, c.protected)
  }

  predicate Positive(p: Protection) {
    forall d, id :: d in p && id in p[d] ==> 1 <= id
  }

  /** The keys of one domain's records, after those written before. */
  method DomainEntries(d: Kept, ids: set<nat>, before: seq<Entry>) returns (entries: seq<Entry>)
    requires forall id :: id in ids ==> 1 <= id
    ensures forall e :: e in entries <==>
      e in before || exists id :: id in ids && 1 <= id && e == Entry(KeyFor(d, id), true)
  {
    hide KeyFor;
    entries := before;
    var todo := ids;
    while todo != {}
      invariant todo <= ids
      invariant forall e :: e in entries <==>
        e in before || exists id :: id in ids - todo && 1 <= id && e == Entry(KeyFor(d, id), true)
      decreases todo
    {
      HasId(todo);
      var id :| id in todo;
      entries := entries + [Entry(KeyFor(d, id), true)];
      todo := todo - {id};
    }
  }

  lemma HasId(s: set<nat>)
    requires s != {}
    ensures exists x :: x in s
  {
    assert (forall x :: x !in s) ==> s <= {};
  }

  method NativeSettingsSnapshot(c: Config) returns (v: Visible)
    requires Positive(c.protected)
    ensures MirrorOf(v, c)
  {
    hide KeyFor;
    var entries: seq<Entry> := [];
    var todo := c.protected.Keys;
    while todo != {}
      invariant todo <= c.protected.Keys
      invariant forall e :: e in entries <==> exists d, id ::
        d in c.protected.Keys - todo && id in c.protected[d] && 1 <= id && e == Entry(KeyFor(d, id), true)
      decreases todo
    {
      var d :| d in todo;
      entries := DomainEntries(d, c.protected[d], entries);
      todo := todo - {d};
    }
    EntriesMirror(entries, c.protected);
    var source := Normalized(c.fields);
    v := Visible(
      map f | f in source && !f.Hidden? :: source[f],
      Boxes(c.domains, InOrder(All(), 0)), Boxes(c.core, CORE_KEYS), entries);
  }

  lemma EntriesMirror(entries: seq<Entry>, p: Protection)
    requires Positive(p)
    requires forall e :: e in entries <==>
      exists d, id :: d in p && id in p[d] && 1 <= id && e == Entry(KeyFor(d, id), true)
    ensures Snapshot(entries, p)
  {
    hide KeyFor;
    forall k | 0 <= k < |entries| ensures Mirrors(entries[k], p) { assert entries[k] in entries; }
  }

  // ----- The round trip of the whole overlay -----

  lemma NormalizedTwice(fields: Fields)
    ensures Normalized(Normalized(fields)) == Normalized(fields)
    ensures forall f :: f in fields ==> f in Normalized(fields)
    ensures forall f: Field :: f.Hidden? || f.Native? || f.RoleField? || f.ScopeField? || f.KnownHostsPath? ==>
      (f in Normalized(fields) <==> f in fields) && (f in fields ==> Normalized(fields)[f] == fields[f])
  {
    var once := Normalized(fields);
    assert SelectedMode(once) == SelectedMode(fields);
    assert Normalized(once) == once;
  }

  /** No overlay touches a secret, or any other field it does not show. */
  lemma SecretsStay(v: Visible, c: Config, name: string)
    ensures Hidden(name) in Overlay(v, c).fields <==> Hidden(name) in c.fields
    ensures Hidden(name) in c.fields ==> Overlay(v, c).fields[Hidden(name)] == c.fields[Hidden(name)]
  {
    NormalizedTwice(WithKnownHosts(OverlaidFields(v.fields, c.fields)));
  }

  predicate Follower(c: Config) {
    FieldOr(c.fields, RoleField, Word("follower")) == Word("follower")
  }

  predicate Preset(c: Config) {
    FieldOr(c.fields, ScopeField, Word("")) == Word("iptv_content")
  }

  /** What a Follower's own mirror makes of its configuration. */
  ghost predicate Settled(c: Config, r: Config) {
    && r.fields == WithKnownHosts(Normalized(c.fields))
    && r.domains == (if Preset(c) then ContentDomains() else Pick(Elements(c.domains), InOrder(All(), 0)))
    && r.core == (if Preset(c) then [] else Pick(Elements(c.core), CORE_KEYS))
    && (forall d :: ProtectedIn(r.protected, d) == Configured(c, d))
    && (forall d :: d in r.protected ==> r.protected[d] != {})
    && r.outputs == Configured(c, KeptOutputProfiles)
  }

  lemma MirroredFields(v: Visible, c: Config)
    requires MirrorOf(v, c)
    ensures OverlaidFields(v.fields, c.fields) == Normalized(c.fields)
    ensures RoleIn(v.fields, c.fields) == FieldOr(c.fields, RoleField, Word("follower"))
  {
    NormalizedTwice(c.fields);
    var source, r := Normalized(c.fields), OverlaidFields(v.fields, c.fields);
    forall f ensures f in r <==> f in source {}
    forall f | f in r ensures r[f] == source[f] {}
    assert r.Keys == source.Keys;
  }

  lemma HostsDoNotMatter(fields: Fields)
    ensures Normalized(fields[KnownHostsPath := KNOWN_HOSTS]) == Normalized(fields)[KnownHostsPath := KNOWN_HOSTS]
  {
    assert SelectedMode(fields[KnownHostsPath := KNOWN_HOSTS]) == SelectedMode(fields);
  }

  /** The legacy path is replaced after normalizing as it is before. */
  lemma HostsAfterNormalizing(fields: Fields)
    ensures var once := WithKnownHosts(Normalized(fields));
      Normalized(once) == once && WithKnownHosts(once) == once
      && FieldOr(once, RoleField, Word("follower")) == FieldOr(fields, RoleField, Word("follower"))
      && FieldOr(once, ScopeField, Word("")) == FieldOr(fields, ScopeField, Word(""))
  {
    var normal := Normalized(fields);
    NormalizedTwice(fields);
    HostsDoNotMatter(normal);
    hide Normalized;
  }

  lemma MirroredProtection(v: Visible, c: Config, d: Kept)
    requires MirrorOf(v, c)
    ensures OverlaidIds(Configured(c, d), v.entries, d) == Configured(c, d)
  {
    hide OverlaidIds, Snapshot;
    SnapshotAdds(Configured(c, d), v.entries, c.protected, d);
  }

  lemma PresetChoices()
    ensures InOrder(All(), 0) != []
  {
    AllSupported(UserAgents);
    InOrderMembers(All(), 0, UserAgents);
  }

  /** Overlaying a Follower's configuration with the mirror written of it loses nothing: the secrets, the role
      and every other field stay, the selections are put in order or replaced by the preset, and the protected
      records are the same, the older list of output profiles merged in. */
  lemma RoundTrip(v: Visible, c: Config)
    requires MirrorOf(v, c) && Follower(c)
    ensures Settled(c, Overlay(v, c))
  {
    hide Normalized, WithKnownHosts, OverlaidFields, Snapshot, OverlaidIds, InOrder, ContentDomains;
    MirroredFields(v, c);
    HostsAfterNormalizing(c.fields);
    NormalizedTwice(c.fields);
    PresetChoices();
    MirroredChoices(c.domains, c.domains, InOrder(All(), 0));
    MirroredChoices(c.core, c.core, CORE_KEYS);
    forall d: Kept ensures OverlaidIds(Configured(c, d), v.entries, d) == Configured(c, d) {
      MirroredProtection(v, c, d);
    }
  }

  /** A settled configuration is the one its own mirror changes nothing of. */
  lemma SettledExactly(v: Visible, c: Config)
    requires MirrorOf(v, c) && Follower(c)
    ensures Overlay(v, c) == c <==> Settled(c, c)
  {
    RoundTrip(v, c);
    if Settled(c, c) {
      SettledIsUnique(c, Overlay(v, c), c);
    }
  }

  lemma SettledIsUnique(c: Config, r: Config, t: Config)
    requires Settled(c, r) && Settled(c, t)
    ensures r == t
  {
    forall d ensures d in r.protected <==> d in t.protected {
      assert ProtectedIn(r.protected, d) == ProtectedIn(t.protected, d);
    }
    assert r.protected.Keys == t.protected.Keys;
    forall d | d in r.protected ensures r.protected[d] == t.protected[d] {
      assert ProtectedIn(r.protected, d) == ProtectedIn(t.protected, d);
    }
    assert r.protected == t.protected;
  }

  lemma PickTwice<T>(s: set<T>, all: seq<T>)
    ensures Pick(Elements(Pick(s, all)), all) == Pick(s, all)
  {
    forall x | x in all ensures x in Elements(Pick(s, all)) <==> x in s { PickMembers(s, all, x); }
    PickSame(Elements(Pick(s, all)), s, all);
  }

  /** One overlay settles a Follower's configuration for good: writing the mirror and overlaying it again changes
      nothing, however often. */
  lemma OverlaySettles(v: Visible, c: Config, again: Visible)
    requires MirrorOf(v, c) && Follower(c) && MirrorOf(again, Overlay(v, c))
    ensures Overlay(again, Overlay(v, c)) == Overlay(v, c)
  {
    hide Normalized, WithKnownHosts, Overlay, MirrorOf, InOrder, ContentDomains, Pick;
    var r := Overlay(v, c);
    RoundTrip(v, c);
    HostsAfterNormalizing(c.fields);
    PickTwice(Elements(c.domains), InOrder(All(), 0));
    PickTwice(Elements(c.core), CORE_KEYS);
    assert Settled(r, r);
    SettledExactly(again, r);
  }
}
