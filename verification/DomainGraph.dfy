/** The replication domains, their prerequisites, and closing a selection under them. */
module DomainGraph {
  import opened Records
  import opened Transaction
  import opened ImportSafety

  datatype Domain =
    | UserAgents | StreamProfiles | OutputProfiles | CoreSettings | ServerGroups | M3uAccounts
    | M3uFilters | M3uAccountProfiles | EpgSources | EpgData | ChannelGroups | Logos | Streams
    | Channels | ChannelOverrides | ChannelProfiles | ChannelProfileMemberships | ChannelStreams
    | ChannelGroupM3uAccounts
    | Unsupported(name: string)

  const COUNT: nat := 19

  /** All domains, in adapter order. */
  function Supported(k: nat): Domain
    requires k < COUNT
  {
    match k
    case 0 => UserAgents case 1 => StreamProfiles case 2 => OutputProfiles case 3 => CoreSettings
    case 4 => ServerGroups case 5 => M3uAccounts case 6 => M3uFilters case 7 => M3uAccountProfiles
    case 8 => EpgSources case 9 => EpgData case 10 => ChannelGroups case 11 => Logos case 12 => Streams
    case 13 => Channels case 14 => ChannelOverrides case 15 => ChannelProfiles
    case 16 => ChannelProfileMemberships case 17 => ChannelStreams case _ => ChannelGroupM3uAccounts
  }

  function Dependencies(d: Domain): set<Domain> {
    match d
    case StreamProfiles => {UserAgents}
    case M3uAccounts => {ServerGroups, UserAgents, StreamProfiles}
    case M3uFilters => {M3uAccounts}
    case M3uAccountProfiles => {M3uAccounts}
    case EpgData => {EpgSources}
    case Streams => {M3uAccounts, ChannelGroups, StreamProfiles}
    case Channels => {M3uAccounts, ChannelGroups, Logos, EpgData, StreamProfiles}
    case ChannelOverrides => {Channels, ChannelGroups, Logos, EpgData, StreamProfiles}
    case ChannelProfileMemberships => {ChannelProfiles, Channels}
    case ChannelStreams => {Channels, Streams}
    case ChannelGroupM3uAccounts => {ChannelGroups, M3uAccounts}
    case _ => {}
  }

  /** Columns that hold the id of another domain's record. */
  datatype Reference =
    | UserAgentId | ServerGroupId | StreamProfileId | M3uAccountId | AutoCreatedById | EpgSourceId | EpgDataId
    | ChannelGroupId | LogoId | ChannelId | ChannelProfileId | StreamId
  {
    function Name(): string {
      match this
      case UserAgentId => "user_agent_id" case ServerGroupId => "server_group_id"
      case StreamProfileId => "stream_profile_id" case M3uAccountId => "m3u_account_id"
      case AutoCreatedById => "auto_created_by_id" case EpgSourceId => "epg_source_id"
      case EpgDataId => "epg_data_id" case ChannelGroupId => "channel_group_id" case LogoId => "logo_id"
      case ChannelId => "channel_id" case ChannelProfileId => "channel_profile_id" case StreamId => "stream_id"
    }

    function Target(): Domain {
      match this
      case UserAgentId => UserAgents case ServerGroupId => ServerGroups case StreamProfileId => StreamProfiles
      case M3uAccountId => M3uAccounts case AutoCreatedById => M3uAccounts case EpgSourceId => EpgSources
      case EpgDataId => EpgData case ChannelGroupId => ChannelGroups case LogoId => Logos
      case ChannelId => Channels case ChannelProfileId => ChannelProfiles case StreamId => Streams
    }
  }

  /** The reference columns among each domain's replicated fields. */
  function ReferenceFields(d: Domain): set<Reference> {
    match d
    case StreamProfiles => {UserAgentId}
    case M3uAccounts => {ServerGroupId, UserAgentId, StreamProfileId}
    case M3uFilters => {M3uAccountId}
    case M3uAccountProfiles => {M3uAccountId}
    case EpgData => {EpgSourceId}
    case Streams => {M3uAccountId, ChannelGroupId, StreamProfileId}
    case Channels => {LogoId, ChannelGroupId, EpgDataId, StreamProfileId, AutoCreatedById}
    case ChannelOverrides => {ChannelId, ChannelGroupId, LogoId, EpgDataId, StreamProfileId}
    case ChannelProfileMemberships => {ChannelProfileId, ChannelId}
    case ChannelStreams => {ChannelId, StreamId}
    case ChannelGroupM3uAccounts => {ChannelGroupId, M3uAccountId}
    case _ => {}
  }

  /** A domain's place in adapter order. */
  function Rank(d: Domain): nat {
    match d
    case UserAgents => 0 case StreamProfiles => 1 case OutputProfiles => 2 case CoreSettings => 3
    case ServerGroups => 4 case M3uAccounts => 5 case M3uFilters => 6 case M3uAccountProfiles => 7
    case EpgSources => 8 case EpgData => 9 case ChannelGroups => 10 case Logos => 11 case Streams => 12
    case Channels => 13 case ChannelOverrides => 14 case ChannelProfiles => 15
    case ChannelProfileMemberships => 16 case ChannelStreams => 17 case ChannelGroupM3uAccounts => 18
    case Unsupported(_) => 19
  }

  lemma Ranked(d: Domain)
    ensures !d.Unsupported? <==> Rank(d) < COUNT
    ensures !d.Unsupported? ==> Supported(Rank(d)) == d
  {
  }

  lemma RankAt(k: nat)
    requires k < COUNT
    ensures Rank(Supported(k)) == k && !Supported(k).Unsupported?
  {
  }

  /** The declared prerequisites are exactly the domains a domain's records refer to. */
  lemma DependenciesAreReferences(d: Domain)
    ensures Dependencies(d) == set c | c in ReferenceFields(d) :: c.Target()
  {
    var targets := set c | c in ReferenceFields(d) :: c.Target();
    forall x | x in Dependencies(d) ensures x in targets {
      var c := FieldFor(d, x);
    }
  }

  lemma FieldFor(d: Domain, x: Domain) returns (c: Reference)
    requires x in Dependencies(d)
    ensures c in ReferenceFields(d) && c.Target() == x
  {
    c := match x
      case UserAgents => UserAgentId
      case ServerGroups => ServerGroupId
      case StreamProfiles => StreamProfileId
      case M3uAccounts => if d.Channels? then AutoCreatedById else M3uAccountId
      case EpgSources => EpgSourceId
      case EpgData => EpgDataId
      case ChannelGroups => ChannelGroupId
      case Logos => LogoId
      case Channels => ChannelId
      case ChannelProfiles => ChannelProfileId
      case _ => StreamId;
  }

  /** Prerequisites come earlier in adapter order. */
  lemma DependenciesComeFirst(d: Domain, x: Domain)
    requires x in Dependencies(d)
    ensures !x.Unsupported? && Rank(x) < Rank(d)
  {
  }

  // ----- Closing a selection -----

  ghost predicate ClosedUnder(s: set<Domain>) {
    forall d :: d in s ==> Dependencies(d) <= s
  }

  /** Every closed selection around `s` has `d`. */
  ghost predicate Forced(s: set<Domain>, d: Domain) {
    forall t: set<Domain> :: s <= t && ClosedUnder(t) ==> d in t
  }

  function All(): set<Domain> {
    set k | 0 <= k < COUNT :: Supported(k)
  }

  lemma AllSupported(d: Domain)
    ensures d in All() <==> !d.Unsupported?
  {
    Ranked(d);
    if d in All() {
      var k :| 0 <= k < COUNT && Supported(k) == d;
      RankAt(k);
    }
  }

  /** The least closed selection around `s`. */
  ghost function Closure(s: set<Domain>): set<Domain> {
    set d | d in s + All() && Forced(s, d)
  }

  lemma ClosureIsLeast(s: set<Domain>)
    ensures s <= Closure(s) && ClosedUnder(Closure(s))
    ensures forall t :: s <= t && ClosedUnder(t) ==> Closure(s) <= t
  {
    forall d, x | d in Closure(s) && x in Dependencies(d) ensures x in Closure(s) {
      DependenciesComeFirst(d, x);
      AllSupported(x);
      forall t: set<Domain> | s <= t && ClosedUnder(t) ensures x in t { assert d in t; }
    }
  }

  /** The selected domains in adapter order; unsupported names are dropped. */
  function InOrder(s: set<Domain>, k: nat): seq<Domain>
    requires k <= COUNT
    decreases COUNT - k
  {
    if k == COUNT then []
    else (if Supported(k) in s then [Supported(k)] else []) + InOrder(s, k + 1)
  }

  predicate Ascending(ds: seq<Domain>) {
    forall i, j :: 0 <= i < j < |ds| ==> Rank(ds[i]) < Rank(ds[j])
  }

  lemma {:induction false} InOrderMembers(s: set<Domain>, k: nat, d: Domain)
    requires k <= COUNT
    ensures d in InOrder(s, k) <==> d in s && !d.Unsupported? && k <= Rank(d)
    decreases COUNT - k
  {
    Ranked(d);
    if k != COUNT {
      InOrderMembers(s, k + 1, d);
      RankAt(k);
    }
  }

  lemma AscendsFrom(d: Domain, rest: seq<Domain>)
    requires Ascending(rest) && forall x :: x in rest ==> Rank(d) < Rank(x)
    ensures Ascending([d] + rest)
  {
    forall j | 0 <= j < |rest| ensures Rank(d) < Rank(rest[j]) { assert rest[j] in rest; }
  }

  lemma {:induction false} OrderAscends(s: set<Domain>, k: nat)
    requires k <= COUNT
    ensures Ascending(InOrder(s, k))
    decreases COUNT - k
  {
    if k != COUNT {
      var d, rest := Supported(k), InOrder(s, k + 1);
      OrderAscends(s, k + 1);
      RankAt(k);
      forall x | x in rest ensures k < Rank(x) { InOrderMembers(s, k + 1, x); }
      AscendsFrom(d, rest);
    }
  }

  lemma InOrderAscends(s: set<Domain>, k: nat)
    requires k <= COUNT
    ensures Ascending(InOrder(s, k))
    ensures forall d :: d in InOrder(s, k) <==> d in s && !d.Unsupported? && k <= Rank(d)
  {
    OrderAscends(s, k);
    forall d ensures d in InOrder(s, k) <==> d in s && !d.Unsupported? && k <= Rank(d) { InOrderMembers(s, k, d); }
  }

  /** One pass over a snapshot of the selection, adding what is missing. */
  method AddMissing(selected: set<Domain>, ghost start: set<Domain>) returns (grown: set<Domain>, changed: bool)
    requires selected <= Closure(start)
    ensures selected <= grown <= Closure(start)
    ensures changed <==> grown != selected
    ensures !changed ==> ClosedUnder(grown)
  {
    grown, changed := selected, false;
    var todo := selected;
    while todo != {}
      invariant todo <= selected <= grown <= Closure(start)
      invariant changed <==> grown != selected
      invariant forall d :: d in selected - todo ==> Dependencies(d) <= grown
      decreases todo
    {
      var d :| d in todo;
      todo := todo - {d};
      var missing := Dependencies(d) - grown;
      ClosureIsLeast(start);
      if missing != {} { changed := true; }
      ghost var before := grown;
      grown := grown + missing;
      if missing != {} {
        var x :| x in missing;
        assert x !in selected && x in grown;
      }
    }
  }

  /** Grow the selection until nothing is missing: the result lists its least closed superset. */
  method ExpandDomainDependencies(domains: seq<Domain>) returns (expanded: seq<Domain>)
    ensures expanded == InOrder(Closure(Members(domains)), 0)
  {
    var selected := Members(domains);
    ghost var start := selected;
    ClosureIsLeast(start);
    var changed := true;
    while changed
      invariant start <= selected <= Closure(start)
      invariant !changed ==> ClosedUnder(selected)
      decreases Closure(start) - selected, changed
    {
      ghost var before := selected;
      selected, changed := AddMissing(selected, start);
      if changed {
        ghost var x :| x in selected && x !in before;
        assert x in Closure(start) - before;
      }
    }
    assert selected == Closure(start);
    expanded := InOrder(selected, 0);
  }

  function Members(domains: seq<Domain>): set<Domain> {
    set d | d in domains
  }

  /** The check a configuration must pass. */
  predicate PassesClosureCheck(domains: seq<Domain>) {
    forall i :: 0 <= i < |domains| ==> Dependencies(domains[i]) <= Members(domains)
  }

  ghost function Expanded(domains: seq<Domain>): seq<Domain> {
    InOrder(Closure(Members(domains)), 0)
  }

  /** An expanded selection passes the closure check, whatever was selected. */
  lemma ExpandedPasses(domains: seq<Domain>)
    ensures PassesClosureCheck(Expanded(domains)) && Ascending(Expanded(domains))
  {
    var s := Members(domains);
    var r := Expanded(domains);
    ClosureIsLeast(s);
    InOrderAscends(Closure(s), 0);
    forall i, x | 0 <= i < |r| && x in Dependencies(r[i]) ensures x in r {
      assert r[i] in r;
      DependenciesComeFirst(r[i], x);
    }
  }

  /** A supported selection passes the closure check exactly when expansion adds nothing to it. */
  lemma PassesIffExpanded(domains: seq<Domain>)
    requires forall d :: d in domains ==> !d.Unsupported?
    ensures PassesClosureCheck(domains) <==> forall d :: d in Expanded(domains) <==> d in domains
  {
    var s := Members(domains);
    ClosureIsLeast(s);
    InOrderAscends(Closure(s), 0);
    if PassesClosureCheck(domains) {
      forall d | d in s ensures Dependencies(d) <= s {
        var i :| 0 <= i < |domains| && domains[i] == d;
      }
      assert ClosedUnder(s);
    }
    if forall d :: d in Expanded(domains) <==> d in domains {
      forall i, x | 0 <= i < |domains| && x in Dependencies(domains[i]) ensures x in s {
        DependenciesComeFirst(domains[i], x);
        assert domains[i] in s && x in Closure(s);
        assert x in Expanded(domains);
      }
    }
  }

  lemma ExpandedMembers(domains: seq<Domain>, d: Domain)
    ensures d in Expanded(domains) <==> d in Closure(Members(domains)) && !d.Unsupported?
  {
    InOrderAscends(Closure(Members(domains)), 0);
  }

  /** Selecting more never loses a domain. */
  lemma ExpansionMonotone(a: seq<Domain>, b: seq<Domain>, d: Domain)
    requires (forall x :: x in a ==> x in b) && d in Expanded(a)
    ensures d in Expanded(b)
  {
    ExpandedMembers(a, d);
    ExpandedMembers(b, d);
    ClosureIsLeast(Members(a));
    ClosureIsLeast(Members(b));
    assert Members(a) <= Closure(Members(b));
  }

  /** Expanding twice changes nothing. */
  lemma ExpansionIdempotent(domains: seq<Domain>)
    ensures Expanded(Expanded(domains)) == Expanded(domains)
  {
    var e := Expanded(domains);
    forall d: Domain | !d.Unsupported? ensures d in Closure(Members(e)) <==> d in Closure(Members(domains)) {
      ExpandedMembers(domains, d);
      ExpandedMembers(e, d);
      ExpandedAgain(domains, d);
    }
    SameMembersSameOrder(Closure(Members(e)), Closure(Members(domains)), 0);
  }

  lemma ExpandedAgain(domains: seq<Domain>, d: Domain)
    ensures d in Expanded(Expanded(domains)) <==> d in Expanded(domains)
  {
    var e := Expanded(domains);
    ExpandedPasses(domains);
    forall x | x in e ensures !x.Unsupported? { ExpandedMembers(domains, x); }
    PassesIffExpanded(e);
  }

  lemma {:induction false} SameMembersSameOrder(s: set<Domain>, t: set<Domain>, k: nat)
    requires k <= COUNT
    requires forall d: Domain :: !d.Unsupported? ==> (d in s <==> d in t)
    ensures InOrder(s, k) == InOrder(t, k)
    decreases COUNT - k
  {
    if k != COUNT {
      RankAt(k);
      Ranked(Supported(k));
      SameMembersSameOrder(s, t, k + 1);
    }
  }

  // ----- References of a scope -----

  /** A text's length and first letter: enough to tell the reference columns apart. */
  function Mark(s: string): (int, char)
    requires s != ""
  {
    (|s|, s[0])
  }

  function MarkOf(r: Reference): (int, char) {
    match r
    case UserAgentId => (13, 'u') case ServerGroupId => (15, 's') case StreamProfileId => (17, 's')
    case M3uAccountId => (14, 'm') case AutoCreatedById => (18, 'a') case EpgSourceId => (13, 'e')
    case EpgDataId => (11, 'e') case ChannelGroupId => (16, 'c') case LogoId => (7, 'l')
    case ChannelId => (10, 'c') case ChannelProfileId => (18, 'c') case StreamId => (9, 's')
  }

  lemma NameMark(r: Reference)
    ensures r.Name() != "" && Mark(r.Name()) == MarkOf(r)
    ensures r.Name() != "id" && r.Name() != "is_active"
  {
    assert |"is_active"| == 9 && "is_active"[0] == 'i';
  }

  lemma NamesDiffer(r: Reference, q: Reference)
    requires r.Name() == q.Name()
    ensures r == q
  {
    NameMark(r);
    NameMark(q);
    MarksDiffer(r, q);
  }

  lemma MarksDiffer(r: Reference, q: Reference)
    requires MarkOf(r) == MarkOf(q)
    ensures r == q
  {
  }

  /** A column of a domain that refers to another. */
  predicate Leads(d: Domain, column: string, target: Domain) {
    exists r :: r in ReferenceFields(d) && r.Name() == column && r.Target() == target
  }

  /** The references of one table of a scope: every reference column, each leading to its target's table. */
  predicate CompleteAt(m: map<string, nat>, domains: seq<Domain>, d: nat)
    requires d < |domains|
  {
    && (forall r :: r in ReferenceFields(domains[d]) ==> r.Name() in m)
    && (forall c :: c in m ==> m[c] < |domains| && Leads(domains[d], c, domains[m[c]]))
  }

  /** The references of a scope, none left out. */
  predicate Complete(refs: References, domains: seq<Domain>) {
    |refs| == |domains| && forall d :: 0 <= d < |domains| ==> CompleteAt(refs[d], domains, d)
  }

  lemma CompleteLeads(m: map<string, nat>, domains: seq<Domain>, d: nat, r: Reference)
    requires d < |domains| && CompleteAt(m, domains, d) && r in ReferenceFields(domains[d])
    ensures r.Name() in m && m[r.Name()] < |domains| && domains[m[r.Name()]] == r.Target()
  {
    var q :| q in ReferenceFields(domains[d]) && q.Name() == r.Name() && q.Target() == domains[m[r.Name()]];
    NamesDiffer(q, r);
  }

  /** In a scope that passes the closure check every reference column's target is in scope. */
  lemma TargetsInScope(domains: seq<Domain>, d: nat, r: Reference)
    requires PassesClosureCheck(domains) && d < |domains| && r in ReferenceFields(domains[d])
    ensures r.Target() in domains
  {
    DependenciesAreReferences(domains[d]);
    assert r.Target() in Members(domains);
  }

  lemma {:induction false} TableReferences(domains: seq<Domain>, d: nat, fields: set<Reference>)
    returns (m: map<string, nat>)
    requires PassesClosureCheck(domains) && d < |domains| && fields <= ReferenceFields(domains[d])
    ensures forall r :: r in fields ==> r.Name() in m
    ensures forall c :: c in m ==> m[c] < |domains| && Leads(domains[d], c, domains[m[c]])
    decreases fields
  {
    if fields == {} {
      m := map[];
    } else {
      var r :| r in fields;
      m := TableReferences(domains, d, fields - {r});
      TargetsInScope(domains, d, r);
      var k :| 0 <= k < |domains| && domains[k] == r.Target();
      m := m[r.Name() := k];
    }
  }

  lemma CompleteTable(domains: seq<Domain>, d: nat) returns (m: map<string, nat>)
    requires PassesClosureCheck(domains) && d < |domains|
    ensures CompleteAt(m, domains, d)
  {
    m := TableReferences(domains, d, ReferenceFields(domains[d]));
  }

  lemma {:induction false} ScopeReferences(domains: seq<Domain>, n: nat) returns (refs: References)
    requires PassesClosureCheck(domains) && n <= |domains|
    ensures |refs| == n && forall d :: 0 <= d < n ==> CompleteAt(refs[d], domains, d)
  {
    hide CompleteAt, PassesClosureCheck;
    if n == 0 {
      refs := [];
    } else {
      var before := ScopeReferences(domains, n - 1);
      var last := CompleteTable(domains, n - 1);
      refs := before + [last];
    }
  }

  /** A scope's references can all be followed exactly when it passes the closure check. */
  lemma CompleteExactly(domains: seq<Domain>)
    ensures (exists refs :: Complete(refs, domains)) <==> PassesClosureCheck(domains)
  {
    if PassesClosureCheck(domains) {
      var refs := ScopeReferences(domains, |domains|);
      assert Complete(refs, domains);
    }
    if refs :| Complete(refs, domains) {
      forall d, x | 0 <= d < |domains| && x in Dependencies(domains[d]) ensures x in Members(domains) {
        var r := FieldFor(domains[d], x);
        CompleteLeads(refs[d], domains, d, r);
      }
    }
  }

  lemma LeadsBack(d: Domain, column: string, target: Domain)
    requires Leads(d, column, target)
    ensures Rank(target) < Rank(d)
  {
    var r :| r in ReferenceFields(d) && r.Name() == column && r.Target() == target;
    DependenciesAreReferences(d);
    DependenciesComeFirst(d, target);
  }

  lemma EarlierRank(domains: seq<Domain>, i: nat, j: nat)
    requires Ascending(domains) && i < |domains| && j < |domains| && Rank(domains[i]) < Rank(domains[j])
    ensures i < j
  {
  }

  /** In adapter order every reference leads to an earlier table. */
  lemma ReferencesGoBack(refs: References, domains: seq<Domain>)
    requires Ascending(domains) && Complete(refs, domains)
    ensures Backward(refs)
  {
    hide Leads;
    forall d, c | 0 <= d < |refs| && c in refs[d] ensures refs[d][c] < d {
      assert CompleteAt(refs[d], domains, d);
      LeadsBack(domains[d], c, domains[refs[d][c]]);
      EarlierRank(domains, refs[d][c], d);
    }
  }

  /** A database in which every reference column is null or leads to a stored record. */
  predicate Coherent(full: map<Domain, Table>) {
    forall d, i, r :: d in full && i in full[d] && r in ReferenceFields(d) ==>
      r.Target() in full && Points(Column(full[d][i], r.Name()), full[r.Target()])
  }

  function Scope(full: map<Domain, Table>, domains: seq<Domain>): Tables
    requires forall d :: d in domains ==> d in full
  {
    seq(|domains|, k requires 0 <= k < |domains| => full[domains[k]])
  }

  lemma ExportResolves(full: map<Domain, Table>, d: Domain, i: int, column: string, target: Domain)
    requires Coherent(full) && d in full && i in full[d] && Leads(d, column, target)
    ensures target in full && Points(Column(full[d][i], column), full[target])
  {
    var r :| r in ReferenceFields(d) && r.Name() == column && r.Target() == target;
  }

  /** What a coherent database holds of a scope is closed. */
  lemma ExportClosed(full: map<Domain, Table>, refs: References, domains: seq<Domain>)
    requires Coherent(full) && Complete(refs, domains) && forall d :: d in domains ==> d in full
    ensures Closed(refs, Scope(full, domains))
  {
    hide Coherent, Leads;
    var s := Scope(full, domains);
    forall d, i, c | 0 <= d < |s| && i in s[d] && c in refs[d]
      ensures refs[d][c] < |s| && Points(Column(s[d][i], c), s[refs[d][c]])
    {
      assert CompleteAt(refs[d], domains, d);
      ExportResolves(full, domains[d], i, c, domains[refs[d][c]]);
    }
  }
}
