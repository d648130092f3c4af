/**
 * Selectors over the groups part of the store: member and syncable lookups
 * with defaults, the groups associated (or not) with a team or a channel,
 * the subsets eligible for @-mention ("for reference"), the composite list
 * chosen by the team's and channel's `group_constrained` flags, and the
 * term search over that list.
 *
 * The store's `groups` object is modelled as the sequence of its entries
 * (what `Object.entries` enumerates), in enumeration order. Each selector is
 * modelled by the result function it memoizes.
 */
module Groups {
  import opened Wrappers
  import opened Sequences

  /** A group record; only the fields the selectors read or a matcher may use. */
  datatype Group = Group(
    id: string,
    name: string,
    displayName: string,
    description: string,
    memberCount: int,
    allowReference: bool)

  /** One `[groupID, group]` pair of `Object.entries(groups)`. */
  type Entry = (string, Group)

  /** The groups table as the sequence of its entries. */
  type Table = seq<Entry>

  /** A group's member summary. */
  datatype MemberData = MemberData(members: seq<string>, totalMemberCount: int)

  /** A team or channel a group is synced with. */
  datatype Syncable = Syncable(syncableId: string, displayName: string, autoAdd: bool)

  /** The teams and channels a group is synced with. */
  datatype GroupSyncables = GroupSyncables(teams: seq<Syncable>, channels: seq<Syncable>)

  /** The entry of an association index for one team or channel; `ids` may be null. */
  datatype Association = Association(ids: Option<seq<string>>, totalGroupCount: int)

  /** The parts of a team or channel record the selectors read. */
  datatype Team = Team(id: string, groupConstrained: bool)
  datatype Channel = Channel(id: string, groupConstrained: bool)

  /** The sub-trees of the store the selectors read. */
  datatype State = State(
    groups: Table,
    members: map<string, MemberData>,
    syncables: map<string, GroupSyncables>,
    groupsAssociatedToTeam: map<string, Association>,
    groupsAssociatedToChannel: map<string, Association>,
    teams: map<string, Team>,
    channels: map<string, Channel>)

  /** Every entry's key is its group's id (the store keys groups by id). */
  ghost predicate KeysAreIds(t: Table) {
    forall i | 0 <= i < |t| :: t[i].0 == t[i].1.id
  }

  /** A well-formed table: keys are the groups' ids and no key occurs twice. */
  ghost predicate WellFormed(t: Table) {
    && KeysAreIds(t)
    && forall i, j | 0 <= i < j < |t| :: t[i].0 != t[j].0
  }

  // ---------------------------------------------------------------------
  // Lookups with defaults

  /** `getGroup`: the group stored under `id`, if any. */
  function GetGroup(t: Table, id: string): (r: Option<Group>)
    ensures r.Some? ==> (id, r.value) in t
    ensures r.None? ==> forall e | e in t :: e.0 != id
  {
    if t == [] then None
    else if t[0].0 == id then Some(t[0].1)
    else GetGroup(t[1..], id)
  }

  /** `getGroupMemberCount`: the stored total, or 0 for a group with no member entry. */
  function GetGroupMemberCount(s: State, id: string): (r: int)
    ensures id !in s.members ==> r == 0
    ensures id in s.members ==> r == s.members[id].totalMemberCount
  {
    if id !in s.members then 0 else s.members[id].totalMemberCount
  }

  /** `getGroupMembers`: the stored member list, or the empty list. */
  function GetGroupMembers(s: State, id: string): (r: seq<string>)
    ensures id !in s.members ==> r == []
    ensures id in s.members ==> r == s.members[id].members
  {
    if id !in s.members then [] else s.members[id].members
  }

  /** `getGroupSyncables`: the stored syncables, or no teams and no channels. */
  function GetGroupSyncables(s: State, id: string): (r: GroupSyncables)
    ensures id !in s.syncables ==> r.teams == [] && r.channels == []
    ensures id in s.syncables ==> r == s.syncables[id]
  {
    Lookup(s.syncables, id).GetOr(GroupSyncables([], []))
  }

  /** `getGroupTeams`: the teams a group is synced with; empty for an unknown group. */
  function GetGroupTeams(s: State, id: string): (r: seq<Syncable>)
    ensures id !in s.syncables ==> r == []
    ensures id in s.syncables ==> r == s.syncables[id].teams
  {
    GetGroupSyncables(s, id).teams
  }

  /** `getGroupChannels`: the channels a group is synced with; empty for an unknown group. */
  function GetGroupChannels(s: State, id: string): (r: seq<Syncable>)
    ensures id !in s.syncables ==> r == []
    ensures id in s.syncables ==> r == s.syncables[id].channels
  {
    GetGroupSyncables(s, id).channels
  }

  /** The group ids an association index lists for `owner`: empty when the entry or its `ids` is missing. */
  function AssociatedIds(index: map<string, Association>, owner: string): (r: seq<string>)
    ensures owner !in index || index[owner].ids.None? ==> r == []
    ensures owner in index && index[owner].ids.Some? ==> r == index[owner].ids.value
  {
    match Lookup(index, owner)
    case None => []
    case Some(assoc) => assoc.ids.GetOr([])
  }

  /** `teamGroupIDs`. */
  function TeamGroupIds(s: State, teamId: string): (r: seq<string>)
    ensures teamId !in s.groupsAssociatedToTeam || s.groupsAssociatedToTeam[teamId].ids.None? ==> r == []
    ensures teamId in s.groupsAssociatedToTeam && s.groupsAssociatedToTeam[teamId].ids.Some? ==>
              r == s.groupsAssociatedToTeam[teamId].ids.value
  {
    AssociatedIds(s.groupsAssociatedToTeam, teamId)
  }

  /** `channelGroupIDs`. */
  function ChannelGroupIds(s: State, channelId: string): (r: seq<string>)
    ensures channelId !in s.groupsAssociatedToChannel || s.groupsAssociatedToChannel[channelId].ids.None? ==> r == []
    ensures channelId in s.groupsAssociatedToChannel && s.groupsAssociatedToChannel[channelId].ids.Some? ==>
              r == s.groupsAssociatedToChannel[channelId].ids.value
  {
    AssociatedIds(s.groupsAssociatedToChannel, channelId)
  }

  /** `new Set(ids)`. */
  function IdSet(ids: seq<string>): (r: set<string>)
    ensures forall x :: x in r <==> x in ids
  {
    set x | x in ids
  }

  // ---------------------------------------------------------------------
  // Filters over the table's entries

  /** `entry => ids.has(entry[0])`. */
  function InIds(ids: set<string>): Entry -> bool {
    (e: Entry) => e.0 in ids
  }

  /** `entry => !ids.has(entry[0])`. */
  function NotInIds(ids: set<string>): Entry -> bool {
    (e: Entry) => e.0 !in ids
  }

  /** `entry => entry[1].allow_reference`. */
  function EntryAllowsReference(): Entry -> bool {
    (e: Entry) => e.1.allowReference
  }

  /** `g => g.allow_reference`, the same test on a group. */
  function AllowsReference(): Group -> bool {
    (g: Group) => g.allowReference
  }

  /** `.map((entry) => entry[1])`. */
  function Values(t: Table): (r: seq<Group>)
    ensures |r| == |t|
    ensures forall i | 0 <= i < |t| :: r[i] == t[i].1
  {
    seq(|t|, i requires 0 <= i < |t| => t[i].1)
  }

  /** Result function of `getGroupsAssociatedToTeam` / `…ToChannel`: the groups whose id is in the set, in table order. */
  function GroupsAssociated(t: Table, ids: set<string>): (r: seq<Group>)
    ensures IsSubsequence(r, Values(t))
    ensures KeysAreIds(t) ==> forall g :: g in r <==> g in Values(t) && g.id in ids
  {
    FilteredInTableOrder(t, InIds(ids));
    FilteredMembership(t, InIds(ids));
    Values(Filter(t, InIds(ids)))
  }

  /** Result function of `getGroupsNotAssociatedToTeam` / `…ToChannel`: the groups whose id is not in the set, in table order. */
  function GroupsNotAssociated(t: Table, ids: set<string>): (r: seq<Group>)
    ensures IsSubsequence(r, Values(t))
    ensures KeysAreIds(t) ==> forall g :: g in r <==> g in Values(t) && g.id !in ids
  {
    FilteredInTableOrder(t, NotInIds(ids));
    FilteredMembership(t, NotInIds(ids));
    Values(Filter(t, NotInIds(ids)))
  }

  /**
   * Result function of `getGroupsAssociatedToTeamForReference` / `…ToChannelForReference`:
   * the associated groups filtered to `allow_reference`.
   */
  function GroupsAssociatedForReference(t: Table, ids: set<string>): (r: seq<Group>)
    ensures r == Filter(GroupsAssociated(t, ids), AllowsReference())
    ensures IsSubsequence(r, Values(t))
    ensures forall g | g in r :: g.allowReference && g in Values(t)
    ensures KeysAreIds(t) ==> forall g :: g in r <==> g in Values(t) && g.id in ids && g.allowReference
  {
    var associated := Filter(t, InIds(ids));
    ValuesFilterAllowsReference(associated);
    FilteredInTableOrder(t, InIds(ids));
    FilteredInTableOrder(associated, EntryAllowsReference());
    SubsequenceTransitive(Values(Filter(associated, EntryAllowsReference())), Values(associated), Values(t));
    SubsequenceIncluded(Values(Filter(associated, EntryAllowsReference())), Values(t));
    Values(Filter(associated, EntryAllowsReference()))
  }

  /** Result function of `getAllAssociatedGroupsForReference`: the table's `allow_reference` groups, in table order. */
  function AllGroupsForReference(t: Table): (r: seq<Group>)
    ensures r == Filter(Values(t), AllowsReference())
    ensures IsSubsequence(r, Values(t))
    ensures forall g :: g in r <==> g in Values(t) && g.allowReference
  {
    ValuesFilterAllowsReference(t);
    FilteredInTableOrder(t, EntryAllowsReference());
    Values(Filter(t, EntryAllowsReference()))
  }

  // The selectors, with their id-set input selector applied.

  function GetGroupsAssociatedToTeam(s: State, teamId: string): (r: seq<Group>)
    ensures IsSubsequence(r, Values(s.groups))
    ensures KeysAreIds(s.groups) ==> forall g :: g in r <==> g in Values(s.groups) && g.id in TeamGroupIds(s, teamId)
  {
    GroupsAssociated(s.groups, IdSet(TeamGroupIds(s, teamId)))
  }

  function GetGroupsNotAssociatedToTeam(s: State, teamId: string): (r: seq<Group>)
    ensures IsSubsequence(r, Values(s.groups))
    ensures KeysAreIds(s.groups) ==> forall g :: g in r <==> g in Values(s.groups) && g.id !in TeamGroupIds(s, teamId)
  {
    GroupsNotAssociated(s.groups, IdSet(TeamGroupIds(s, teamId)))
  }

  function GetGroupsAssociatedToChannel(s: State, channelId: string): (r: seq<Group>)
    ensures IsSubsequence(r, Values(s.groups))
    ensures KeysAreIds(s.groups) ==> forall g :: g in r <==> g in Values(s.groups) && g.id in ChannelGroupIds(s, channelId)
  {
    GroupsAssociated(s.groups, IdSet(ChannelGroupIds(s, channelId)))
  }

  function GetGroupsNotAssociatedToChannel(s: State, channelId: string): (r: seq<Group>)
    ensures IsSubsequence(r, Values(s.groups))
    ensures KeysAreIds(s.groups) ==> forall g :: g in r <==> g in Values(s.groups) && g.id !in ChannelGroupIds(s, channelId)
  {
    GroupsNotAssociated(s.groups, IdSet(ChannelGroupIds(s, channelId)))
  }

  function GetGroupsAssociatedToTeamForReference(s: State, teamId: string): (r: seq<Group>)
    ensures r == Filter(GetGroupsAssociatedToTeam(s, teamId), AllowsReference())
    ensures forall g | g in r :: g.allowReference && g in Values(s.groups)
    ensures KeysAreIds(s.groups) ==>
              forall g :: g in r <==> g in Values(s.groups) && g.id in TeamGroupIds(s, teamId) && g.allowReference
  {
    GroupsAssociatedForReference(s.groups, IdSet(TeamGroupIds(s, teamId)))
  }

  function GetGroupsAssociatedToChannelForReference(s: State, channelId: string): (r: seq<Group>)
    ensures r == Filter(GetGroupsAssociatedToChannel(s, channelId), AllowsReference())
    ensures forall g | g in r :: g.allowReference && g in Values(s.groups)
    ensures KeysAreIds(s.groups) ==>
              forall g :: g in r <==> g in Values(s.groups) && g.id in ChannelGroupIds(s, channelId) && g.allowReference
  {
    GroupsAssociatedForReference(s.groups, IdSet(ChannelGroupIds(s, channelId)))
  }

  function GetAllAssociatedGroupsForReference(s: State): (r: seq<Group>)
    ensures IsSubsequence(r, Values(s.groups))
    ensures forall g :: g in r <==> g in Values(s.groups) && g.allowReference
  {
    AllGroupsForReference(s.groups)
  }

  // ---------------------------------------------------------------------
  // The composite list and the search over it

  /** An absent team or channel, or one without the flag, is not constrained. */
  predicate TeamConstrained(team: Option<Team>) {
    team.Some? && team.value.groupConstrained
  }

  predicate ChannelConstrained(channel: Option<Channel>) {
    channel.Some? && channel.value.groupConstrained
  }

  /** `item => fromChannel.indexOf(item) < 0`. */
  function NotIn(xs: seq<Group>): Group -> bool {
    (g: Group) => g !in xs
  }

  /** `fromChannel.concat(fromTeam.filter(item => fromChannel.indexOf(item) < 0))`. */
  function ChannelThenTeam(fromChannel: seq<Group>, fromTeam: seq<Group>): (r: seq<Group>)
    ensures |fromChannel| <= |r| && r[..|fromChannel|] == fromChannel
    ensures forall g :: g in r <==> g in fromChannel || g in fromTeam
    ensures forall g :: g in r[|fromChannel|..] <==> g in fromTeam && g !in fromChannel
    ensures IsSubsequence(r[|fromChannel|..], fromTeam)
  {
    var extras := Filter(fromTeam, NotIn(fromChannel));
    var r := fromChannel + extras;
    assert r[|fromChannel|..] == extras;
    FilterIsSubsequence(fromTeam, NotIn(fromChannel));
    r
  }

  /** The combined list repeats no group when neither input does. */
  lemma ChannelThenTeamNoDuplicates(fromChannel: seq<Group>, fromTeam: seq<Group>)
    requires NoDuplicates(fromChannel) && NoDuplicates(fromTeam)
    ensures NoDuplicates(ChannelThenTeam(fromChannel, fromTeam))
  {
    var extras := Filter(fromTeam, NotIn(fromChannel));
    FilterNoDuplicates(fromTeam, NotIn(fromChannel));
    NoDuplicatesConcat(fromChannel, extras);
  }

  /** Which groups the composite offers, stated through the id lists rather than the selectors. */
  ghost predicate OfferedForReference(s: State, teamId: string, channelId: string, g: Group) {
    var inTeam := g.id in TeamGroupIds(s, teamId);
    var inChannel := g.id in ChannelGroupIds(s, channelId);
    var teamConstrained := TeamConstrained(Lookup(s.teams, teamId));
    var channelConstrained := ChannelConstrained(Lookup(s.channels, channelId));
    && g in Values(s.groups)
    && g.allowReference
    && (teamConstrained ==> (inTeam || (channelConstrained && inChannel)))
    && (channelConstrained ==> (inChannel || (teamConstrained && inTeam)))
  }

  /** `getAssociatedGroupsForReference`. */
  function GetAssociatedGroupsForReference(s: State, teamId: string, channelId: string): (r: seq<Group>)
    ensures forall g | g in r :: g.allowReference && g in Values(s.groups)
    ensures KeysAreIds(s.groups) ==> forall g :: g in r <==> OfferedForReference(s, teamId, channelId, g)
  {
    var team := Lookup(s.teams, teamId);
    var channel := Lookup(s.channels, channelId);
    if TeamConstrained(team) && ChannelConstrained(channel) then
      ChannelThenTeam(GetGroupsAssociatedToChannelForReference(s, channelId),
                      GetGroupsAssociatedToTeamForReference(s, teamId))
    else if TeamConstrained(team) then
      GetGroupsAssociatedToTeamForReference(s, teamId)
    else if ChannelConstrained(channel) then
      GetGroupsAssociatedToChannelForReference(s, channelId)
    else
      GetAllAssociatedGroupsForReference(s)
  }

  /** `g => matches(g, term)` for a fixed term. */
  function MatchesTerm(matches: (Group, string) -> bool, term: string): Group -> bool {
    (g: Group) => matches(g, term)
  }

  /**
   * `filterGroupsMatchingTerm`, whose matching rule lives outside this model:
   * the groups `matches` accepts for `term`, in their original order.
   */
  function FilterGroupsMatchingTerm(groups: seq<Group>, term: string, matches: (Group, string) -> bool): (r: seq<Group>)
    ensures forall g :: g in r <==> g in groups && matches(g, term)
    ensures IsSubsequence(r, groups)
  {
    FilterIsSubsequence(groups, MatchesTerm(matches, term));
    Filter(groups, MatchesTerm(matches, term))
  }

  /** `searchAssociatedGroupsForReferenceLocal`. */
  function SearchAssociatedGroupsForReferenceLocal(
    s: State, term: string, teamId: string, channelId: string, matches: (Group, string) -> bool): (r: seq<Group>)
    ensures IsSubsequence(r, GetAssociatedGroupsForReference(s, teamId, channelId))
    ensures forall g :: g in r <==> g in GetAssociatedGroupsForReference(s, teamId, channelId) && matches(g, term)
  {
    FilterGroupsMatchingTerm(GetAssociatedGroupsForReference(s, teamId, channelId), term, matches)
  }

  // ---------------------------------------------------------------------
  // Properties of the result functions

  lemma ValuesAppend(a: Table, b: Table)
    ensures Values(a + b) == Values(a) + Values(b)
  {
    assert forall i | 0 <= i < |a + b| :: Values(a + b)[i] == (Values(a) + Values(b))[i];
  }

  lemma ValuesTail(t: Table)
    requires t != []
    ensures Values(t) == [t[0].1] + Values(t[1..])
  {
    assert forall i | 0 <= i < |t| :: Values(t)[i] == ([t[0].1] + Values(t[1..]))[i];
  }

  /** Unfolding one step of a filter over the table, after mapping to groups. */
  lemma ValuesFilterStep(t: Table, keep: Entry -> bool)
    requires t != []
    ensures Values(Filter(t, keep)) == (if keep(t[0]) then [t[0].1] else []) + Values(Filter(t[1..], keep))
  {
    var head := if keep(t[0]) then [t[0]] else [];
    assert Filter(t, keep) == head + Filter(t[1..], keep);
    ValuesAppend(head, Filter(t[1..], keep));
    assert Values(head) == if keep(t[0]) then [t[0].1] else [];
  }

  lemma InValues(t: Table, g: Group)
    ensures g in Values(t) <==> exists e :: e in t && e.1 == g
  {
    if g in Values(t) {
      var i :| 0 <= i < |t| && Values(t)[i] == g;
      assert t[i] in t;
    }
  }

  /**
   * A filter over the table only keeps groups of the table; when keys are ids,
   * a group survives exactly when its own entry `(g.id, g)` passes.
   */
  lemma FilteredMembership(t: Table, keep: Entry -> bool)
    ensures forall g | g in Values(Filter(t, keep)) :: g in Values(t)
    ensures KeysAreIds(t) ==> forall g :: g in Values(Filter(t, keep)) <==> g in Values(t) && keep((g.id, g))
  {
    forall g
      ensures g in Values(Filter(t, keep)) ==> g in Values(t)
      ensures KeysAreIds(t) ==> (g in Values(Filter(t, keep)) <==> g in Values(t) && keep((g.id, g)))
    {
      InValues(t, g);
      InValues(Filter(t, keep), g);
      if KeysAreIds(t) {
        forall e | e in t ensures e.0 == e.1.id {
          var i :| 0 <= i < |t| && t[i] == e;
        }
      }
    }
  }

  /** Associated and not-associated results split the table: every entry lands in exactly one. */
  lemma {:induction false} AssociationPartition(t: Table, ids: set<string>)
    ensures multiset(GroupsAssociated(t, ids)) + multiset(GroupsNotAssociated(t, ids)) == multiset(Values(t))
    decreases |t|
  {
    if t != [] {
      AssociationPartition(t[1..], ids);
      ValuesFilterStep(t, InIds(ids));
      ValuesFilterStep(t, NotInIds(ids));
      ValuesTail(t);
    }
  }

  /** Mapping entries to groups keeps subsequences subsequences. */
  lemma {:induction false} ValuesSubsequence(a: Table, b: Table)
    requires IsSubsequence(a, b)
    ensures IsSubsequence(Values(a), Values(b))
    decreases |b|
  {
    if a != [] {
      ValuesTail(b);
      ValuesTail(a);
      if a[0] == b[0] && IsSubsequence(a[1..], b[1..]) {
        ValuesSubsequence(a[1..], b[1..]);
      } else {
        ValuesSubsequence(a, b[1..]);
      }
    }
  }

  /** A filtered table, mapped to groups, lists its groups in table order. */
  lemma FilteredInTableOrder(t: Table, keep: Entry -> bool)
    ensures IsSubsequence(Values(Filter(t, keep)), Values(t))
  {
    FilterIsSubsequence(t, keep);
    ValuesSubsequence(Filter(t, keep), t);
  }

  /** Filtering entries on `allow_reference` and then taking the groups is filtering the groups. */
  lemma {:induction false} ValuesFilterAllowsReference(t: Table)
    ensures Values(Filter(t, EntryAllowsReference())) == Filter(Values(t), AllowsReference())
    decreases |t|
  {
    if t != [] {
      ValuesFilterAllowsReference(t[1..]);
      ValuesFilterStep(t, EntryAllowsReference());
      ValuesTail(t);
      assert Values(t)[1..] == Values(t[1..]);
    }
  }

  /** The for-reference result is the associated result filtered to `allow_reference`; filtering again changes nothing. */
  lemma ForReferenceIsFilteredAssociated(t: Table, ids: set<string>)
    ensures GroupsAssociatedForReference(t, ids) == Filter(GroupsAssociated(t, ids), AllowsReference())
    ensures forall g | g in GroupsAssociatedForReference(t, ids) :: g.allowReference
    ensures Filter(GroupsAssociatedForReference(t, ids), AllowsReference()) == GroupsAssociatedForReference(t, ids)
  {
    ValuesFilterAllowsReference(Filter(t, InIds(ids)));
    FilterIdempotent(GroupsAssociated(t, ids), AllowsReference());
  }

  /** The team selectors: membership by the team's id list, a partition of the table, in table order. */
  lemma TeamAssociation(s: State, teamId: string, g: Group)
    requires KeysAreIds(s.groups)
    ensures g in GetGroupsAssociatedToTeam(s, teamId) <==> g in Values(s.groups) && g.id in TeamGroupIds(s, teamId)
    ensures g in GetGroupsNotAssociatedToTeam(s, teamId) <==> g in Values(s.groups) && g.id !in TeamGroupIds(s, teamId)
    ensures g in GetGroupsAssociatedToTeamForReference(s, teamId) <==>
              g in Values(s.groups) && g.id in TeamGroupIds(s, teamId) && g.allowReference
    ensures multiset(GetGroupsAssociatedToTeam(s, teamId)) + multiset(GetGroupsNotAssociatedToTeam(s, teamId))
              == multiset(Values(s.groups))
    ensures IsSubsequence(GetGroupsAssociatedToTeam(s, teamId), Values(s.groups))
    ensures IsSubsequence(GetGroupsNotAssociatedToTeam(s, teamId), Values(s.groups))
  {
    AssociationPartition(s.groups, IdSet(TeamGroupIds(s, teamId)));
  }

  /** The channel selectors: membership by the channel's id list, a partition of the table, in table order. */
  lemma ChannelAssociation(s: State, channelId: string, g: Group)
    requires KeysAreIds(s.groups)
    ensures g in GetGroupsAssociatedToChannel(s, channelId) <==> g in Values(s.groups) && g.id in ChannelGroupIds(s, channelId)
    ensures g in GetGroupsNotAssociatedToChannel(s, channelId) <==> g in Values(s.groups) && g.id !in ChannelGroupIds(s, channelId)
    ensures g in GetGroupsAssociatedToChannelForReference(s, channelId) <==>
              g in Values(s.groups) && g.id in ChannelGroupIds(s, channelId) && g.allowReference
    ensures multiset(GetGroupsAssociatedToChannel(s, channelId)) + multiset(GetGroupsNotAssociatedToChannel(s, channelId))
              == multiset(Values(s.groups))
    ensures IsSubsequence(GetGroupsAssociatedToChannel(s, channelId), Values(s.groups))
    ensures IsSubsequence(GetGroupsNotAssociatedToChannel(s, channelId), Values(s.groups))
  {
    AssociationPartition(s.groups, IdSet(ChannelGroupIds(s, channelId)));
  }

  /** Which list the composite is, by the two `group_constrained` flags; absent records count as unconstrained. */
  lemma CompositeSelection(s: State, teamId: string, channelId: string)
    ensures var r := GetAssociatedGroupsForReference(s, teamId, channelId);
            var fromTeam := GetGroupsAssociatedToTeamForReference(s, teamId);
            var fromChannel := GetGroupsAssociatedToChannelForReference(s, channelId);
            var teamConstrained := teamId in s.teams && s.teams[teamId].groupConstrained;
            var channelConstrained := channelId in s.channels && s.channels[channelId].groupConstrained;
            && (teamConstrained && channelConstrained ==>
                  && |fromChannel| <= |r|
                  && r[..|fromChannel|] == fromChannel
                  && IsSubsequence(r[|fromChannel|..], fromTeam)
                  && (forall g :: g in r[|fromChannel|..] <==> g in fromTeam && g !in fromChannel))
            && (teamConstrained && !channelConstrained ==> r == fromTeam)
            && (!teamConstrained && channelConstrained ==> r == fromChannel)
            && (!teamConstrained && !channelConstrained ==> r == GetAllAssociatedGroupsForReference(s))
  {
    var fromTeam := GetGroupsAssociatedToTeamForReference(s, teamId);
    var fromChannel := GetGroupsAssociatedToChannelForReference(s, channelId);
    var r := ChannelThenTeam(fromChannel, fromTeam);
    assert r[|fromChannel|..] == Filter(fromTeam, NotIn(fromChannel));
  }

  /** A table with distinct keys has no duplicate entries. */
  lemma WellFormedNoDuplicates(t: Table)
    requires WellFormed(t)
    ensures NoDuplicates(t)
  {
  }

  /** Filtering keeps every entry's key equal to its group's id. */
  lemma KeysAreIdsFilter(t: Table, keep: Entry -> bool)
    requires KeysAreIds(t)
    ensures KeysAreIds(Filter(t, keep))
  {
    var f := Filter(t, keep);
    forall i | 0 <= i < |f| ensures f[i].0 == f[i].1.id {
      assert f[i] in t;
      var j :| 0 <= j < |t| && t[j] == f[i];
    }
  }

  /** Distinct entries keyed by id carry distinct groups. */
  lemma ValuesNoDuplicates(t: Table)
    requires KeysAreIds(t) && NoDuplicates(t)
    ensures NoDuplicates(Values(t))
  {
    forall i, j | 0 <= i < j < |t| ensures Values(t)[i] != Values(t)[j] {
      assert t[i] != t[j];
    }
  }

  /** A for-reference result over a well-formed table repeats no group. */
  lemma ForReferenceNoDuplicates(t: Table, ids: set<string>)
    requires WellFormed(t)
    ensures NoDuplicates(GroupsAssociatedForReference(t, ids))
  {
    var f := Filter(t, InIds(ids));
    WellFormedNoDuplicates(t);
    FilterNoDuplicates(t, InIds(ids));
    KeysAreIdsFilter(t, InIds(ids));
    FilterNoDuplicates(f, EntryAllowsReference());
    KeysAreIdsFilter(f, EntryAllowsReference());
    ValuesNoDuplicates(Filter(f, EntryAllowsReference()));
  }

  /** The composite list repeats no group when the table is well formed. */
  lemma CompositeNoDuplicates(s: State, teamId: string, channelId: string)
    requires WellFormed(s.groups)
    ensures NoDuplicates(GetAssociatedGroupsForReference(s, teamId, channelId))
  {
    ForReferenceNoDuplicates(s.groups, IdSet(TeamGroupIds(s, teamId)));
    ForReferenceNoDuplicates(s.groups, IdSet(ChannelGroupIds(s, channelId)));
    ChannelThenTeamNoDuplicates(GetGroupsAssociatedToChannelForReference(s, channelId),
                                GetGroupsAssociatedToTeamForReference(s, teamId));
    var t := s.groups;
    WellFormedNoDuplicates(t);
    FilterNoDuplicates(t, EntryAllowsReference());
    KeysAreIdsFilter(t, EntryAllowsReference());
    ValuesNoDuplicates(Filter(t, EntryAllowsReference()));
  }

  /** The search only returns groups that allow reference, come from the table and match the term. */
  lemma SearchOnlyReferable(s: State, term: string, teamId: string, channelId: string, matches: (Group, string) -> bool)
    ensures forall g | g in SearchAssociatedGroupsForReferenceLocal(s, term, teamId, channelId, matches) ::
              g.allowReference && g in Values(s.groups) && matches(g, term)
  {
  }

  // A worked example: a constrained team with reference groups {A, B} and a
  // constrained channel with reference groups {B, C}. The id lists are given
  // out of table order on purpose.

  const exampleA := Group("a", "alpha", "Alpha", "", 1, true)
  const exampleB := Group("b", "beta", "Beta", "", 2, true)
  const exampleC := Group("c", "gamma", "Gamma", "", 3, true)

  function ExampleState(): State {
    State(
      [("a", exampleA), ("b", exampleB), ("c", exampleC)],
      map[], map[],
      map["t" := Association(Some(["b", "a"]), 2)],
      map["ch" := Association(Some(["c", "b"]), 2)],
      map["t" := Team("t", true)],
      map["ch" := Channel("ch", true)])
  }

  lemma ExampleTeamReferences()
    ensures GetGroupsAssociatedToTeamForReference(ExampleState(), "t") == [exampleA, exampleB]
  {
    var t := ExampleState().groups;
    var ids := IdSet(TeamGroupIds(ExampleState(), "t"));
    assert TeamGroupIds(ExampleState(), "t") == ["b", "a"];
    assert "a" in ids && "b" in ids && "c" !in ids by {
      assert "c" != "a" && "c" != "b";
    }
    var p := InIds(ids);
    assert p(t[0]) && p(t[1]) && !p(t[2]);
    assert Filter(t[2..], p) == [] by {
      assert t[2..][1..] == [];
    }
    assert Filter(t[1..], p) == [t[1]] by {
      assert t[1..][1..] == t[2..];
    }
    assert Filter(t, p) == [t[0], t[1]];
    FilterKeepsAll([t[0], t[1]], EntryAllowsReference());
  }

  lemma ExampleChannelReferences()
    ensures GetGroupsAssociatedToChannelForReference(ExampleState(), "ch") == [exampleB, exampleC]
  {
    var t := ExampleState().groups;
    var ids := IdSet(ChannelGroupIds(ExampleState(), "ch"));
    assert ChannelGroupIds(ExampleState(), "ch") == ["c", "b"];
    assert "a" !in ids && "b" in ids && "c" in ids by {
      assert "a" != "b" && "a" != "c";
    }
    var p := InIds(ids);
    assert !p(t[0]) && p(t[1]) && p(t[2]);
    assert Filter(t[2..], p) == [t[2]] by {
      assert t[2..][1..] == [];
    }
    assert Filter(t[1..], p) == [t[1], t[2]] by {
      assert t[1..][1..] == t[2..];
    }
    assert Filter(t, p) == [t[1], t[2]];
    FilterKeepsAll([t[1], t[2]], EntryAllowsReference());
  }

  lemma ExampleChannelThenTeam()
    ensures ChannelThenTeam([exampleB, exampleC], [exampleA, exampleB]) == [exampleB, exampleC, exampleA]
  {
    var notInChannel := NotIn([exampleB, exampleC]);
    assert notInChannel(exampleA) && !notInChannel(exampleB) by {
      assert exampleA.id != exampleB.id && exampleA.id != exampleC.id;
    }
    assert Filter([exampleB], notInChannel) == [] by {
      assert [exampleB][1..] == [];
    }
    assert Filter([exampleA, exampleB], notInChannel) == [exampleA] by {
      assert [exampleA, exampleB][1..] == [exampleB];
    }
  }

  /** The composite of the example is [B, C, A]: channel groups in table order, then the team's extra A, B only once. */
  lemma CompositeExample()
    ensures GetAssociatedGroupsForReference(ExampleState(), "t", "ch") == [exampleB, exampleC, exampleA]
  {
    var s := ExampleState();
    assert TeamConstrained(Lookup(s.teams, "t")) && ChannelConstrained(Lookup(s.channels, "ch"));
    assert GetAssociatedGroupsForReference(s, "t", "ch")
        == ChannelThenTeam(GetGroupsAssociatedToChannelForReference(s, "ch"), GetGroupsAssociatedToTeamForReference(s, "t"));
    ExampleTeamReferences();
    ExampleChannelReferences();
    ExampleChannelThenTeam();
  }
}
