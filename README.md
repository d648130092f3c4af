# Group selectors and the `general` reducer of mattermost-redux, in Dafny

This project models two pure pieces of the mattermost-redux client store.

**Group-association selectors** (`src/selectors/entities/groups.ts`, module `Groups` in
`groups.dfy`). The store keeps a table of groups keyed by id. It also keeps, per team and per
channel, an association entry listing the ids of the groups linked to it. The selectors
compute:

- the groups associated with a team or channel, and the groups not associated with it;
- the associated groups that allow @-mention (`allow_reference`);
- a composite "groups for reference" list, chosen by whether the team and/or channel is
  `group_constrained`;
- a term search over that composite list.

They also give total lookups with defaults for member counts, member lists and syncables.

The groups table is modelled as the sequence of its `Object.entries`, `(id, Group)` pairs, in
enumeration order. Each memoized selector is modelled by its result function. The team and
channel records become map lookups that return an optional record. Order-preserving filtering,
subsequences and duplicate-freedom are in module `Sequences` (`sequences.dfy`), and the optional
type is in `Wrappers` (`wrappers.dfy`).

**The `general` reducer** (`src/reducers/entities/general.ts`, module `General` in
`general.dfy`). Nine sub-reducers each map a slice and an action to the slice's next value.
`Step` combines them over a record of all nine slices. Actions are an enumerated datatype; any
action no reducer names is `Unrelated`. `Object.assign({}, state, data)` is `Merge`, a
right-biased map union. `Handles` is a separate table listing, for each action, the slices
whose switch names it. `StepFrame` proves that `Step` agrees with that table.

The properties about group membership assume what the store guarantees: each entry's key is
its group's id (`KeysAreIds`). The no-duplicate properties also assume that no key occurs
twice (`WellFormed`). The partition and order properties hold for any table.

## Model

| member | source | states |
|---|---|---|
| `Groups.GetGroup` | src/selectors/entities/groups.ts:20-22 | a group found under an id is an entry of the table under that id; no group is found only when no entry has that key |
| `Groups.GetGroupMemberCount` | src/selectors/entities/groups.ts:24-31 | 0 when the group has no member entry, otherwise that entry's `totalMemberCount` |
| `Groups.GetGroupMembers` | src/selectors/entities/groups.ts:45-51 | the empty list for a group with no member entry, otherwise its stored member list; it never fails |
| `Groups.GetGroupSyncables` | src/selectors/entities/groups.ts:33-35 | the stored syncables, or no teams and no channels for an unknown group |
| `Groups.GetGroupTeams` | src/selectors/entities/groups.ts:37-39 | the synced teams; empty for an unknown group |
| `Groups.GetGroupChannels` | src/selectors/entities/groups.ts:41-43 | the synced channels; empty for an unknown group |
| `Groups.AssociatedIds` | src/selectors/entities/groups.ts:82-84 | empty when the owner's entry is missing or its `ids` is null, otherwise exactly `ids` |
| `Groups.TeamGroupIds` | src/selectors/entities/groups.ts:82 | `teamGroupIDs`: empty when the team's entry or its `ids` is missing, otherwise exactly `ids` |
| `Groups.ChannelGroupIds` | src/selectors/entities/groups.ts:84 | `channelGroupIDs`: the same for a channel |
| `Groups.IdSet` | src/selectors/entities/groups.ts:86-94 | the id set holds exactly the ids of the list |
| `Groups.GroupsAssociated` | src/selectors/entities/groups.ts:104-110 | the result follows the table's enumeration order; when keys are ids, a group is in it iff it is in the table and its id is in the set |
| `Groups.GroupsNotAssociated` | src/selectors/entities/groups.ts:96-102 | the result follows the table order; when keys are ids, a group is in it iff it is in the table and its id is not in the set |
| `Groups.GroupsAssociatedForReference` | src/selectors/entities/groups.ts:128-142 | the associated result filtered to `allow_reference`; it follows the table order; every element allows reference and comes from the table; when keys are ids, membership iff id in the set and `allow_reference` |
| `Groups.AllGroupsForReference` | src/selectors/entities/groups.ts:144-149 | the table's groups filtered to `allow_reference`, in table order; a group is in it iff it is in the table and allows reference |
| `Groups.GetGroupsAssociatedToTeam` | src/selectors/entities/groups.ts:104-110 | in table order; when keys are ids, exactly the table groups whose id is in the team's id list |
| `Groups.GetGroupsNotAssociatedToTeam` | src/selectors/entities/groups.ts:96-102 | in table order; when keys are ids, exactly the table groups whose id is not in the team's id list |
| `Groups.GetGroupsAssociatedToChannel` | src/selectors/entities/groups.ts:120-126 | in table order; when keys are ids, exactly the table groups whose id is in the channel's id list |
| `Groups.GetGroupsNotAssociatedToChannel` | src/selectors/entities/groups.ts:112-118 | in table order; when keys are ids, exactly the table groups whose id is not in the channel's id list |
| `Groups.GetGroupsAssociatedToTeamForReference` | src/selectors/entities/groups.ts:128-134 | `getGroupsAssociatedToTeam` filtered to `allow_reference`; all elements allow reference and come from the table; when keys are ids, membership iff in the team's list and `allow_reference` |
| `Groups.GetGroupsAssociatedToChannelForReference` | src/selectors/entities/groups.ts:136-142 | the same for a channel |
| `Groups.GetAllAssociatedGroupsForReference` | src/selectors/entities/groups.ts:144-149 | in table order; a group is in it iff it is in the table and allows reference |
| `Groups.AssociationPartition` | src/selectors/entities/groups.ts:96-110 | associated and not-associated results together are the table's groups as a multiset: every entry lands in exactly one of them |
| `Groups.TeamAssociation` | src/selectors/entities/groups.ts:96-134 | for a team, when keys are ids: membership in the associated, not-associated and for-reference results follows the team's id list (and `allow_reference`); the first two partition the table's groups as a multiset and follow its order |
| `Groups.ChannelAssociation` | src/selectors/entities/groups.ts:112-142 | the same for a channel |
| `Groups.ForReferenceIsFilteredAssociated` | src/selectors/entities/groups.ts:128-142 | the for-reference result is the associated result filtered to `allow_reference`; each element allows reference; filtering again changes nothing |
| `Groups.ChannelThenTeam` | src/selectors/entities/groups.ts:71 | the channel list is a prefix of the result; the result holds exactly the groups of either list; the appended part holds exactly the team-list groups not in the channel list, in team order |
| `Groups.ChannelThenTeamNoDuplicates` | src/selectors/entities/groups.ts:71 | when neither input repeats a group, the combined list repeats none |
| `Groups.GetAssociatedGroupsForReference` | src/selectors/entities/groups.ts:63-80 | every group offered allows reference and comes from the table; when keys are ids, a group is offered iff it allows reference and is linked to the constrained team or channel (to either when both are constrained), or to nothing when neither is constrained |
| `Groups.CompositeSelection` | src/selectors/entities/groups.ts:63-80 | both constrained: channel list first, then the team-list groups not in it, in team order; only one constrained: that one's list; neither (including absent records): every `allow_reference` group |
| `Groups.CompositeNoDuplicates` | src/selectors/entities/groups.ts:63-80 | over a well-formed table the composite repeats no group, in all four cases |
| `Groups.CompositeExample` | src/selectors/entities/groups.ts:68-71 | a team with reference groups {A, B} and a channel with {B, C}, both constrained, give [B, C, A] |
| `Groups.FilterGroupsMatchingTerm` | src/selectors/entities/groups.ts:58 | the groups the matcher accepts for the term, as a subsequence of the input |
| `Groups.SearchAssociatedGroupsForReferenceLocal` | src/selectors/entities/groups.ts:53-61 | the search is a subsequence of the composite and holds exactly its groups that match the term |
| `Groups.SearchOnlyReferable` | src/selectors/entities/groups.ts:53-61 | for any table, every search result allows reference, comes from the table and matches the term |
| `General.Merge` | src/reducers/entities/general.ts:12 | `Object.assign({}, base, data)`: the keys of both; payload values win; keys absent from the payload keep their values |
| `General.ReduceConfig` | src/reducers/entities/general.ts:9-22 | unchanged by actions it does not name; emptied by `CLIENT_CONFIG_RESET` and `LOGOUT_SUCCESS`; the three merging actions keep every old key |
| `General.ReduceAppState` | src/reducers/entities/general.ts:24-32 | unchanged by other actions; `RECEIVED_APP_STATE` sets it to the payload |
| `General.ReduceCredentials` | src/reducers/entities/general.ts:34-48 | unchanged by other actions; `LOGIN` leaves only `url`, the login URL; `RECEIVED_APP_CREDENTIALS` keeps every old key; `LOGOUT_SUCCESS` empties it |
| `General.ReduceDataRetentionPolicy` | src/reducers/entities/general.ts:50-59 | unchanged by other actions; set to the payload by `RECEIVED_DATA_RETENTION_POLICY`; emptied by `LOGOUT_SUCCESS` |
| `General.ReduceDeviceToken` | src/reducers/entities/general.ts:61-68 | unchanged by other actions (logout included); set to the payload by `RECEIVED_APP_DEVICE_TOKEN` |
| `General.ReduceLicense` | src/reducers/entities/general.ts:70-82 | unchanged by other actions; set to the payload by `CLIENT_LICENSE_RECEIVED`; `SET_CONFIG_AND_LICENSE` keeps every old key; emptied by a license reset or logout |
| `General.ReduceTimezones` | src/reducers/entities/general.ts:84-93 | unchanged by other actions; set to the payload by `SUPPORTED_TIMEZONES_RECEIVED`; emptied by `LOGOUT_SUCCESS` |
| `General.ReduceServerVersion` | src/reducers/entities/general.ts:95-104 | unchanged by other actions; set to the payload by `RECEIVED_SERVER_VERSION`; the empty string after `LOGOUT_SUCCESS` |
| `General.ReduceWarnMetricsStatus` | src/reducers/entities/general.ts:106-113 | unchanged by other actions (logout included); set to the payload by `RECEIVED_WARN_METRICS_STATUS` |
| `General.Step` | src/reducers/entities/general.ts:115-125 | every slice whose reducer does not name the action keeps its value |
| `General.Handles` | src/reducers/entities/general.ts:9-113 | the table of which reducers name which action: no slice handles an action exactly when that action is unrelated to all nine reducers |
| `General.MergeIdempotent` | src/reducers/entities/general.ts:11-12 | merging the same payload twice equals merging it once |
| `General.ClientConfigReceivedOverrides` | src/reducers/entities/general.ts:11-12 | `CLIENT_CONFIG_RECEIVED` overrides the config key by key, keeps the other keys, and is idempotent |
| `General.ConfigAndLicenseMerges` | src/reducers/entities/general.ts:13-15 | `LOGIN` and `SET_CONFIG_AND_LICENSE` merge `data.config` into config; the latter also merges `data.license` into license |
| `General.LicenseReplacedOrEmptied` | src/reducers/entities/general.ts:70-80 | `CLIENT_LICENSE_RECEIVED` replaces the license regardless of its old value; `CLIENT_LICENSE_RESET` and `LOGOUT_SUCCESS` empty it |
| `General.PayloadReplacesSlice` | src/reducers/entities/general.ts:16-109 | `CLIENT_CONFIG_RESET` empties the config from any state; app state, retention policy, device token, timezones, server version and warn-metrics status each become their action's payload whatever their old value |
| `General.CredentialsOnLogin` | src/reducers/entities/general.ts:34-42 | `LOGIN` sets credentials to `{url}` alone; `RECEIVED_APP_CREDENTIALS` merges into them |
| `General.LogoutResets` | src/reducers/entities/general.ts:9-113 | `LOGOUT_SUCCESS` resets config, credentials, retention policy, license, timezones and server version to their defaults and keeps app state, device token and warn-metrics status |
| `General.StepFrame` | src/reducers/entities/general.ts:115-125 | a slice whose reducer does not name the action keeps its value; an unrelated action leaves the whole state unchanged |
| `General.StepIdempotent` | src/reducers/entities/general.ts:9-113 | every action applied twice in a row has the effect of applying it once |

## Left out

- The memoization done by `reselect.createSelector` (groups.ts:86-149) is library behaviour. This includes its cache keys and the reference stability of results. JavaScript reference identity has no counterpart among Dafny values, so only the result functions are modelled.
- `filterGroupsMatchingTerm` comes from `src/utils/group_utils.ts`, which is not part of this model. It is a parameter `matches(group, term)` used as an order-preserving filter. The outcomes that `src/utils/group_utils.test.ts` describes are not proved: an empty term matches everything, a leading `@` is stripped, and matching is case-insensitive.
- The `!groups` guard in `searchAssociatedGroupsForReferenceLocal` (groups.ts:55-57) never fires, because the composite is always a list. The final `return groups` (groups.ts:60) is unreachable. Neither is modelled.
- `indexOf` in groups.ts:71 compares object references. It is modelled as value membership. Both lists are drawn from one table, whose groups are distinct under `WellFormed`, so the two agree.
- `getTeam` and `getChannel` live in other selector files. They are modelled as map lookups that return an optional record with a `group_constrained` flag. A missing flag reads as false.
- `Object.entries` puts integer-like keys first. The model ignores this and takes the table order as given.
- `getAllGroups` is the table itself (`State.groups`).
- `combineReducers` and redux's undefined initial state are reduced to `Initial()` and `Step`.
- Reducer payloads are simplified. JSON values are strings. A missing `data.config` on `LOGIN` counts as an empty object. `data.url` is always present.
- `RECEIVED_APP_STATE` may carry any JSON value. The model carries a boolean, the slice's default type.
