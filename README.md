# Family game show: a Dafny model of the team state and buzzer logic

This project models the client logic of a browser game show. Players join one of four teams. A host keeps score, and players race to press a buzzer. Every client keeps a local mirror of the team list. It changes the game by building a whole new list from that mirror and overwriting one shared realtime-database path with it.

The model covers five source files:

- **`TeamsContext`** (`teams_context.dfy`): the state provider.
  - The default roster.
  - One pure list transformation per mutation: add a member, remove a member, the clamped score update, the image update, the first-buzz-only rule, the buzzer reset, and the new game.
  - Lemmas about those transformations.
  - Two classes. `Store` is the shared last-write-wins path. `TeamsProvider` is one client, with its `mirror` and its write methods. `Deliver` is the subscription callback, which copies a snapshot into the mirror.
- **`TeamCard`** (`team_card.dfy`): the buzz-order display.
  - Flattening every team's buzz records and sorting them by timestamp.
  - The first buzz, the rank of a timestamp, the `+Nms` offset, and the member badge.
  - The main result: the rank of a present timestamp is one more than the number of buzzes strictly earlier than it. So equal timestamps share a rank, and the order the sort leaves ties in is unobservable.
- **`TeamPage`** (`team_page.dfy`): the player page.
  - A `Page` class holding the page's local state: `isLoading`, `isBuzzed`, the loading message, and the reset effect's last dependency.
  - `Commit` runs the membership effect and the reset effect for one rendering of a new mirror.
  - `HandleBuzz` is the press handler. `View` and `BuzzerStateOf` give what is shown.
- **`TeamSelection`** (`team_selection.dfy`): the join form.
  - ECMAScript `String.prototype.trim`.
  - The submit guard, and the two effects of a valid submission, in order.
- **`Soundboard`** (`soundboard.dfy`): `getFullPath` and the table of sounds.

`Flows` (`flows.dfy`) puts several objects together in one sequence of calls:

- Two clients lose an increment.
- A stale mirror loses a newly added member.
- The bootstrap race overwrites a join.
- A mutation made before the first delivery erases the list.
- A join leads to the buzzer being shown.
- A buzz leads to "You Buzzed!".
- A press while another team holds the buzzer leaves the button on "Buzzing..." even after the host's reset.

Shared modules:

- `Wrappers` defines `Option`.
- `Types` defines the `Team` record and JavaScript truthiness of an optional string.
- `Decimal` renders integers the way `${n}` does, with a round-trip proof.

Semantics the model fixes explicitly:

- **Two notions of "buzzed in".** The provider treats the field as set when it is defined (`!== undefined`). The page treats it as set only when it is truthy. An empty holder name is defined but falsy, so it falls between the two (`TeamPage.EmptyHolderName`).
- **Delivery of an empty list.** The subscription ignores a null snapshot. An empty array is truthy in JavaScript, so the code would deliver it. The model delivers any list the store holds.
- **Integers.** Numbers are unbounded integers.

## Model

| member | source | states |
|---|---|---|
| Types.Truthy | src/pages/TeamPage.tsx:88 | an undefined holder and an empty name are falsy, every non-empty name is truthy |
| TeamsContext.RosterTeam | src/context/TeamsContext.tsx:7-22 | a roster team starts with no members, score 0 and no buzzer fields |
| TeamsContext.InitialTeams | src/context/TeamsContext.tsx:6-67 | the default roster has four teams with ids 1 to 4, score 0, no members, nobody buzzed in, distinct ids |
| TeamsContext.Without | src/context/TeamsContext.tsx:134 | the filtered member list keeps exactly the members other than the name, never grows, and is the input when the name is absent |
| TeamsContext.WithoutAppend | src/context/TeamsContext.tsx:134 | filtering distributes over concatenation, so kept members keep their order |
| TeamsContext.WithoutCounts | src/context/TeamsContext.tsx:134 | filtering removes every occurrence of the name and keeps every other occurrence (multiset) |
| TeamsContext.AddedMember | src/context/TeamsContext.tsx:122-129 | same length; the player is appended as the last member of every team with that name; no other field and no other team changes |
| TeamsContext.RemovedMember | src/context/TeamsContext.tsx:131-138 | same length; a named team's members become exactly the filtered list (`Without`), so every occurrence of the member goes and the rest keep their order and multiplicity; no other field or team changes |
| TeamsContext.ClampedScore | src/context/TeamsContext.tsx:143 | the new score is never negative, never below score + increment, and is one of the two |
| TeamsContext.ScoreUpdated | src/context/TeamsContext.tsx:140-147 | same length; only the score of teams with that id changes, to the clamped sum |
| TeamsContext.ImageUpdated | src/context/TeamsContext.tsx:149-156 | same length; only the image field changes, and only on teams with that name |
| TeamsContext.Buzzed | src/context/TeamsContext.tsx:158-169 | no write exactly when some team's holder is defined; otherwise only the buzzer fields of the named teams change, to the member and the timestamp |
| TeamsContext.AnyoneBuzzed | src/context/TeamsContext.tsx:160 | `teams.some(...)` over the list holds exactly when some team's holder is defined |
| TeamsContext.BuzzersReset | src/context/TeamsContext.tsx:171-178 | same length; no team holds the buzzer afterwards, and every other field is unchanged |
| TeamsContext.AddThenRemove | src/context/TeamsContext.tsx:122-138 | removing a member right after adding it equals removing it directly |
| TeamsContext.AddThenRemoveRoundTrip | src/context/TeamsContext.tsx:122-138 | if the player was on no named team, adding then removing restores the list |
| TeamsContext.RemoveAbsentIsNoOp | src/context/TeamsContext.tsx:131-138 | removing an absent member writes back a list equal to the mirror |
| TeamsContext.ScoreClampAtZero | src/context/TeamsContext.tsx:140-147 | -1 on a score of 0 stays 0 and +1 on 0 gives 1 |
| TeamsContext.FirstBuzzOnly | src/context/TeamsContext.tsx:158-169 | after a buzz on an existing team is recorded, any further buzz, on any team, writes nothing |
| TeamsContext.ResetReopensBuzzer | src/context/TeamsContext.tsx:158-178 | after a reset the next buzz is written |
| TeamsContext.ResetIdempotent | src/context/TeamsContext.tsx:171-178 | resetting twice equals resetting once |
| TeamsContext.SameIdsWellFormed | src/context/TeamsContext.tsx:122-178 | a list with the same ids position by position and no negative score keeps distinct ids and non-negative scores |
| TeamsContext.MutationsPreserveWellFormed | src/context/TeamsContext.tsx:122-178 | every mutation keeps ids distinct and scores non-negative |
| TeamsContext.Store.constructor | src/context/TeamsContext.tsx:93 | the shared path starts with the given content (or nothing) |
| TeamsContext.TeamsProvider.constructor | src/context/TeamsContext.tsx:92 | a client's mirror starts empty |
| TeamsContext.TeamsProvider.SnapshotExists | src/context/TeamsContext.tsx:98-99 | the one-time read reports whether the path holds data |
| TeamsContext.TeamsProvider.InitializeTeams | src/context/TeamsContext.tsx:97-102 | the default roster is written exactly when the path holds nothing, otherwise the store is unchanged |
| TeamsContext.TeamsProvider.Deliver | src/context/TeamsContext.tsx:108-113 | the mirror becomes the delivered list when there is one, and is unchanged for a null snapshot |
| TeamsContext.TeamsProvider.UpdateTeams | src/context/TeamsContext.tsx:118-120 | a blind overwrite of the whole path |
| TeamsContext.TeamsProvider.AddTeamMember | src/context/TeamsContext.tsx:122-129 | the store receives the added-member list built from the mirror; the mirror is untouched |
| TeamsContext.TeamsProvider.RemoveMember | src/context/TeamsContext.tsx:131-138 | the store receives the removed-member list built from the mirror |
| TeamsContext.TeamsProvider.UpdateScore | src/context/TeamsContext.tsx:140-147 | the store receives the clamped-score list built from the mirror |
| TeamsContext.TeamsProvider.UpdateTeamImage | src/context/TeamsContext.tsx:149-156 | the store receives the updated-image list built from the mirror |
| TeamsContext.TeamsProvider.Buzz | src/context/TeamsContext.tsx:158-169 | nothing is written when the mirror shows a holder; otherwise the buzzed list is written |
| TeamsContext.TeamsProvider.ResetBuzzers | src/context/TeamsContext.tsx:171-178 | the store receives the mirror with every buzzer cleared |
| TeamsContext.TeamsProvider.NewGame | src/context/TeamsContext.tsx:180-182 | the store receives exactly the default roster |
| TeamCard.TeamBuzzes | src/components/TeamCard.tsx:15 | a missing buzz list counts as empty, and a present one is returned unchanged |
| TeamCard.Flatten | src/components/TeamCard.tsx:14-15 | the flattened list holds exactly the records of all teams' lists |
| TeamCard.InsertByTime | src/components/TeamCard.tsx:16 | inserting adds exactly one record (multiset) |
| TeamCard.InsertLowerBound | src/components/TeamCard.tsx:16 | a bound below the inserted record and every old record stays below every record of the result |
| TeamCard.ConsSorted | src/components/TeamCard.tsx:16 | a record no later than every record of a sorted list keeps the list sorted when put in front |
| TeamCard.InsertKeepsSorted | src/components/TeamCard.tsx:16 | inserting into a time-sorted list keeps it sorted |
| TeamCard.SortByTime | src/components/TeamCard.tsx:16 | the sort is a permutation of its input and non-decreasing in timestamp |
| TeamCard.AllBuzzes | src/components/TeamCard.tsx:14-16 | all buzzes are a permutation of every team's records, sorted by timestamp |
| TeamCard.FirstBuzz | src/components/TeamCard.tsx:18 | absent exactly when there are no buzzes; otherwise a buzz whose timestamp is the minimum |
| TeamCard.HasBuzzed | src/components/TeamCard.tsx:19-20 | holds exactly when the team's list is present and non-empty |
| TeamCard.IsFirstBuzz | src/components/TeamCard.tsx:21 | a team marked first has buzzed and a first buzz exists; its meaning is given by `IsFirstBuzzMeaning` |
| TeamCard.IsFirstBuzzMeaning | src/components/TeamCard.tsx:21 | a team is first exactly when one of its buzzes is no later than every buzz of every team |
| TeamCard.FindIndex | src/components/TeamCard.tsx:26 | the index of the first record at the timestamp, and -1 exactly when there is none |
| TeamCard.BuzzOrder | src/components/TeamCard.tsx:25-27 | the rank lies between 0 and the number of buzzes, and is 0 exactly for a timestamp nobody buzzed at; `BuzzOrderCountsEarlier` gives its value |
| TeamCard.CountEarlier | src/components/TeamCard.tsx:25-27 | the number of strictly earlier records is at most the length |
| TeamCard.CountEarlierInsert | src/components/TeamCard.tsx:16 | inserting a record raises the count by one exactly when the record is earlier |
| TeamCard.CountEarlierSort | src/components/TeamCard.tsx:16 | sorting keeps the number of records earlier than any time |
| TeamCard.FindIndexSorted | src/components/TeamCard.tsx:26 | in a sorted list, the first record at a present time sits right after all earlier records |
| TeamCard.CountEarlierNone | src/components/TeamCard.tsx:25-27 | the count is zero exactly when no record is earlier |
| TeamCard.CountEarlierBelowLength | src/components/TeamCard.tsx:25-27 | for a present time the count is below the length |
| TeamCard.CountEarlierStrict | src/components/TeamCard.tsx:25-27 | a present time has strictly fewer earlier records than any later time |
| TeamCard.CountEarlierMonotone | src/components/TeamCard.tsx:25-27 | the count never decreases as the time grows |
| TeamCard.SortKeepsTimestamps | src/components/TeamCard.tsx:16 | a timestamp occurs after sorting exactly when it occurred before |
| TeamCard.BuzzOrderCountsEarlier | src/components/TeamCard.tsx:25-27 | the rank of a present timestamp is 1 + the number of strictly earlier buzzes, and 0 for an absent one; equal timestamps share a rank |
| TeamCard.BuzzOrderBounds | src/components/TeamCard.tsx:25-27 | a present timestamp ranks between 1 and the number of buzzes |
| TeamCard.BuzzOrderFirst | src/components/TeamCard.tsx:18-27 | rank 1 goes exactly to the first buzz's timestamp |
| TeamCard.BuzzOrderMonotone | src/components/TeamCard.tsx:25-27 | a strictly later buzz ranks strictly higher |
| TeamCard.TimeDiff | src/components/TeamCard.tsx:30-35 | empty without a first buzz; otherwise empty exactly at the first timestamp, else it starts with "+" and ends with "ms"; `TimeDiffOfPresentBuzz` gives the digits |
| TeamCard.TimeDiffOfPresentBuzz | src/components/TeamCard.tsx:30-35 | for a present buzz the offset is empty exactly at the first timestamp, otherwise "+", the positive difference in decimal, "ms" |
| TeamCard.FirstRecordOf | src/components/TeamCard.tsx:110 | the member's first record in the team's list, absent exactly when the member has none |
| TeamCard.MemberOrder | src/components/TeamCard.tsx:110-111 | no badge exactly when the member has no record in the team's list; otherwise the rank of one of their records, the first one by `MemberOrderMeaning` |
| TeamCard.MemberOrderMeaning | src/components/TeamCard.tsx:110-111 | a member has a badge exactly when they have a record; it is the rank of their first record, between 1 and the number of buzzes |
| TeamCard.TwoTeamsAllBuzzes | src/components/TeamCard.tsx:14-16 | two teams with buzzes at 1000 and 1005 give the sorted list of both records, earlier first |
| TeamCard.TwoTeamsFirst | src/components/TeamCard.tsx:18 | for those two teams the first buzz is the one at 1000 |
| TeamCard.TwoTeamsRanks | src/components/TeamCard.tsx:25-27 | for those two teams the buzz at 1000 ranks 1 and the one at 1005 ranks 2 |
| TeamCard.OffsetsFromAnn | src/components/TeamCard.tsx:30-35 | with the first buzz at 1000, the offset is empty at 1000 and "+5ms" at 1005 |
| TeamCard.TwoTeamScenario | src/components/TeamCard.tsx:25-35 | buzzes at 1000 and 1005 rank 1 with no offset and 2 with "+5ms" |
| Decimal.NatToString | src/components/TeamCard.tsx:34 | a natural renders as non-empty digits with no leading zero |
| Decimal.NatToStringRoundTrip | src/components/TeamCard.tsx:34 | reading back the rendered digits gives the number |
| Decimal.NatToStringInjective | src/components/TeamCard.tsx:34 | distinct numbers render differently |
| Decimal.IntToString | src/components/TeamCard.tsx:34 | a non-negative integer renders as its digits, a negative one as "-" followed by the digits of its magnitude |
| TeamPage.FindTeam | src/pages/TeamPage.tsx:20 | the first team with the name, absent exactly when there is none |
| TeamPage.FindTeamAt | src/pages/TeamPage.tsx:20 | the lookup returns the team at a position holding the name when no earlier team holds it |
| TeamPage.MembershipMessage | src/pages/TeamPage.tsx:16-41 | "Connected!" exactly when the team lists the player; "Loading teams data..." exactly for an empty mirror; "Verifying team..." exactly when the team is missing; "Verifying team membership..." exactly when the team is found without the player; never "Connecting to server..." |
| TeamPage.BuzzerStateOf | src/pages/TeamPage.tsx:95-137 | ready exactly when the holder is falsy and no press is pending; pending exactly when the holder is falsy and a press is pending; otherwise the holder, marked as self exactly when it is the player |
| TeamPage.Disabled | src/pages/TeamPage.tsx:95-137 | the button is disabled exactly in the claimed and pending states |
| TeamPage.Label | src/pages/TeamPage.tsx:95-137 | "BUZZ!" exactly when ready, "Buzzing..." exactly when pending, "You Buzzed!" for the player's own claim, else the holder's name followed by " Buzzed!" |
| TeamPage.BuzzerStateLabels | src/pages/TeamPage.tsx:95-137 | disabled exactly when the holder is truthy or a press is pending; the caption is "You Buzzed!", "{member} Buzzed!", "Buzzing..." or "BUZZ!" in that priority |
| TeamPage.ResetEffect | src/pages/TeamPage.tsx:43-50 | the flag is only ever cleared, and it is cleared exactly when the dependency changed, the team exists and its holder is falsy |
| TeamPage.Page.constructor | src/pages/TeamPage.tsx:9-11 | not buzzed, loading, "Connecting to server...", no commit yet |
| TeamPage.Page.View | src/pages/TeamPage.tsx:43-71 | loading screen with the current message exactly while loading; then a redirect to /join exactly when the team is missing or lacks the player, else the buzzer of the first team with that name, in the state `BuzzerStateOf` gives for its holder, the pending flag and the player, disabled exactly when its holder is truthy or a press is pending |
| TeamPage.Page.Commit | src/pages/TeamPage.tsx:16-50 | the membership message is set; loading ends exactly once the player is seen and never restarts; the reset effect runs against the previous dependency |
| TeamPage.Page.HandleBuzz | src/pages/TeamPage.tsx:87-93 | a buzz for this team and player is issued exactly when no press is pending and the holder is falsy; the press is then pending, so repeated presses issue at most one buzz |
| TeamPage.AddedMemberIsMember | src/pages/TeamPage.tsx:20-25 | after a member is added to an existing team, the page finds the player on that team |
| TeamPage.OwnTeamGuardOnly | src/pages/TeamPage.tsx:88-97 | while another team holds the buzzer, a player whose team is free sees a ready button, and the provider refuses the buzz it issues |
| TeamPage.EmptyHolderName | src/pages/TeamPage.tsx:88-96 | an empty holder name blocks the provider but shows a ready button |
| TeamSelection.SkipForward | src/pages/TeamSelection.tsx:14 | the index of the first non-whitespace character from a position on |
| TeamSelection.SkipBackward | src/pages/TeamSelection.tsx:14 | the end of a range once its trailing whitespace is dropped |
| TeamSelection.Trim | src/pages/TeamSelection.tsx:14 | the trimmed name is empty exactly for all-whitespace input, has no whitespace at either end, and is the input between leading and trailing whitespace |
| TeamSelection.TrimIdempotent | src/pages/TeamSelection.tsx:14-20 | trimming twice equals trimming once |
| TeamSelection.TeamPath | src/pages/TeamSelection.tsx:19-21 | the path reads "/team/", the encoded team, "/", the encoded name, and splits back into those parts |
| TeamSelection.JoinForm.constructor | src/pages/TeamSelection.tsx:7-8 | both fields start empty |
| TeamSelection.JoinForm.SelectTeam | src/pages/TeamSelection.tsx:7 | the team field takes the selected value |
| TeamSelection.JoinForm.EditName | src/pages/TeamSelection.tsx:8 | the name field takes the typed value |
| TeamSelection.JoinForm.Submit | src/pages/TeamSelection.tsx:12-23 | no effect exactly when no team is selected or the trimmed name is empty; otherwise first add the trimmed name to the team, then replace the location with /team/{team}/{name}, both encoded |
| Soundboard.GetFullPath | src/components/Soundboard.tsx:9-14 | the result starts with the base URL, followed by the path with exactly one leading slash removed if it had one, else the path unchanged |
| Soundboard.OnlyFirstSlashRemoved | src/components/Soundboard.tsx:12 | "//x" gives base + "/x" |
| Soundboard.NoSlashAfterBase | src/components/Soundboard.tsx:12-13 | unless the path starts with two slashes, no slash follows the base URL |
| Soundboard.SoundPathsAreRelative | src/components/Soundboard.tsx:16-25 | every sound file is relative, so its full path is the base URL followed by the file |
| Flows.ConcurrentIncrements | src/context/TeamsContext.tsx:108-147 | two clients on the same snapshot each add 1: the score rises by 1 and nothing else changes |
| Flows.DeliveredIncrements | src/context/TeamsContext.tsx:108-147 | with a delivery between them both increments count |
| Flows.StaleMirrorLosesMember | src/context/TeamsContext.tsx:118-147 | a score update made before the added member is delivered overwrites the addition |
| Flows.BootstrapRace | src/context/TeamsContext.tsx:97-129 | a client that saw an empty path writes the default roster over another client's join |
| Flows.EarlyMutationErases | src/context/TeamsContext.tsx:92-178 | a mutation made before the first delivery writes an empty list |
| Flows.JoinFlow | src/pages/TeamSelection.tsx:12-23 | a valid submission, once delivered, takes the player's page from loading to the buzzer |
| Flows.BuzzedTeamFound | src/context/TeamsContext.tsx:158-169 | after a member of an existing team buzzes with nobody holding the buzzer, the page finds that team, still listing the player and holding the buzzer for them |
| Flows.BuzzFlow | src/pages/TeamPage.tsx:87-111 | a press with nobody holding the buzzer, once delivered, shows "You Buzzed!" |
| Flows.PendingSurvivesReset | src/pages/TeamPage.tsx:46-124 | a press refused by the provider stays on a disabled "Buzzing..." after the host's reset, and a second press issues nothing |

## Left out

- Realtime database I/O (`get`, `set`, `onValue`) and its configuration are not modelled. The store is one shared `Store` object, and every write lands at once.
- The database's own normalisation is not modelled. That includes an empty array or list stored as nothing, `undefined` fields rejected on write, and a team without members coming back with no `members` key.
- Asynchronous interleaving and callback timing are not modelled. Flows are sequences of calls, and each snapshot delivery is an explicit `Deliver` call.
- Unsubscribing from the store is not modelled, because the model has no component lifetime.
- Audio preloading and playback on the soundboard are browser I/O.
- The image upload through `FileReader` is not modelled, apart from the `updateTeamImage` write it ends in.
- JSX, CSS classes and theme strings are not modelled beyond the theme record itself. Loading messages appear as an enumeration whose comments give the strings.
- `encodeURIComponent` is a function parameter of the form. The page receives the player name already decoded, so `decodeURIComponent` stays outside the model.
- `Date.now()` is an input (`now`, `timestamp`).
- The `WebSocketMessage` union in src/types.ts is not modelled, because nothing uses it.
- JavaScript numbers are modelled as unbounded integers. Floating-point scores, increments and timestamps are not modelled.
- TeamCard reads a per-team `buzzes` list that the `Team` record does not declare and that the provider never writes; the provider writes `buzzedInMember` and `buzzerTimestamp` instead. The card is therefore modelled over its own `CardTeam` record with an optional list of buzz records, not over `Team`.
- TeamCard.SortByTime: stability of the sort is not stated. Rank and offset depend only on timestamps (`TeamCard.BuzzOrderCountsEarlier`), so tie order cannot be observed in what the card shows.
- The header, image section and member chips of the player page are rendering only.
- The host's game board is not part of this model.
