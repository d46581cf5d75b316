/**
 * The state provider of the game (src/context/TeamsContext.tsx).
 *
 * Every mutation reads the client's local mirror of the team list, builds a
 * whole new list with one change applied, and overwrites the shared store
 * with it. The mirror itself changes only when the store delivers a
 * snapshot. The pure list transformations come first; the `Store` and
 * `TeamsProvider` classes below hold the state.
 */
module TeamsContext {
  import opened Wrappers
  import opened Types

  // ---------------------------------------------------------------------
  // The default roster
  // ---------------------------------------------------------------------

  /** A team of the default roster: no members, a score of 0, nobody buzzed in. */
  function RosterTeam(id: int, name: string, color: string, image: string, theme: Theme): (t: Team)
    ensures t.id == id && t.members == [] && t.score == 0
    ensures t.buzzedInMember.None? && t.buzzerTimestamp.None?
  {
    Team(id, name, color, [], 0, image, theme, None, None)
  }

  const PhoenixImage := "https://dreamersia.com/wp-content/uploads/2023/06/Hong_Hy_the_legendary_phoenix_majestic_bright_vibrant_sacred_go_aa9b74f0-9e4e-4b44-9ad0-2e42c2733cfe.png"
  const DragonsImage := "https://images.unsplash.com/photo-1608889825103-eb5ed706fc64?auto=format&fit=crop&q=80&w=500"
  const TigersImage := "https://images.unsplash.com/photo-1561731216-c3a4d99437d5?auto=format&fit=crop&q=80&w=500"
  const PanthersImage := "https://images.unsplash.com/photo-1456926631375-92c8ce872def?auto=format&fit=crop&q=80&w=500"

  /** The roster written at first start-up and by `newGame`. */
  function InitialTeams(): (r: seq<Team>)
    ensures |r| == 4
    ensures forall i :: 0 <= i < |r| ==> r[i].id == i + 1
    ensures forall i :: 0 <= i < |r| ==> r[i].score == 0 && r[i].members == []
    ensures forall i :: 0 <= i < |r| ==> r[i].buzzedInMember.None? && r[i].buzzerTimestamp.None?
    ensures WellFormed(r)
  {
    [ RosterTeam(1, "Phoenix", "red", PhoenixImage,
        Theme("bg-red-500", "bg-red-100", "text-red-700", "border-red-300", "hover:bg-red-600")),
      RosterTeam(2, "Dragons", "blue", DragonsImage,
        Theme("bg-blue-500", "bg-blue-100", "text-blue-700", "border-blue-300", "hover:bg-blue-600")),
      RosterTeam(3, "Tigers", "amber", TigersImage,
        Theme("bg-amber-500", "bg-amber-100", "text-amber-700", "border-amber-300", "hover:bg-amber-600")),
      RosterTeam(4, "Panthers", "purple", PanthersImage,
        Theme("bg-purple-500", "bg-purple-100", "text-purple-700", "border-purple-300", "hover:bg-purple-600")) ]
  }

  // ---------------------------------------------------------------------
  // Invariants of a team list
  // ---------------------------------------------------------------------

  /** No two teams share an id. */
  predicate DistinctIds(teams: seq<Team>)
  {
    forall i, j :: 0 <= i < j < |teams| ==> teams[i].id != teams[j].id
  }

  /** Every score is clamped at zero. */
  predicate ScoresNonNegative(teams: seq<Team>)
  {
    forall i :: 0 <= i < |teams| ==> teams[i].score >= 0
  }

  predicate WellFormed(teams: seq<Team>)
  {
    DistinctIds(teams) && ScoresNonNegative(teams)
  }

  /** Some team already holds the buzzer (the field is defined, whatever its value). */
  function AnyoneBuzzed(teams: seq<Team>): (r: bool)
    ensures r <==> exists i :: 0 <= i < |teams| && teams[i].buzzedInMember.Some?
  {
    if teams == [] then false
    else if teams[0].buzzedInMember.Some? then true
    else
      var rest := AnyoneBuzzed(teams[1..]);
      assert rest <==> exists i :: 1 <= i < |teams| && teams[i].buzzedInMember.Some? by {
        assert forall i :: 1 <= i < |teams| ==> teams[i] == teams[1..][i - 1];
      }
      rest
  }

  // ---------------------------------------------------------------------
  // Member lists
  // ---------------------------------------------------------------------

  /** `members.filter(member => member !== name)`. */
  function Without(members: seq<string>, name: string): (r: seq<string>)
    ensures forall x :: x in r <==> x in members && x != name
    ensures |r| <= |members|
    ensures name !in members ==> r == members
  {
    if members == [] then []
    else if members[0] == name then Without(members[1..], name)
    else [members[0]] + Without(members[1..], name)
  }

  /** Filtering distributes over concatenation, so the kept members keep their order. */
  lemma {:induction false} WithoutAppend(a: seq<string>, b: seq<string>, name: string)
    ensures Without(a + b, name) == Without(a, name) + Without(b, name)
  {
    if a == [] {
      assert a + b == b;
    } else {
      assert (a + b)[1..] == a[1..] + b;
      WithoutAppend(a[1..], b, name);
    }
  }

  /** Filtering removes exactly the occurrences of `name`. */
  lemma {:induction false} WithoutCounts(members: seq<string>, name: string)
    ensures multiset(Without(members, name)) == multiset(members)[name := 0]
  {
    if members == [] {
    } else {
      WithoutCounts(members[1..], name);
      assert members == [members[0]] + members[1..];
    }
  }

  // ---------------------------------------------------------------------
  // The list transformations behind each mutation
  // ---------------------------------------------------------------------

  /** `addTeamMember`: append `playerName` to every team named `teamName`. */
  function AddedMember(teams: seq<Team>, teamName: string, playerName: string): (r: seq<Team>)
    ensures |r| == |teams|
    ensures forall i :: 0 <= i < |r| ==> r[i].(members := teams[i].members) == teams[i]
    ensures forall i :: 0 <= i < |r| && teams[i].name == teamName ==>
      |r[i].members| == |teams[i].members| + 1 &&
      r[i].members[..|teams[i].members|] == teams[i].members &&
      r[i].members[|teams[i].members|] == playerName
    ensures forall i :: 0 <= i < |r| && teams[i].name != teamName ==> r[i] == teams[i]
  {
    seq(|teams|, i requires 0 <= i < |teams| =>
      if teams[i].name == teamName then teams[i].(members := teams[i].members + [playerName]) else teams[i])
  }

  /** `removeMember`: drop every occurrence of `memberName` from every team named `teamName`. */
  function RemovedMember(teams: seq<Team>, teamName: string, memberName: string): (r: seq<Team>)
    ensures |r| == |teams|
    ensures forall i :: 0 <= i < |r| ==> r[i].(members := teams[i].members) == teams[i]
    ensures forall i :: 0 <= i < |r| && teams[i].name == teamName ==>
      memberName !in r[i].members &&
      forall x :: x in r[i].members <==> x in teams[i].members && x != memberName
    ensures forall i :: 0 <= i < |r| && teams[i].name == teamName ==>
      r[i].members == Without(teams[i].members, memberName)
    ensures forall i :: 0 <= i < |r| && teams[i].name != teamName ==> r[i] == teams[i]
  {
    seq(|teams|, i requires 0 <= i < |teams| =>
      if teams[i].name == teamName then teams[i].(members := Without(teams[i].members, memberName)) else teams[i])
  }

  /** `Math.max(0, score + increment)`. */
  function ClampedScore(score: int, increment: int): (r: int)
    ensures r >= 0
    ensures r >= score + increment
    ensures r == score + increment || r == 0
  {
    if score + increment > 0 then score + increment else 0
  }

  /** `updateScore`: clamp-add `increment` to the score of every team with id `teamId`. */
  function ScoreUpdated(teams: seq<Team>, teamId: int, increment: int): (r: seq<Team>)
    ensures |r| == |teams|
    ensures forall i :: 0 <= i < |r| ==> r[i].(score := teams[i].score) == teams[i]
    ensures forall i :: 0 <= i < |r| && teams[i].id == teamId ==> r[i].score == ClampedScore(teams[i].score, increment)
    ensures forall i :: 0 <= i < |r| && teams[i].id != teamId ==> r[i] == teams[i]
  {
    seq(|teams|, i requires 0 <= i < |teams| =>
      if teams[i].id == teamId then teams[i].(score := ClampedScore(teams[i].score, increment)) else teams[i])
  }

  /** `updateTeamImage`: replace the image of every team named `teamName`. */
  function ImageUpdated(teams: seq<Team>, teamName: string, imageUrl: string): (r: seq<Team>)
    ensures |r| == |teams|
    ensures forall i :: 0 <= i < |r| ==> r[i].(image := teams[i].image) == teams[i]
    ensures forall i :: 0 <= i < |r| ==> r[i].image == if teams[i].name == teamName then imageUrl else teams[i].image
  {
    seq(|teams|, i requires 0 <= i < |teams| =>
      if teams[i].name == teamName then teams[i].(image := imageUrl) else teams[i])
  }

  /**
   * `buzz`: `None` when some team already holds the buzzer (no write at all);
   * otherwise the list in which every team named `teamName` records
   * `memberName` and `timestamp`.
   */
  function Buzzed(teams: seq<Team>, teamName: string, memberName: string, timestamp: int): (r: Option<seq<Team>>)
    ensures r.None? <==> AnyoneBuzzed(teams)
    ensures r.Some? ==> |r.value| == |teams|
    ensures r.Some? ==> forall i :: 0 <= i < |teams| ==>
      r.value[i].(buzzedInMember := teams[i].buzzedInMember, buzzerTimestamp := teams[i].buzzerTimestamp) == teams[i]
    ensures r.Some? ==> forall i :: 0 <= i < |teams| && teams[i].name == teamName ==>
      r.value[i].buzzedInMember == Some(memberName) && r.value[i].buzzerTimestamp == Some(timestamp)
    ensures r.Some? ==> forall i :: 0 <= i < |teams| && teams[i].name != teamName ==> r.value[i] == teams[i]
  {
    if AnyoneBuzzed(teams) then None
    else Some(seq(|teams|, i requires 0 <= i < |teams| =>
      if teams[i].name == teamName
      then teams[i].(buzzedInMember := Some(memberName), buzzerTimestamp := Some(timestamp))
      else teams[i]))
  }

  /** `resetBuzzers`: clear the buzzer fields of every team. */
  function BuzzersReset(teams: seq<Team>): (r: seq<Team>)
    ensures |r| == |teams|
    ensures !AnyoneBuzzed(r)
    ensures forall i :: 0 <= i < |r| ==>
      r[i].buzzerTimestamp.None? &&
      r[i].(buzzedInMember := teams[i].buzzedInMember, buzzerTimestamp := teams[i].buzzerTimestamp) == teams[i]
  {
    seq(|teams|, i requires 0 <= i < |teams| => teams[i].(buzzedInMember := None, buzzerTimestamp := None))
  }

  // ---------------------------------------------------------------------
  // Properties of the transformations
  // ---------------------------------------------------------------------

  /** Removing a member right after adding it gives the same list as removing it directly. */
  lemma AddThenRemove(teams: seq<Team>, teamName: string, playerName: string)
    ensures RemovedMember(AddedMember(teams, teamName, playerName), teamName, playerName)
         == RemovedMember(teams, teamName, playerName)
  {
    var added := AddedMember(teams, teamName, playerName);
    forall i | 0 <= i < |teams| && teams[i].name == teamName
      ensures Without(added[i].members, playerName) == Without(teams[i].members, playerName)
    {
      assert added[i].members == teams[i].members + [playerName];
      WithoutAppend(teams[i].members, [playerName], playerName);
    }
  }

  /** When the player was not yet on the named teams, adding and removing is a round trip. */
  lemma AddThenRemoveRoundTrip(teams: seq<Team>, teamName: string, playerName: string)
    requires forall i :: 0 <= i < |teams| && teams[i].name == teamName ==> playerName !in teams[i].members
    ensures RemovedMember(AddedMember(teams, teamName, playerName), teamName, playerName) == teams
  {
    AddThenRemove(teams, teamName, playerName);
    var r := RemovedMember(teams, teamName, playerName);
    assert forall i :: 0 <= i < |teams| ==> r[i] == teams[i];
  }

  /** Removing a member nobody on the named teams has leaves the list as it was (it is still rewritten). */
  lemma RemoveAbsentIsNoOp(teams: seq<Team>, teamName: string, memberName: string)
    requires forall i :: 0 <= i < |teams| && teams[i].name == teamName ==> memberName !in teams[i].members
    ensures RemovedMember(teams, teamName, memberName) == teams
  {
  }

  /** The scenario of the clamp: -1 on a score of 0 stays at 0, +1 on 0 gives 1. */
  lemma ScoreClampAtZero(teams: seq<Team>, i: nat)
    requires i < |teams| && teams[i].score == 0
    ensures ScoreUpdated(teams, teams[i].id, -1)[i].score == 0
    ensures ScoreUpdated(teams, teams[i].id, 1)[i].score == 1
  {
  }

  /** Once a buzz is recorded on an existing team, no later buzz writes until a reset. */
  lemma FirstBuzzOnly(teams: seq<Team>, teamName: string, member: string, t: int,
                        otherTeam: string, otherMember: string, t': int)
    requires exists i :: 0 <= i < |teams| && teams[i].name == teamName
    requires Buzzed(teams, teamName, member, t).Some?
    ensures Buzzed(Buzzed(teams, teamName, member, t).value, otherTeam, otherMember, t').None?
  {
  }

  /** After a reset the buzzer is open again: the next buzz writes. */
  lemma ResetReopensBuzzer(teams: seq<Team>, teamName: string, member: string, t: int)
    ensures Buzzed(BuzzersReset(teams), teamName, member, t).Some?
  {
  }

  /** Resetting twice is the same as resetting once. */
  lemma ResetIdempotent(teams: seq<Team>)
    ensures BuzzersReset(BuzzersReset(teams)) == BuzzersReset(teams)
  {
  }

  /** A list with the same ids, position by position, and no negative score is well formed. */
  lemma SameIdsWellFormed(teams: seq<Team>, r: seq<Team>)
    requires WellFormed(teams) && |r| == |teams|
    requires forall i :: 0 <= i < |r| ==> r[i].id == teams[i].id && r[i].score >= 0
    ensures WellFormed(r)
  {
  }

  /** Every mutation keeps the ids distinct and the scores non-negative. */
  lemma MutationsPreserveWellFormed(teams: seq<Team>, name: string, player: string, id: int, inc: int,
                                    url: string, t: int)
    requires WellFormed(teams)
    ensures WellFormed(AddedMember(teams, name, player))
    ensures WellFormed(RemovedMember(teams, name, player))
    ensures WellFormed(ScoreUpdated(teams, id, inc))
    ensures WellFormed(ImageUpdated(teams, name, url))
    ensures Buzzed(teams, name, player, t).Some? ==> WellFormed(Buzzed(teams, name, player, t).value)
    ensures WellFormed(BuzzersReset(teams))
  {
  }

  // ---------------------------------------------------------------------
  // The shared store and the provider
  // ---------------------------------------------------------------------

  /**
   * The `teams` path of the realtime database: a last-write-wins cell.
   * `None` is a path that holds nothing (the snapshot does not exist and its
   * value is null).
   */
  class Store {
    var data: Option<seq<Team>>

    constructor (data: Option<seq<Team>>)
      ensures this.data == data
    {
      this.data := data;
    }
  }

  /**
   * One client's provider: the `teams` mirror that the components read, and
   * the store it writes to. Several providers may share one store.
   */
  class TeamsProvider {
    const store: Store
    var mirror: seq<Team>

    /** The mirror starts out empty (`useState<Team[]>([])`). */
    constructor (store: Store)
      ensures this.store == store && mirror == []
    {
      this.store := store;
      mirror := [];
    }

    /** The one-time read of the bootstrap: does the path hold data? */
    method SnapshotExists() returns (present: bool)
      ensures present <==> store.data.Some?
    {
      present := store.data.Some?;
    }

    /** `initializeTeams`: write the default roster only when the path is empty. */
    method InitializeTeams()
      modifies store
      ensures store.data == if old(store.data).None? then Some(InitialTeams()) else old(store.data)
    {
      var present := SnapshotExists();
      if !present {
        UpdateTeams(InitialTeams());
      }
    }

    /**
     * The subscription callback: the delivered snapshot replaces the mirror
     * when it holds data; a null snapshot is ignored.
     */
    method Deliver()
      modifies this`mirror
      ensures mirror == if store.data.Some? then store.data.value else old(mirror)
    {
      if store.data.Some? {
        mirror := store.data.value;
      }
    }

    /** `updateTeams`: a blind overwrite of the whole list. */
    method UpdateTeams(newTeams: seq<Team>)
      modifies store
      ensures store.data == Some(newTeams)
    {
      store.data := Some(newTeams);
    }

    method AddTeamMember(teamName: string, playerName: string)
      modifies store
      ensures store.data == Some(AddedMember(mirror, teamName, playerName))
    {
      UpdateTeams(AddedMember(mirror, teamName, playerName));
    }

    method RemoveMember(teamName: string, memberName: string)
      modifies store
      ensures store.data == Some(RemovedMember(mirror, teamName, memberName))
    {
      UpdateTeams(RemovedMember(mirror, teamName, memberName));
    }

    method UpdateScore(teamId: int, increment: int)
      modifies store
      ensures store.data == Some(ScoreUpdated(mirror, teamId, increment))
    {
      UpdateTeams(ScoreUpdated(mirror, teamId, increment));
    }

    method UpdateTeamImage(teamName: string, imageUrl: string)
      modifies store
      ensures store.data == Some(ImageUpdated(mirror, teamName, imageUrl))
    {
      UpdateTeams(ImageUpdated(mirror, teamName, imageUrl));
    }

    /** Writes only when no team in the mirror holds the buzzer. */
    method Buzz(teamName: string, memberName: string, timestamp: int)
      modifies store
      ensures AnyoneBuzzed(mirror) ==> store.data == old(store.data)
      ensures !AnyoneBuzzed(mirror) ==> store.data == Some(Buzzed(mirror, teamName, memberName, timestamp).value)
    {
      var newTeams := Buzzed(mirror, teamName, memberName, timestamp);
      if newTeams.Some? {
        UpdateTeams(newTeams.value);
      }
    }

    method ResetBuzzers()
      modifies store
      ensures store.data == Some(BuzzersReset(mirror))
    {
      UpdateTeams(BuzzersReset(mirror));
    }

    method NewGame()
      modifies store
      ensures store.data == Some(InitialTeams())
    {
      UpdateTeams(InitialTeams());
    }
  }
}
