/**
 * Whole interactions between clients that share one store: each client is
 * a `TeamsProvider` over the same `Store`, and every delivery of the store's
 * snapshot to a client is an explicit `Deliver` call. These show the
 * last-write-wins behaviour of the blind overwrites and how the join form,
 * the provider and the player page fit together.
 */
module Flows {
  import opened Wrappers
  import opened Types
  import opened TeamsContext
  import TeamPage
  import TeamSelection

  /**
   * Two clients holding the same snapshot each add 1 to one team's score:
   * the second write overwrites the first, so the score rises by 1, not 2.
   */
  method ConcurrentIncrements(teams: seq<Team>, i: nat) returns (final: seq<Team>)
    requires i < |teams| && WellFormed(teams)
    ensures |final| == |teams|
    ensures final[i].score == teams[i].score + 1
    ensures forall j :: 0 <= j < |teams| && j != i ==> final[j] == teams[j]
  {
    var store := new Store(Some(teams));
    var a := new TeamsProvider(store);
    var b := new TeamsProvider(store);
    a.Deliver();
    b.Deliver();
    a.UpdateScore(teams[i].id, 1);
    b.UpdateScore(teams[i].id, 1);
    final := store.data.value;
  }

  /** The same two increments with a delivery in between both count. */
  method DeliveredIncrements(teams: seq<Team>, i: nat) returns (final: seq<Team>)
    requires i < |teams| && WellFormed(teams)
    ensures |final| == |teams|
    ensures final[i].score == teams[i].score + 2
  {
    var store := new Store(Some(teams));
    var a := new TeamsProvider(store);
    var b := new TeamsProvider(store);
    a.Deliver();
    a.UpdateScore(teams[i].id, 1);
    b.Deliver();
    b.UpdateScore(teams[i].id, 1);
    final := store.data.value;
  }

  /**
   * One client adds a member and then changes a score before its own write
   * comes back: the second write is built from the stale mirror, so the new
   * member is gone from the store.
   */
  method StaleMirrorLosesMember(teams: seq<Team>, i: nat, player: string) returns (final: seq<Team>)
    requires i < |teams| && WellFormed(teams)
    requires player !in teams[i].members
    ensures final == ScoreUpdated(teams, teams[i].id, 1)
    ensures player !in final[i].members
  {
    var store := new Store(Some(teams));
    var client := new TeamsProvider(store);
    client.Deliver();
    client.AddTeamMember(teams[i].name, player);
    assert player in store.data.value[i].members;
    client.UpdateScore(teams[i].id, 1);
    final := store.data.value;
  }

  /**
   * The bootstrap race: client A reads an empty store; meanwhile client B
   * bootstraps, sees the roster and adds Ann to Phoenix; then A finishes its
   * bootstrap by writing the default roster, and Ann is gone.
   */
  method BootstrapRace() returns (final: seq<Team>)
    ensures final == InitialTeams()
    ensures "Ann" !in final[0].members
  {
    var store := new Store(None);
    var a := new TeamsProvider(store);
    var b := new TeamsProvider(store);
    var present := a.SnapshotExists();
    assert !present;
    b.InitializeTeams();
    b.Deliver();
    b.AddTeamMember("Phoenix", "Ann");
    assert "Ann" in store.data.value[0].members;
    if !present {
      a.UpdateTeams(InitialTeams());
    }
    final := store.data.value;
  }

  /**
   * A mutation issued before the first delivery is built from the empty
   * mirror, so it overwrites the whole stored list with an empty one.
   */
  method EarlyMutationErases(teams: seq<Team>) returns (final: Option<seq<Team>>)
    ensures final == Some([])
  {
    var store := new Store(Some(teams));
    var client := new TeamsProvider(store);
    client.ResetBuzzers();
    final := store.data;
  }

  /**
   * Joining: the form adds the trimmed name to the chosen team; once the
   * write is delivered, the player page opened for that name stops loading
   * and shows the buzzer.
   */
  method JoinFlow(teams: seq<Team>, team: string, typed: string, encode: string -> string)
    returns (screen: TeamPage.Screen)
    requires team != "" && TeamSelection.Trim(typed) != ""
    requires exists i :: 0 <= i < |teams| && teams[i].name == team
    ensures screen.Buzzer?
  {
    var store := new Store(Some(teams));
    var client := new TeamsProvider(store);
    client.Deliver();
    var form := new TeamSelection.JoinForm();
    form.SelectTeam(team);
    form.EditName(typed);
    var effects := form.Submit(encode);
    var name := effects[0].playerName;
    client.AddTeamMember(effects[0].teamName, name);
    client.Deliver();
    TeamPage.AddedMemberIsMember(teams, team, name);
    var page := new TeamPage.Page(team, name);
    page.Commit(client.mirror);
    screen := page.View(client.mirror);
  }

  /** After a buzz by a member of an existing team, the page finds that team holding it for them. */
  lemma BuzzedTeamFound(teams: seq<Team>, team: string, player: string, now: int)
    requires !AnyoneBuzzed(teams) && TeamPage.IsMember(teams, team, player)
    ensures Buzzed(teams, team, player, now).Some?
    ensures var buzzed := Buzzed(teams, team, player, now).value;
      TeamPage.IsMember(buzzed, team, player) &&
      TeamPage.FindTeam(buzzed, team).value.buzzedInMember == Some(player)
  {
  }

  /**
   * Buzzing in: with nobody holding the buzzer, a press on the player page
   * issues a buzz, the provider records it, and once it is delivered the
   * page shows "You Buzzed!".
   */
  method BuzzFlow(teams: seq<Team>, team: string, player: string, now: int) returns (shown: string)
    requires player != "" && !AnyoneBuzzed(teams)
    requires TeamPage.IsMember(teams, team, player)
    ensures shown == "You Buzzed!"
  {
    var store := new Store(Some(teams));
    var client := new TeamsProvider(store);
    client.Deliver();
    var page := new TeamPage.Page(team, player);
    page.Commit(client.mirror);
    var call := page.HandleBuzz(client.mirror, now);
    client.Buzz(call.value.teamName, call.value.memberName, call.value.timestamp);
    client.Deliver();
    BuzzedTeamFound(teams, team, player, now);
    page.Commit(client.mirror);
    var screen := page.View(client.mirror);
    shown := TeamPage.Label(screen.state);
  }

  /**
   * A press while another team holds the buzzer: Bo's own team is free, so
   * the page issues a buzz and shows "Buzzing..."; the provider writes
   * nothing. After the host's reset is delivered, Beta's `buzzedInMember`
   * is still undefined, so the reset effect does not run and Bo's button
   * stays on "Buzzing...", disabled, and a new press issues nothing.
   */
  method PendingSurvivesReset() returns (shown: string, disabled: bool, secondPress: Option<TeamPage.BuzzCall>)
    ensures shown == "Buzzing..." && disabled && secondPress.None?
  {
    var teams := [TeamPage.ExampleTeam(1, "Alpha", ["Zed"], Some("Zed")),
                  TeamPage.ExampleTeam(2, "Beta", ["Bo"], None)];
    TeamPage.FindTeamAt(teams, "Beta", 1);
    var store := new Store(Some(teams));
    var bo := new TeamsProvider(store);
    var host := new TeamsProvider(store);
    bo.Deliver();
    host.Deliver();
    var page := new TeamPage.Page("Beta", "Bo");
    page.Commit(bo.mirror);
    var call := page.HandleBuzz(bo.mirror, 42);
    assert AnyoneBuzzed(bo.mirror) by {
      assert bo.mirror[0].buzzedInMember.Some?;
    }
    bo.Buzz(call.value.teamName, call.value.memberName, call.value.timestamp);
    host.ResetBuzzers();
    bo.Deliver();
    ghost var reset := bo.mirror;
    assert reset == BuzzersReset(teams);
    TeamPage.FindTeamAt(reset, "Beta", 1);
    page.Commit(bo.mirror);
    var screen := page.View(bo.mirror);
    assert screen.state == TeamPage.Pending;
    shown := TeamPage.Label(screen.state);
    disabled := TeamPage.Disabled(screen.state);
    secondPress := page.HandleBuzz(bo.mirror, 43);
  }
}
