/**
 * The player page (src/pages/TeamPage.tsx): a player reached through the
 * link `/team/{teamName}/{playerName}` sees a loading screen until the
 * mirror lists them on that team, then a buzzer.
 *
 * Two local flags drive it: `isLoading`, cleared once the membership is
 * seen, and `isBuzzed`, the optimistic "Buzzing..." state set by a press
 * and cleared by an effect when the team's `buzzedInMember` turns falsy.
 * The buzzer state shown is a pure function of the team's
 * `buzzedInMember`, `isBuzzed` and the player.
 */
module TeamPage {
  import opened Wrappers
  import opened Types
  import TeamsContext

  /** No team before position `k` has the name `name`. */
  predicate NoTeamNamedBefore(teams: seq<Team>, k: int, name: string)
    requires k <= |teams|
  {
    forall j :: 0 <= j < k ==> teams[j].name != name
  }

  /** `teams.find(t => t.name === name)`. */
  function FindTeam(teams: seq<Team>, name: string): (r: Option<Team>)
    ensures r.None? <==> forall i :: 0 <= i < |teams| ==> teams[i].name != name
    ensures r.Some? ==> r.value.name == name
    ensures r.Some? ==> exists k :: 0 <= k < |teams| && teams[k] == r.value && NoTeamNamedBefore(teams, k, name)
  {
    if teams == [] then None
    else if teams[0].name == name then Some(teams[0])
    else
      var r := FindTeam(teams[1..], name);
      assert r.Some? ==> exists k :: 1 <= k < |teams| && teams[k] == r.value && NoTeamNamedBefore(teams, k, name) by {
        if r.Some? {
          var k :| 0 <= k < |teams[1..]| && teams[1..][k] == r.value && NoTeamNamedBefore(teams[1..], k, name);
          assert teams[k + 1] == r.value;
          assert forall j :: 1 <= j < k + 1 ==> teams[j] == teams[1..][j - 1];
        }
      }
      r
  }

  /** The team at position `k` is the one found when no earlier team has its name. */
  lemma FindTeamAt(teams: seq<Team>, name: string, k: nat)
    requires k < |teams| && teams[k].name == name && NoTeamNamedBefore(teams, k, name)
    ensures FindTeam(teams, name) == Some(teams[k])
  {
  }

  /** The mirror lists `player` on the first team named `teamName`. */
  predicate IsMember(teams: seq<Team>, teamName: string, player: string)
  {
    FindTeam(teams, teamName).Some? && player in FindTeam(teams, teamName).value.members
  }

  // ---------------------------------------------------------------------
  // Loading
  // ---------------------------------------------------------------------

  datatype LoadingMessage =
    | ConnectingToServer        // "Connecting to server..."
    | LoadingTeamsData          // "Loading teams data..."
    | VerifyingTeam             // "Verifying team..."
    | VerifyingTeamMembership   // "Verifying team membership..."
    | Connected                 // "Connected!"

  /** The message the membership effect sets for a given mirror. */
  function MembershipMessage(teams: seq<Team>, teamName: string, player: string): (m: LoadingMessage)
    ensures m == Connected <==> IsMember(teams, teamName, player)
    ensures m == LoadingTeamsData <==> teams == []
    ensures m == VerifyingTeam <==> teams != [] && FindTeam(teams, teamName).None?
    ensures m == VerifyingTeamMembership <==>
      teams != [] && FindTeam(teams, teamName).Some? && !IsMember(teams, teamName, player)
    ensures m != ConnectingToServer
  {
    if |teams| > 0 then
      match FindTeam(teams, teamName)
      case None => VerifyingTeam
      case Some(team) => if player in team.members then Connected else VerifyingTeamMembership
    else LoadingTeamsData
  }

  // ---------------------------------------------------------------------
  // The buzzer
  // ---------------------------------------------------------------------

  datatype BuzzerState =
    | Claimed(member: string, isSelf: bool)   // someone on the team holds the buzzer
    | Pending                                 // pressed here, not yet confirmed
    | Ready

  /** `getBuzzerState`: the team's holder first, then the local press, else ready. */
  function BuzzerStateOf(buzzedInMember: Option<string>, isBuzzed: bool, player: string): (s: BuzzerState)
    ensures s.Ready? <==> !Truthy(buzzedInMember) && !isBuzzed
    ensures s.Pending? <==> !Truthy(buzzedInMember) && isBuzzed
    ensures s.Claimed? ==> s.member == buzzedInMember.value && (s.isSelf <==> s.member == player)
  {
    if Truthy(buzzedInMember) then Claimed(buzzedInMember.value, buzzedInMember.value == player)
    else if isBuzzed then Pending
    else Ready
  }

  /** `disabled` of the button. */
  function Disabled(s: BuzzerState): (d: bool)
    ensures d <==> s.Claimed? || s.Pending?
  {
    !s.Ready?
  }

  /** The caption under the bell. */
  function Label(s: BuzzerState): (c: string)
    ensures c == "BUZZ!" <==> s.Ready?
    ensures c == "Buzzing..." <==> s.Pending?
    ensures s.Claimed? && s.isSelf ==> c == "You Buzzed!"
    ensures s.Claimed? && !s.isSelf ==>
      |c| == |s.member| + 8 && c[..|s.member|] == s.member && c[|s.member|..] == " Buzzed!"
  {
    match s
    case Claimed(member, isSelf) =>
      if isSelf then "You Buzzed!"
      else
        var c := member + " Buzzed!";
        assert c[|c| - 1] == '!' != "Buzzing..."[9];
        c
    case Pending => "Buzzing..."
    case Ready => "BUZZ!"
  }

  /**
   * The button is disabled exactly when the team has a holder or a press is
   * pending; a holder wins over the pending state and is named in the
   * caption, as "You" when it is this player.
   */
  lemma BuzzerStateLabels(buzzedInMember: Option<string>, isBuzzed: bool, player: string)
    ensures Disabled(BuzzerStateOf(buzzedInMember, isBuzzed, player)) <==> Truthy(buzzedInMember) || isBuzzed
    ensures Truthy(buzzedInMember) && buzzedInMember.value == player ==>
      Label(BuzzerStateOf(buzzedInMember, isBuzzed, player)) == "You Buzzed!"
    ensures Truthy(buzzedInMember) && buzzedInMember.value != player ==>
      Label(BuzzerStateOf(buzzedInMember, isBuzzed, player)) == buzzedInMember.value + " Buzzed!"
    ensures !Truthy(buzzedInMember) ==>
      Label(BuzzerStateOf(buzzedInMember, isBuzzed, player)) == if isBuzzed then "Buzzing..." else "BUZZ!"
  {
  }

  /** What the page renders. */
  datatype Screen =
    | Loading(message: LoadingMessage)
    | RedirectToJoin
    | Buzzer(team: Team, state: BuzzerState)

  /** The call `buzz(team.name, decodedPlayerName, timestamp)`. */
  datatype BuzzCall = BuzzCall(teamName: string, memberName: string, timestamp: int)

  /** The team's `buzzedInMember` as the reset effect depends on it (`team?.buzzedInMember`). */
  function BuzzedInDep(teams: seq<Team>, teamName: string): Option<string>
  {
    match FindTeam(teams, teamName)
    case None => None
    case Some(team) => team.buzzedInMember
  }

  /**
   * The reset effect: it runs on the first commit and whenever its
   * dependency differs from the previous commit's, and then clears
   * `isBuzzed` if the team exists and its `buzzedInMember` is falsy.
   */
  function ResetEffect(previous: Option<Option<string>>, teams: seq<Team>, teamName: string, isBuzzed: bool): (b: bool)
    ensures b ==> isBuzzed
    ensures var dep := BuzzedInDep(teams, teamName);
      isBuzzed && !b <==> isBuzzed && previous != Some(dep) && FindTeam(teams, teamName).Some? && !Truthy(dep)
  {
    if previous != Some(BuzzedInDep(teams, teamName)) &&
       FindTeam(teams, teamName).Some? && !Truthy(FindTeam(teams, teamName).value.buzzedInMember)
    then false
    else isBuzzed
  }

  /** One player's page for one link. */
  class Page {
    const teamName: string
    /** The player name, already URL-decoded. */
    const playerName: string
    var isBuzzed: bool
    var isLoading: bool
    var loadingMessage: LoadingMessage
    /** The reset effect's dependency at the last commit; `None` before the first. */
    var lastBuzzedIn: Option<Option<string>>

    constructor (teamName: string, playerName: string)
      ensures this.teamName == teamName && this.playerName == playerName
      ensures !isBuzzed && isLoading && loadingMessage == ConnectingToServer && lastBuzzedIn.None?
    {
      this.teamName := teamName;
      this.playerName := playerName;
      isBuzzed := false;
      isLoading := true;
      loadingMessage := ConnectingToServer;
      lastBuzzedIn := None;
    }

    /**
     * What the page shows for the mirror `teams`: the loading screen while
     * loading, then a redirect to `/join` exactly when the team is gone or
     * no longer lists the player, else the buzzer of the team.
     */
    function View(teams: seq<Team>): (s: Screen)
      reads this
      ensures isLoading <==> s.Loading?
      ensures !isLoading ==> (s.RedirectToJoin? <==> !IsMember(teams, teamName, playerName))
      ensures s.Buzzer? ==> Some(s.team) == FindTeam(teams, teamName)
      ensures s.Loading? ==> s.message == loadingMessage
      ensures s.Buzzer? ==> s.state == BuzzerStateOf(s.team.buzzedInMember, isBuzzed, playerName)
      ensures s.Buzzer? ==> (Disabled(s.state) <==> Truthy(s.team.buzzedInMember) || isBuzzed)
    {
      if isLoading then Loading(loadingMessage)
      else
        match FindTeam(teams, teamName)
        case None => RedirectToJoin
        case Some(team) =>
          if playerName !in team.members then RedirectToJoin
          else Buzzer(team, BuzzerStateOf(team.buzzedInMember, isBuzzed, playerName))
    }

    /**
     * One commit of the page for a new mirror: the membership effect, then
     * the reset effect. Loading ends once the player is seen on the team and
     * never starts again.
     */
    method Commit(teams: seq<Team>)
      modifies this
      ensures loadingMessage == MembershipMessage(teams, teamName, playerName)
      ensures isLoading == (old(isLoading) && !IsMember(teams, teamName, playerName))
      ensures isBuzzed == ResetEffect(old(lastBuzzedIn), teams, teamName, old(isBuzzed))
      ensures lastBuzzedIn == Some(BuzzedInDep(teams, teamName))
    {
      loadingMessage := MembershipMessage(teams, teamName, playerName);
      if loadingMessage == Connected {
        isLoading := false;
      }
      isBuzzed := ResetEffect(lastBuzzedIn, teams, teamName, isBuzzed);
      lastBuzzedIn := Some(BuzzedInDep(teams, teamName));
    }

    /**
     * `handleBuzz`: available only while the buzzer is shown. It issues a
     * buzz for this player only when nothing is pending here and the team's
     * holder is falsy, and then marks the press as pending.
     */
    method HandleBuzz(teams: seq<Team>, now: int) returns (call: Option<BuzzCall>)
      requires View(teams).Buzzer?
      modifies this`isBuzzed
      ensures var team := FindTeam(teams, teamName).value;
        call.Some? <==> !old(isBuzzed) && !Truthy(team.buzzedInMember)
      ensures call.Some? ==> call.value == BuzzCall(teamName, playerName, now)
      ensures isBuzzed == (old(isBuzzed) || call.Some?)
    {
      var team := FindTeam(teams, teamName).value;
      if !isBuzzed && !Truthy(team.buzzedInMember) {
        call := Some(BuzzCall(team.name, playerName, now));
        isBuzzed := true;
      } else {
        call := None;
      }
    }
  }

  /** After `addTeamMember` on an existing team, the page finds the player on it. */
  lemma AddedMemberIsMember(teams: seq<Team>, teamName: string, player: string)
    requires exists i :: 0 <= i < |teams| && teams[i].name == teamName
    ensures IsMember(TeamsContext.AddedMember(teams, teamName, player), teamName, player)
  {
  }

  /** Two teams of a small example: Alpha and Beta. */
  function ExampleTeam(id: int, name: string, members: seq<string>, holder: Option<string>): Team
  {
    Team(id, name, "red", members, 0, "", Theme("", "", "", "", ""), None, holder)
  }

  /**
   * The press guard looks only at the player's own team: while Zed of
   * Alpha holds the buzzer, Bo of Beta sees a ready button, and the buzz
   * that press issues is refused by the provider (no write).
   */
  lemma OwnTeamGuardOnly()
    ensures var teams := [ExampleTeam(1, "Alpha", ["Zed"], Some("Zed")), ExampleTeam(2, "Beta", ["Bo"], None)];
      BuzzerStateOf(FindTeam(teams, "Beta").value.buzzedInMember, false, "Bo") == Ready &&
      TeamsContext.Buzzed(teams, "Beta", "Bo", 7).None?
  {
  }

  /**
   * A holder with an empty name blocks the provider (the field is defined)
   * but is falsy for the page, which shows a ready button.
   */
  lemma EmptyHolderName()
    ensures var teams := [ExampleTeam(1, "Alpha", ["Bo"], Some(""))];
      BuzzerStateOf(FindTeam(teams, "Alpha").value.buzzedInMember, false, "Bo") == Ready &&
      TeamsContext.Buzzed(teams, "Alpha", "Bo", 7).None?
  {
  }
}
