/**
 * The buzz-order display of a team card (src/components/TeamCard.tsx).
 *
 * The card gathers the `buzzes` lists of all teams (a missing list counts
 * as empty), sorts them by timestamp, and for each of its own buzzes shows a
 * rank, a FIRST mark and the offset from the earliest buzz. The rank of a
 * timestamp is one more than the position of the first buzz with that
 * timestamp, so equal timestamps share a rank; it equals one more than the
 * number of buzzes strictly earlier, whatever order the sort leaves ties in.
 */
module TeamCard {
  import opened Wrappers
  import opened Decimal

  /** One press of a buzzer. Timestamps are client clocks in milliseconds. */
  datatype BuzzRecord = BuzzRecord(memberName: string, timestamp: int)

  /** What the card reads of a team: its members and its optional `buzzes` list. */
  datatype CardTeam = CardTeam(members: seq<string>, buzzes: Option<seq<BuzzRecord>>)

  /** `t.buzzes || []`. */
  function TeamBuzzes(team: CardTeam): (r: seq<BuzzRecord>)
    ensures team.buzzes.None? ==> r == []
    ensures team.buzzes.Some? ==> r == team.buzzes.value
  {
    match team.buzzes
    case Some(b) => b
    case None => []
  }

  /** `teams.flatMap(t => t.buzzes || [])`. */
  function Flatten(teams: seq<CardTeam>): (r: seq<BuzzRecord>)
    ensures forall i, b :: 0 <= i < |teams| && b in TeamBuzzes(teams[i]) ==> b in r
    ensures forall b :: b in r ==> exists i :: 0 <= i < |teams| && b in TeamBuzzes(teams[i])
  {
    if teams == [] then [] else TeamBuzzes(teams[0]) + Flatten(teams[1..])
  }

  // ---------------------------------------------------------------------
  // Sorting by timestamp
  // ---------------------------------------------------------------------

  predicate SortedByTime(s: seq<BuzzRecord>)
  {
    forall i, j :: 0 <= i < j < |s| ==> s[i].timestamp <= s[j].timestamp
  }

  /** Put `x` before the first record that is not earlier than it. */
  function InsertByTime(x: BuzzRecord, s: seq<BuzzRecord>): (r: seq<BuzzRecord>)
    ensures multiset(r) == multiset(s) + multiset{x}
  {
    if s == [] || x.timestamp <= s[0].timestamp then [x] + s
    else
      assert s == [s[0]] + s[1..];
      [s[0]] + InsertByTime(x, s[1..])
  }

  /** A bound below `x` and every record of `s` stays below every record after the insertion. */
  lemma {:induction false} InsertLowerBound(x: BuzzRecord, s: seq<BuzzRecord>, lo: int)
    requires lo <= x.timestamp
    requires forall k :: 0 <= k < |s| ==> lo <= s[k].timestamp
    ensures forall k :: 0 <= k < |InsertByTime(x, s)| ==> lo <= InsertByTime(x, s)[k].timestamp
  {
    if s != [] && x.timestamp > s[0].timestamp {
      InsertLowerBound(x, s[1..], lo);
    }
  }

  /** A record no later than every record of a sorted list can go in front of it. */
  lemma ConsSorted(h: BuzzRecord, s: seq<BuzzRecord>)
    requires SortedByTime(s)
    requires forall k :: 0 <= k < |s| ==> h.timestamp <= s[k].timestamp
    ensures SortedByTime([h] + s)
  {
  }

  /** Inserting into a sorted list keeps it sorted. */
  lemma {:induction false} InsertKeepsSorted(x: BuzzRecord, s: seq<BuzzRecord>)
    requires SortedByTime(s)
    ensures SortedByTime(InsertByTime(x, s))
  {
    if s != [] && x.timestamp > s[0].timestamp {
      var rest := InsertByTime(x, s[1..]);
      InsertKeepsSorted(x, s[1..]);
      InsertLowerBound(x, s[1..], s[0].timestamp);
      ConsSorted(s[0], rest);
    }
  }

  /**
   * A stable sort by timestamp (the comparator `a.timestamp - b.timestamp`):
   * a permutation of the input, in non-decreasing timestamp order.
   */
  function SortByTime(s: seq<BuzzRecord>): (r: seq<BuzzRecord>)
    ensures multiset(r) == multiset(s)
    ensures |r| == |s|
    ensures SortedByTime(r)
  {
    if s == [] then []
    else
      var rest := SortByTime(s[1..]);
      assert s == [s[0]] + s[1..];
      InsertKeepsSorted(s[0], rest);
      InsertByTime(s[0], rest)
  }

  /** `allBuzzes`: every team's buzzes, in timestamp order. */
  function AllBuzzes(teams: seq<CardTeam>): (r: seq<BuzzRecord>)
    ensures multiset(r) == multiset(Flatten(teams))
    ensures SortedByTime(r)
  {
    SortByTime(Flatten(teams))
  }

  // ---------------------------------------------------------------------
  // First buzz
  // ---------------------------------------------------------------------

  /** Two lists with the same multiset have the same length and the same members. */
  lemma SameMembers(r: seq<BuzzRecord>, s: seq<BuzzRecord>)
    requires multiset(r) == multiset(s)
    ensures |r| == |s|
    ensures forall x :: x in r <==> x in s
  {
    assert |r| == |multiset(r)|;
    forall x ensures x in r <==> x in s {
      assert x in r <==> x in multiset(r);
      assert x in s <==> x in multiset(s);
    }
  }

  /** `allBuzzes[0]`: absent when nobody buzzed, otherwise a buzz with the smallest timestamp. */
  function FirstBuzz(teams: seq<CardTeam>): (r: Option<BuzzRecord>)
    ensures r.None? <==> Flatten(teams) == []
    ensures r.Some? ==> r.value in Flatten(teams)
    ensures r.Some? ==> forall b :: b in Flatten(teams) ==> r.value.timestamp <= b.timestamp
  {
    var all := AllBuzzes(teams);
    SameMembers(all, Flatten(teams));
    if all == [] then None
    else
      assert forall k :: 0 <= k < |all| ==> all[0].timestamp <= all[k].timestamp;
      Some(all[0])
  }

  /** `hasBuzzed`: the team's list is present and non-empty. */
  function HasBuzzed(team: CardTeam): (r: bool)
    ensures r <==> team.buzzes.Some? && team.buzzes.value != []
  {
    |TeamBuzzes(team)| > 0
  }

  /** `isFirstBuzz`: some buzz of this team has the timestamp of the first buzz. */
  function IsFirstBuzz(teams: seq<CardTeam>, team: CardTeam): (r: bool)
    ensures r ==> HasBuzzed(team) && FirstBuzz(teams).Some?
  {
    match FirstBuzz(teams)
    case None => false
    case Some(first) => exists b :: b in TeamBuzzes(team) && b.timestamp == first.timestamp
  }

  /**
   * For a team shown on the board, it is first exactly when one of its buzzes
   * is no later than every buzz of every team.
   */
  lemma IsFirstBuzzMeaning(teams: seq<CardTeam>, i: nat)
    requires i < |teams|
    ensures IsFirstBuzz(teams, teams[i]) <==>
      exists b :: b in TeamBuzzes(teams[i]) && forall c :: c in Flatten(teams) ==> b.timestamp <= c.timestamp
  {
    var flat := Flatten(teams);
    var mine := TeamBuzzes(teams[i]);
    assert forall b :: b in mine ==> b in flat;
    match FirstBuzz(teams) {
      case None =>
      case Some(first) =>
        if exists b :: b in mine && forall c :: c in flat ==> b.timestamp <= c.timestamp {
          var b :| b in mine && forall c :: c in flat ==> b.timestamp <= c.timestamp;
          assert b.timestamp == first.timestamp;
        }
    }
  }

  // ---------------------------------------------------------------------
  // Rank
  // ---------------------------------------------------------------------

  /** Some record carries timestamp `t`. */
  predicate HasTimestamp(s: seq<BuzzRecord>, t: int)
  {
    exists k :: 0 <= k < |s| && s[k].timestamp == t
  }

  /** `findIndex(buzz => buzz.timestamp === t)`: -1 when there is none. */
  function FindIndex(s: seq<BuzzRecord>, t: int): (k: int)
    ensures -1 <= k < |s|
    ensures k >= 0 ==> s[k].timestamp == t && forall j :: 0 <= j < k ==> s[j].timestamp != t
    ensures k == -1 <==> !HasTimestamp(s, t)
  {
    if s == [] then -1
    else if s[0].timestamp == t then 0
    else
      var k := FindIndex(s[1..], t);
      if k < 0 then -1 else k + 1
  }

  /** `getBuzzOrder(t)`: 1 + the position of the first sorted buzz at time `t`; 0 when there is none. */
  function BuzzOrder(teams: seq<CardTeam>, t: int): (k: int)
    ensures 0 <= k <= |Flatten(teams)|
    ensures k == 0 <==> !HasTimestamp(Flatten(teams), t)
  {
    SortKeepsTimestamps(Flatten(teams), t);
    FindIndex(AllBuzzes(teams), t) + 1
  }

  /** The number of records strictly earlier than `t`. */
  function CountEarlier(s: seq<BuzzRecord>, t: int): (n: nat)
    ensures n <= |s|
  {
    if s == [] then 0
    else (if s[0].timestamp < t then 1 else 0) + CountEarlier(s[1..], t)
  }

  lemma {:induction false} CountEarlierInsert(x: BuzzRecord, s: seq<BuzzRecord>, t: int)
    ensures CountEarlier(InsertByTime(x, s), t) == CountEarlier(s, t) + (if x.timestamp < t then 1 else 0)
  {
    if s == [] || x.timestamp <= s[0].timestamp {
      assert ([x] + s)[1..] == s;
    } else {
      CountEarlierInsert(x, s[1..], t);
      assert ([s[0]] + InsertByTime(x, s[1..]))[1..] == InsertByTime(x, s[1..]);
    }
  }

  /** Sorting does not change how many records are earlier than `t`. */
  lemma {:induction false} CountEarlierSort(s: seq<BuzzRecord>, t: int)
    ensures CountEarlier(SortByTime(s), t) == CountEarlier(s, t)
  {
    if s != [] {
      CountEarlierSort(s[1..], t);
      CountEarlierInsert(s[0], SortByTime(s[1..]), t);
    }
  }

  /** In a sorted list, the first record at time `t` sits after exactly the earlier ones. */
  lemma {:induction false} FindIndexSorted(s: seq<BuzzRecord>, t: int)
    requires SortedByTime(s) && HasTimestamp(s, t)
    ensures FindIndex(s, t) == CountEarlier(s, t)
  {
    if s[0].timestamp == t {
      CountEarlierNone(s, t);
    } else {
      var k :| 0 <= k < |s| && s[k].timestamp == t;
      assert s[0].timestamp < t;
      assert s[1..][k - 1].timestamp == t;
      FindIndexSorted(s[1..], t);
    }
  }

  /** No record is earlier than `t` exactly when the count is zero. */
  lemma {:induction false} CountEarlierNone(s: seq<BuzzRecord>, t: int)
    ensures CountEarlier(s, t) == 0 <==> forall k :: 0 <= k < |s| ==> s[k].timestamp >= t
  {
    if s != [] {
      CountEarlierNone(s[1..], t);
      assert forall k :: 1 <= k < |s| ==> s[k] == s[1..][k - 1];
    }
  }

  /** A record at time `t` is not earlier than `t`, so the count stays below the length. */
  lemma {:induction false} CountEarlierBelowLength(s: seq<BuzzRecord>, t: int)
    requires HasTimestamp(s, t)
    ensures CountEarlier(s, t) < |s|
  {
    if s[0].timestamp != t {
      var k :| 0 <= k < |s| && s[k].timestamp == t;
      assert s[1..][k - 1].timestamp == t;
      CountEarlierBelowLength(s[1..], t);
    }
  }

  /** A present timestamp `t1` is counted as earlier than every later `t2`. */
  lemma {:induction false} CountEarlierStrict(s: seq<BuzzRecord>, t1: int, t2: int)
    requires HasTimestamp(s, t1) && t1 < t2
    ensures CountEarlier(s, t1) < CountEarlier(s, t2)
  {
    CountEarlierMonotone(s[1..], t1, t2);
    if s[0].timestamp != t1 {
      var k :| 0 <= k < |s| && s[k].timestamp == t1;
      assert s[1..][k - 1].timestamp == t1;
      CountEarlierStrict(s[1..], t1, t2);
    }
  }

  lemma {:induction false} CountEarlierMonotone(s: seq<BuzzRecord>, t1: int, t2: int)
    requires t1 <= t2
    ensures CountEarlier(s, t1) <= CountEarlier(s, t2)
  {
    if s != [] {
      CountEarlierMonotone(s[1..], t1, t2);
    }
  }

  /** Sorting keeps the set of timestamps present. */
  lemma SortKeepsTimestamps(s: seq<BuzzRecord>, t: int)
    ensures HasTimestamp(SortByTime(s), t) <==> HasTimestamp(s, t)
  {
    var r := SortByTime(s);
    if HasTimestamp(s, t) {
      var k :| 0 <= k < |s| && s[k].timestamp == t;
      assert s[k] in multiset(r);
    }
    if HasTimestamp(r, t) {
      var k :| 0 <= k < |r| && r[k].timestamp == t;
      assert r[k] in multiset(s);
    }
  }

  /**
   * The rank of a timestamp is one more than the number of buzzes, over all
   * teams, strictly earlier than it; a timestamp nobody buzzed at has rank 0.
   */
  lemma BuzzOrderCountsEarlier(teams: seq<CardTeam>, t: int)
    ensures BuzzOrder(teams, t) == if HasTimestamp(Flatten(teams), t) then 1 + CountEarlier(Flatten(teams), t) else 0
  {
    var flat := Flatten(teams);
    SortKeepsTimestamps(flat, t);
    if HasTimestamp(flat, t) {
      FindIndexSorted(AllBuzzes(teams), t);
      CountEarlierSort(flat, t);
    }
  }

  /** A present timestamp ranks between 1 and the number of buzzes. */
  lemma BuzzOrderBounds(teams: seq<CardTeam>, t: int)
    requires HasTimestamp(Flatten(teams), t)
    ensures 1 <= BuzzOrder(teams, t) <= |Flatten(teams)|
  {
  }

  /** Rank 1 goes exactly to the timestamp of the first buzz. */
  lemma BuzzOrderFirst(teams: seq<CardTeam>, t: int)
    requires HasTimestamp(Flatten(teams), t)
    ensures FirstBuzz(teams).Some?
    ensures BuzzOrder(teams, t) == 1 <==> t == FirstBuzz(teams).value.timestamp
  {
    SortKeepsTimestamps(Flatten(teams), t);
    assert AllBuzzes(teams) != [];
  }

  /** A strictly later buzz gets a strictly larger rank; equal timestamps share one. */
  lemma BuzzOrderMonotone(teams: seq<CardTeam>, t1: int, t2: int)
    requires HasTimestamp(Flatten(teams), t1) && HasTimestamp(Flatten(teams), t2)
    requires t1 < t2
    ensures BuzzOrder(teams, t1) < BuzzOrder(teams, t2)
  {
    BuzzOrderCountsEarlier(teams, t1);
    BuzzOrderCountsEarlier(teams, t2);
    CountEarlierStrict(Flatten(teams), t1, t2);
  }

  // ---------------------------------------------------------------------
  // Time offset
  // ---------------------------------------------------------------------

  /** `getTimeDiff(t)`: empty without a first buzz or at zero offset, else `+{diff}ms`. */
  function TimeDiff(teams: seq<CardTeam>, t: int): (d: string)
    ensures FirstBuzz(teams).None? ==> d == ""
    ensures FirstBuzz(teams).Some? ==> (d == "" <==> t == FirstBuzz(teams).value.timestamp)
    ensures d != "" ==> |d| >= 4 && d[0] == '+' && d[|d| - 2..] == "ms"
  {
    match FirstBuzz(teams)
    case None => ""
    case Some(first) =>
      var diff := t - first.timestamp;
      if diff == 0 then "" else "+" + IntToString(diff) + "ms"
  }

  /**
   * For a buzz on the board, the offset is empty exactly for the earliest
   * timestamp; otherwise it is `+`, the positive distance in decimal, `ms`.
   */
  lemma TimeDiffOfPresentBuzz(teams: seq<CardTeam>, t: int)
    requires HasTimestamp(Flatten(teams), t)
    ensures FirstBuzz(teams).Some?
    ensures TimeDiff(teams, t) == "" <==> t == FirstBuzz(teams).value.timestamp
    ensures TimeDiff(teams, t) != "" ==>
      t - FirstBuzz(teams).value.timestamp > 0 &&
      TimeDiff(teams, t) == "+" + NatToString(t - FirstBuzz(teams).value.timestamp) + "ms"
  {
  }

  // ---------------------------------------------------------------------
  // Member badges
  // ---------------------------------------------------------------------

  /** No record before position `k` belongs to `member`. */
  predicate NoRecordBefore(buzzes: seq<BuzzRecord>, k: int, member: string)
    requires k <= |buzzes|
  {
    forall j :: 0 <= j < k ==> buzzes[j].memberName != member
  }

  /** `teamBuzzes.find(b => b.memberName === member)`. */
  function FirstRecordOf(buzzes: seq<BuzzRecord>, member: string): (r: Option<BuzzRecord>)
    ensures r.None? <==> forall k :: 0 <= k < |buzzes| ==> buzzes[k].memberName != member
    ensures r.Some? ==> r.value.memberName == member
    ensures r.Some? ==> exists k :: 0 <= k < |buzzes| && buzzes[k] == r.value && NoRecordBefore(buzzes, k, member)
  {
    if buzzes == [] then None
    else if buzzes[0].memberName == member then Some(buzzes[0])
    else
      var r := FirstRecordOf(buzzes[1..], member);
      assert r.Some? ==> exists k :: 1 <= k < |buzzes| && buzzes[k] == r.value && NoRecordBefore(buzzes, k, member) by {
        if r.Some? {
          var k :| 0 <= k < |buzzes[1..]| && buzzes[1..][k] == r.value && NoRecordBefore(buzzes[1..], k, member);
          assert buzzes[k + 1] == r.value;
          assert forall j :: 1 <= j < k + 1 ==> buzzes[j] == buzzes[1..][j - 1];
        }
      }
      r
  }

  /** The `order` of a member's badge: `null` (`None`) without a buzz, else the rank of their first buzz. */
  function MemberOrder(teams: seq<CardTeam>, team: CardTeam, member: string): (r: Option<int>)
    ensures r.None? <==> forall b :: b in TeamBuzzes(team) ==> b.memberName != member
    ensures r.Some? ==> exists b :: b in TeamBuzzes(team) && b.memberName == member && r.value == BuzzOrder(teams, b.timestamp)
  {
    match FirstRecordOf(TeamBuzzes(team), member)
    case None => None
    case Some(b) => Some(BuzzOrder(teams, b.timestamp))
  }

  /**
   * On a team shown on the board, a member gets a badge exactly when they
   * have a buzz record; the badge is the rank of their first record, at least 1.
   */
  lemma MemberOrderMeaning(teams: seq<CardTeam>, i: nat, member: string)
    requires i < |teams|
    ensures MemberOrder(teams, teams[i], member).None? <==>
      forall b :: b in TeamBuzzes(teams[i]) ==> b.memberName != member
    ensures MemberOrder(teams, teams[i], member).Some? ==>
      var b := FirstRecordOf(TeamBuzzes(teams[i]), member).value;
      b in TeamBuzzes(teams[i]) && b.memberName == member &&
      MemberOrder(teams, teams[i], member).value == BuzzOrder(teams, b.timestamp) &&
      1 <= MemberOrder(teams, teams[i], member).value <= |Flatten(teams)|
  {
    var buzzes := TeamBuzzes(teams[i]);
    var r := FirstRecordOf(buzzes, member);
    if r.Some? {
      var b := r.value;
      assert b in buzzes;
      var flat := Flatten(teams);
      assert b in flat;
      var k :| 0 <= k < |flat| && flat[k] == b;
      assert HasTimestamp(flat, b.timestamp);
      BuzzOrderBounds(teams, b.timestamp);
    } else {
      assert forall b :: b in buzzes ==> b.memberName != member;
    }
  }

  /** The two teams of the scenario below: Ann buzzes at 1000, Bob at 1005. */
  function TwoTeams(): seq<CardTeam>
  {
    [CardTeam(["Ann"], Some([BuzzRecord("Ann", 1000)])),
     CardTeam(["Bob"], Some([BuzzRecord("Bob", 1005)]))]
  }

  /** Their buzzes, flattened and sorted, are Ann's then Bob's. */
  lemma TwoTeamsAllBuzzes()
    ensures AllBuzzes(TwoTeams()) == [BuzzRecord("Ann", 1000), BuzzRecord("Bob", 1005)]
  {
  }

  /** In the scenario below, Ann's buzz is the first. */
  lemma TwoTeamsFirst()
    ensures FirstBuzz(TwoTeams()) == Some(BuzzRecord("Ann", 1000))
  {
  }

  /** Ann ranks 1 and Bob 2. */
  lemma TwoTeamsRanks()
    ensures BuzzOrder(TwoTeams(), 1000) == 1 && BuzzOrder(TwoTeams(), 1005) == 2
  {
    var a, b := BuzzRecord("Ann", 1000), BuzzRecord("Bob", 1005);
    TwoTeamsAllBuzzes();
    assert FindIndex([a, b], 1005) == 1 by {
      assert [a, b][1..] == [b];
    }
  }

  /** With Ann's buzz at 1000 first, 1000 has no offset and 1005 shows `+5ms`. */
  lemma OffsetsFromAnn(teams: seq<CardTeam>)
    requires FirstBuzz(teams) == Some(BuzzRecord("Ann", 1000))
    ensures TimeDiff(teams, 1000) == "" && TimeDiff(teams, 1005) == "+5ms"
  {
  }

  /**
   * The scenario of two teams: A buzzes at 1000 and B at 1005, so A ranks 1
   * with no offset and B ranks 2 at `+5ms`.
   */
  lemma TwoTeamScenario()
    ensures BuzzOrder(TwoTeams(), 1000) == 1 && TimeDiff(TwoTeams(), 1000) == ""
    ensures BuzzOrder(TwoTeams(), 1005) == 2 && TimeDiff(TwoTeams(), 1005) == "+5ms"
  {
    TwoTeamsRanks();
    TwoTeamsFirst();
    OffsetsFromAnn(TwoTeams());
  }
}
