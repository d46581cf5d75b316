/**
 * The join form (src/pages/TeamSelection.tsx): a player types a name,
 * picks a team and submits. A valid submission first asks the provider to
 * add the trimmed name to the team, then navigates to the player page.
 */
module TeamSelection {

  /**
   * The code points `String.prototype.trim` strips: the ECMAScript
   * WhiteSpace and LineTerminator characters.
   */
  const WhitespaceChars: set<char> := {
    '\t', '\n', '\U{000B}', '\U{000C}', '\r', ' ', '\U{00A0}', '\U{1680}',
    '\U{2000}', '\U{2001}', '\U{2002}', '\U{2003}', '\U{2004}', '\U{2005}', '\U{2006}',
    '\U{2007}', '\U{2008}', '\U{2009}', '\U{200A}',
    '\U{2028}', '\U{2029}', '\U{202F}', '\U{205F}', '\U{3000}', '\U{FEFF}'}

  predicate IsWhitespace(c: char)
  {
    c in WhitespaceChars
  }

  /** The index of the first non-whitespace character at or after `i` (`|s|` if none). */
  function SkipForward(s: string, i: nat): (j: nat)
    requires i <= |s|
    ensures i <= j <= |s|
    ensures forall k :: i <= k < j ==> IsWhitespace(s[k])
    ensures j < |s| ==> !IsWhitespace(s[j])
    decreases |s| - i
  {
    if i < |s| && IsWhitespace(s[i]) then SkipForward(s, i + 1) else i
  }

  /** The end of `s[lo..j]` once its trailing whitespace is dropped. */
  function SkipBackward(s: string, lo: nat, j: nat): (e: nat)
    requires lo <= j <= |s|
    ensures lo <= e <= j
    ensures forall k :: e <= k < j ==> IsWhitespace(s[k])
    ensures e > lo ==> !IsWhitespace(s[e - 1])
  {
    if j > lo && IsWhitespace(s[j - 1]) then SkipBackward(s, lo, j - 1) else j
  }

  /** `r` is `s` from position `i` on, with only whitespace around it in `s`. */
  predicate TrimmedAt(s: string, r: string, i: int)
  {
    0 <= i && i + |r| <= |s| && s[i..i + |r|] == r &&
    (forall k :: 0 <= k < i ==> IsWhitespace(s[k])) &&
    (forall k :: i + |r| <= k < |s| ==> IsWhitespace(s[k]))
  }

  /**
   * `s.trim()`: the part of `s` between its leading and trailing
   * whitespace; empty exactly when `s` is all whitespace.
   */
  function Trim(s: string): (r: string)
    ensures r == [] <==> forall k :: 0 <= k < |s| ==> IsWhitespace(s[k])
    ensures r != [] ==> !IsWhitespace(r[0]) && !IsWhitespace(r[|r| - 1])
    ensures exists i :: TrimmedAt(s, r, i)
  {
    var i := SkipForward(s, 0);
    var e := SkipBackward(s, i, |s|);
    assert TrimmedAt(s, s[i..e], i);
    s[i..e]
  }

  /** Trimming twice is trimming once. */
  lemma TrimIdempotent(s: string)
    ensures Trim(Trim(s)) == Trim(s)
  {
  }

  /** What a submission does, in order. */
  datatype Effect =
    | AddMember(teamName: string, playerName: string)
    | Navigate(path: string, replace: bool)

  /**
   * The player page's path for a team and a name; `encode` stands for
   * `encodeURIComponent`.
   */
  function TeamPath(encode: string -> string, team: string, player: string): (p: string)
    ensures |p| == 7 + |encode(team)| + |encode(player)|
    ensures p[..6] == "/team/"
    ensures p[6..6 + |encode(team)|] == encode(team)
    ensures p[6 + |encode(team)|] == '/'
    ensures p[7 + |encode(team)|..] == encode(player)
  {
    "/team/" + encode(team) + "/" + encode(player)
  }

  /** The form's two fields. */
  class JoinForm {
    var selectedTeam: string
    var playerName: string

    constructor ()
      ensures selectedTeam == "" && playerName == ""
    {
      selectedTeam := "";
      playerName := "";
    }

    /** The team `<select>`'s change handler. */
    method SelectTeam(value: string)
      modifies this`selectedTeam
      ensures selectedTeam == value
    {
      selectedTeam := value;
    }

    /** The name `<input>`'s change handler. */
    method EditName(value: string)
      modifies this`playerName
      ensures playerName == value
    {
      playerName := value;
    }

    /**
     * `handleSubmit`: nothing unless a team is selected and the name is not
     * blank; then add the trimmed name to the team, and after that replace
     * the location with the player page of that team and name.
     */
    method Submit(encode: string -> string) returns (effects: seq<Effect>)
      ensures effects == [] <==> selectedTeam == "" || Trim(playerName) == ""
      ensures effects != [] ==> |effects| == 2
      ensures effects != [] ==> effects[0] == AddMember(selectedTeam, Trim(playerName))
      ensures effects != [] ==> effects[1] == Navigate(TeamPath(encode, selectedTeam, Trim(playerName)), true)
      ensures effects != [] ==> var name := effects[0].playerName;
        name != "" && !IsWhitespace(name[0]) && !IsWhitespace(name[|name| - 1])
    {
      var name := Trim(playerName);
      if selectedTeam != "" && name != "" {
        effects := [AddMember(selectedTeam, name)];
        effects := effects + [Navigate(TeamPath(encode, selectedTeam, name), true)];
      } else {
        effects := [];
      }
    }
  }
}
