/**
 * The shared record of one team, as stored under the `teams` path of the
 * realtime database and mirrored by every client (src/types.ts).
 */
module Types {
  import opened Wrappers

  /** Display classes of a team; never changed after creation. */
  datatype Theme = Theme(primary: string, secondary: string, text: string, border: string, hover: string)

  /**
   * A team. `buzzedInMember` and `buzzerTimestamp` are optional fields:
   * `None` is a field that is `undefined`.
   */
  datatype Team = Team(
    id: int,
    name: string,
    color: string,
    members: seq<string>,
    score: int,
    image: string,
    theme: Theme,
    buzzerTimestamp: Option<int>,
    buzzedInMember: Option<string>)

  /**
   * JavaScript truthiness of an optional string: `undefined` and the empty
   * string are falsy, every other string is truthy.
   */
  function Truthy(s: Option<string>): (r: bool)
    ensures s.None? ==> !r
    ensures s == Some("") ==> !r
    ensures s.Some? && |s.value| > 0 ==> r
  {
    s.Some? && s.value != ""
  }
}
