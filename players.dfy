/** The records the ranking API returns, with JavaScript's loose values made
    explicit: a field that may be missing or null is an `Option`, and a flag
    that may hold a non-boolean keeps enough of its value to decide both
    `=== true` and truthiness, the two tests the components apply to it. */
module Players {
  import opened Util

  /** A JSON value in a flag position (`retired`). */
  datatype JsFlag = Missing | Boolean(b: bool) | NonBoolean(truthy: bool) {
    /** `flag === true` */
    predicate IsTrue() { this == Boolean(true) }
    /** `!!flag` */
    predicate Truthy() {
      match this
      case Missing => false
      case Boolean(b) => b
      case NonBoolean(t) => t
    }
  }

  /** A per-gamemode standing. The gamemode is named by whichever of
      `kit_name`, `gamemode`, `name` or `type` the API filled in. */
  datatype Kit = Kit(
    kitName: Option<string>,
    gamemode: Option<string>,
    name: Option<string>,
    kind: Option<string>,          // the `type` field
    tierName: Option<string>,
    peakTierName: Option<string>,
    points: Option<int>,           // None is null or undefined
    retired: JsFlag)

  datatype Player = Player(
    uuid: string,
    username: string,
    region: Option<string>,
    position: int,
    totalPoints: Option<int>,      // None is null or undefined
    kits: seq<Kit>)

  /** A string field in a truth test: undefined, null and "" are falsy. */
  predicate Present(s: Option<string>) {
    s.Some? && s.value != ""
  }

  /** What one network request yields: the decoded body of a successful
      response, or a failure (network error, non-ok status, bad JSON). */
  datatype FetchOutcome = Ok(data: seq<Player>) | Fail

  const LoadErrorMessage: string := "Could not load leaderboard data."
}
