/** The pure lookups the ranking views share: tier colours, placement
    decorations, the points-to-title table and the region tables. Each is
    total: every input, including an absent or unknown one, gets an answer,
    except the table search `FindTitle`, which (like `Array.prototype.find`)
    answers nothing for negative points. */
module Classifiers {
  import opened Util

  datatype ColorPair = ColorPair(background: string, foreground: string)

  /** The pair shown for tier 4 and 5, for unknown codes and for no tier. */
  const Neutral: ColorPair := ColorPair("#303144", "#81749A")

  /** The six codes with a colour pair of their own. */
  const TopTierPalette: map<string, ColorPair> := map[
    "LT3" := ColorPair("#593722", "#C67B42"),
    "HT3" := ColorPair("#6B4B36", "#F79E59"),
    "LT2" := ColorPair("#4A505A", "#A0A7B2"),
    "HT2" := ColorPair("#5E6979", "#C4D3E7"),
    "LT1" := ColorPair("#584C25", "#D5B355"),
    "HT1" := ColorPair("#6D5D2C", "#E8BA3A")
  ]

  const LowTierCodes: seq<string> := ["LT4", "HT4", "LT5", "HT5"]

  /** `getTierColors`: a falsy tier and the tier 4/5 codes are neutral
      before the table is consulted; a code missing from the table is
      neutral too. */
  function TierColors(tier: Option<string>): (r: ColorPair)
    ensures r == Neutral <==> !(tier.Some? && tier.value in TopTierPalette)
    ensures tier.Some? && tier.value in TopTierPalette ==> r == TopTierPalette[tier.value]
  {
    if tier.None? || tier.value == "" then Neutral
    else if tier.value in LowTierCodes then Neutral
    else if tier.value in TopTierPalette then TopTierPalette[tier.value]
    else Neutral
  }

  /** The six top codes get six different pairs. */
  lemma TopTierColorsDistinct(a: string, b: string)
    requires a in TopTierPalette && b in TopTierPalette && a != b
    ensures TierColors(Some(a)) != TierColors(Some(b))
  {
  }

  /** The decoration drawn behind a position number. */
  datatype Placement = FirstPlace | SecondPlace | ThirdPlace | OtherPlace

  /** `getShimmerUrl` */
  function ShimmerFor(position: int): (r: Placement)
    ensures r == FirstPlace <==> position == 1
    ensures r == SecondPlace <==> position == 2
    ensures r == ThirdPlace <==> position == 3
    ensures r == OtherPlace <==> position !in {1, 2, 3}
  {
    if position == 1 then FirstPlace
    else if position == 2 then SecondPlace
    else if position == 3 then ThirdPlace
    else OtherPlace
  }

  /** One row of the title table; `maxPoints == None` is `Infinity`. */
  datatype Title = Title(name: string, minPoints: int, maxPoints: Option<int>)

  predicate Covers(t: Title, points: int) {
    points >= t.minPoints && (t.maxPoints.None? || points <= t.maxPoints.value)
  }

  const Titles: seq<Title> := [
    Title("Rookie", 0, Some(9)),
    Title("Combat Novice", 10, Some(19)),
    Title("Combat Cadet", 20, Some(49)),
    Title("Combat Specialist", 50, Some(99)),
    Title("Combat Ace", 100, Some(249)),
    Title("Combat Master", 250, Some(399)),
    Title("Combat God", 400, None)
  ]

  /** A table of inclusive ranges that starts at 0, where each range is
      non-empty and ends one below where the next begins, and whose last range
      is unbounded. */
  predicate Contiguous(ts: seq<Title>) {
    && |ts| > 0
    && ts[0].minPoints == 0
    && ts[|ts| - 1].maxPoints.None?
    && (forall i :: 0 <= i < |ts| - 1 ==>
          ts[i].maxPoints.Some?
          && ts[i].minPoints <= ts[i].maxPoints.value
          && ts[i + 1].minPoints == ts[i].maxPoints.value + 1)
  }

  lemma TitlesAreContiguous()
    ensures Contiguous(Titles)
  {
  }

  /** In a contiguous table every earlier range ends below every later one. */
  lemma {:induction false} ContiguousAscending(ts: seq<Title>, i: nat, j: nat)
    requires Contiguous(ts) && i < j < |ts|
    ensures ts[i].maxPoints.Some? && ts[i].maxPoints.value < ts[j].minPoints
  {
    if j > i + 1 {
      ContiguousAscending(ts, i, j - 1);
    }
  }

  lemma {:induction false} ContiguousCoversFrom(ts: seq<Title>, points: int, k: nat)
    requires Contiguous(ts) && k < |ts| && ts[k].minPoints <= points
    ensures exists j :: k <= j < |ts| && Covers(ts[j], points)
    decreases |ts| - k
  {
    if !Covers(ts[k], points) {
      ContiguousCoversFrom(ts, points, k + 1);
    }
  }

  /** Every points total >= 0 lies in exactly one range of a contiguous
      table; a negative one lies in none. */
  lemma ContiguousPartitions(ts: seq<Title>, points: int)
    requires Contiguous(ts)
    ensures points >= 0 <==> exists j :: 0 <= j < |ts| && Covers(ts[j], points)
    ensures forall i, j ::
              (0 <= i < |ts| && 0 <= j < |ts| && Covers(ts[i], points) && Covers(ts[j], points)) ==> i == j
  {
    if points >= 0 {
      ContiguousCoversFrom(ts, points, 0);
    } else {
      forall j | 0 <= j < |ts| ensures !Covers(ts[j], points) {
        if j > 0 { ContiguousAscending(ts, 0, j); }
      }
    }
    forall i, j | 0 <= i < |ts| && 0 <= j < |ts| && Covers(ts[i], points) && Covers(ts[j], points)
      ensures i == j
    {
      if i < j { ContiguousAscending(ts, i, j); }
      if j < i { ContiguousAscending(ts, j, i); }
    }
  }

  /** The test `titleInfo.find` applies to each range. */
  function CoversPoints(points: int): Title -> bool {
    (t: Title) => Covers(t, points)
  }

  /** In a contiguous table, `find` by coverage succeeds exactly for points
      >= 0, and then finds the one range that covers them. */
  lemma FindInContiguous(ts: seq<Title>, points: int)
    requires Contiguous(ts)
    ensures Find(ts, CoversPoints(points)).Some? <==> points >= 0
    ensures Find(ts, CoversPoints(points)).Some? ==>
              var t := Find(ts, CoversPoints(points)).value;
              t in ts && Covers(t, points)
              && forall j :: 0 <= j < |ts| && Covers(ts[j], points) ==> ts[j] == t
  {
    ContiguousPartitions(ts, points);
    var r := Find(ts, CoversPoints(points));
    if r.Some? {
      var k :| 0 <= k < |ts| && ts[k] == r.value;
      assert Covers(ts[k], points);
    } else {
      assert forall j :: 0 <= j < |ts| ==> !CoversPoints(points)(ts[j]);
    }
  }

  /** `getTitleInfo` of the overall ranking: `titleInfo.find(...)`. It finds
      the one range holding the points, and nothing for negative points, in
      which case the row shows no title. */
  function FindTitle(points: int): (r: Option<Title>)
    ensures r.Some? <==> points >= 0
    ensures r.Some? ==> r.value in Titles && Covers(r.value, points)
    ensures r.Some? ==> forall j :: 0 <= j < |Titles| && Covers(Titles[j], points) ==> Titles[j] == r.value
  {
    TitlesAreContiguous();
    FindInContiguous(Titles, points);
    Find(Titles, CoversPoints(points))
  }

  /** `getTitleInfo` of the profile overlay: a for-loop over the table that
      returns the first range holding the points, and Rookie, the first
      entry, when the loop finds none. */
  method ProfileTitle(points: int) returns (t: Title)
    ensures t == FindTitle(points).GetOr(Titles[0])
    ensures points >= 0 ==> Covers(t, points)
    ensures points < 0 ==> t.name == "Rookie"
  {
    for i := 0 to |Titles|
      invariant forall j :: 0 <= j < i ==> !Covers(Titles[j], points)
    {
      if Covers(Titles[i], points) {
        var found := FindFirst(Titles, CoversPoints(points));
        assert found == Some(i);
        return Titles[i];
      }
    }
    return Titles[0];
  }

  /** The region spelled out, as in the profile overlay. */
  function RegionName(region: Option<string>): (r: string)
    ensures r == "N/A" <==> region !in {Some("AS"), Some("NA"), Some("EU")}
    ensures region == Some("AS") ==> r == "Asia"
    ensures region == Some("NA") ==> r == "North America"
    ensures region == Some("EU") ==> r == "Europe"
  {
    if region == Some("AS") then "Asia"
    else if region == Some("NA") then "North America"
    else if region == Some("EU") then "Europe"
    else "N/A"
  }

  /** `regionColor` of the leaderboards and `getDarkRegionColor` of the tier
      pages: the same table with the same grey default. */
  function RegionBackground(region: Option<string>): (r: string)
    ensures r == "#6b7280" <==> region !in {Some("AS"), Some("NA"), Some("EU")}
  {
    if region == Some("AS") then "#422C3F"
    else if region == Some("EU") then "#1C3E20"
    else if region == Some("NA") then "#442228"
    else "#6b7280"
  }

  /** The accent of a known region; `regionTextColor` and
      `getBrightRegionColor` share it and differ only in their default. */
  function RegionAccent(region: Option<string>): (r: Option<string>)
    ensures r.Some? <==> region in {Some("AS"), Some("NA"), Some("EU")}
  {
    if region == Some("AS") then Some("#AF7F91")
    else if region == Some("EU") then Some("#89F19C")
    else if region == Some("NA") then Some("#D95C6A")
    else None
  }

  /** `regionTextColor`: white for an unknown region. */
  function RegionTextColor(region: Option<string>): (r: string)
    ensures r == "#ffffff" <==> region !in {Some("AS"), Some("NA"), Some("EU")}
  {
    RegionAccent(region).GetOr("#ffffff")
  }

  /** `getBrightRegionColor`: dark grey for an unknown region. */
  function BrightRegionColor(region: Option<string>): (r: string)
    ensures r == "#444" <==> region !in {Some("AS"), Some("NA"), Some("EU")}
  {
    RegionAccent(region).GetOr("#444")
  }

  /** The region badge text of a leaderboard row: `player.region || "N/A"`. */
  function RegionLabel(region: Option<string>): (r: string)
    ensures r != ""
    ensures region.Some? && region.value != "" ==> r == region.value
    ensures !(region.Some? && region.value != "") ==> r == "N/A"
  {
    if region.Some? && region.value != "" then region.value else "N/A"
  }
}
