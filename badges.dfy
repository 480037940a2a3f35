/** Per-gamemode tier badges, as the overall ranking, the lifesteal
    leaderboard and the profile overlay derive them from a player's kits:
    the kit lookup over four interchangeable field names, the ranked test,
    the "Peak" tooltip, the points default and the ranked-before-unranked
    ordering. The leaderboard and the profile overlay show a retired
    standing with an "R" prefix; the overall ranking shows the raw tier. */
module Badges {
  import opened Util
  import opened Players
  import opened Classifiers

  /** The gamemodes each view draws a badge for. */
  const OverallModes: seq<string> := ["trident_mace"]
  const LeaderboardModes: seq<string> := ["lifesteal", "trident_mace"]
  const ProfileModes: seq<string> := ["lifesteal", "infuse", "glitch", "strength", "bliss"]

  /** Placeholders shown on an unranked badge: the lifesteal leaderboard's is
      the three characters an em dash becomes when its UTF-8 bytes are read
      as Windows-1252; the other views show a hyphen. */
  const MojibakeDash: string := "\U{00E2}\U{20AC}\U{201D}"
  const Hyphen: string := "-"

  predicate KitIsFor(k: Kit, mode: string) {
    k.kitName == Some(mode) || k.gamemode == Some(mode) || k.name == Some(mode) || k.kind == Some(mode)
  }

  /** The kit a badge reads: the first one naming the mode in any of its four
      name fields. */
  function KitFor(kits: seq<Kit>, mode: string): (r: Option<Kit>)
    ensures r.None? <==> forall i :: 0 <= i < |kits| ==> !KitIsFor(kits[i], mode)
    ensures r.Some? ==> exists i :: 0 <= i < |kits| && kits[i] == r.value && KitIsFor(kits[i], mode)
                                    && forall j :: 0 <= j < i ==> !KitIsFor(kits[j], mode)
  {
    var i := FindFirst(kits, (k: Kit) => KitIsFor(k, mode));
    if i.Some? then Some(kits[i.value]) else None
  }

  datatype Badge = Badge(
    mode: string,
    index: nat,                  // position of the mode in the view's list
    tierRaw: Option<string>,     // the kit's `tier_name`
    ranked: bool,
    tierLabel: Option<string>,       // the tier as shown, "R"-prefixed when retired
    tooltip: string,
    points: int,
    colors: ColorPair)

  function PeakTooltip(tier: Option<string>, peak: Option<string>): string {
    if Present(peak) && peak != tier then "Peak " + peak.value
    else if Present(tier) then tier.value
    else "N/A"
  }

  /** The badge for one mode of the view's list. */
  function MakeBadge(kits: seq<Kit>, mode: string, index: nat): (b: Badge)
    ensures b.mode == mode && b.index == index
    ensures b.tierRaw == (if KitFor(kits, mode).Some? then KitFor(kits, mode).value.tierName else None)
    ensures b.ranked <==> KitFor(kits, mode).Some? && Present(KitFor(kits, mode).value.tierName)
    ensures b.colors == TierColors(b.tierRaw)
    ensures !b.ranked ==> b.colors == Neutral
    ensures b.ranked && KitFor(kits, mode).value.retired.IsTrue() ==> b.tierLabel == Some("R" + KitFor(kits, mode).value.tierName.value)
    ensures !(b.ranked && KitFor(kits, mode).value.retired.IsTrue()) ==> b.tierLabel == b.tierRaw
    ensures b.points == (if KitFor(kits, mode).Some? && KitFor(kits, mode).value.points.Some?
                         then KitFor(kits, mode).value.points.value else 0)
    ensures KitFor(kits, mode).None? ==> b.points == 0 && b.tooltip == "N/A" && b.tierLabel.None?
  {
    var kit := KitFor(kits, mode);
    var tier := if kit.Some? then kit.value.tierName else None;
    var peak := if kit.Some? then kit.value.peakTierName else None;
    var retired := kit.Some? && kit.value.retired.IsTrue();
    Badge(
      mode, index, tier, Present(tier),
      if retired && Present(tier) then Some("R" + tier.value) else tier,
      PeakTooltip(tier, peak),
      if kit.Some? && kit.value.points.Some? then kit.value.points.value else 0,
      TierColors(tier))
  }

  /** One badge per mode of the list, in list order. */
  function BadgeRow(kits: seq<Kit>, modes: seq<string>): (r: seq<Badge>)
    ensures |r| == |modes|
    ensures forall i :: 0 <= i < |r| ==> r[i].mode == modes[i] && r[i].index == i
  {
    seq(|modes|, i requires 0 <= i < |modes| => MakeBadge(kits, modes[i], i))
  }

  /** The badge at position i of a row is the badge of mode i. */
  lemma BadgeRowAt(kits: seq<Kit>, modes: seq<string>, i: nat)
    requires i < |modes|
    ensures BadgeRow(kits, modes)[i] == MakeBadge(kits, modes[i], i)
  {
  }

  /** The text in a badge of the leaderboard and the profile overlay: the
      (possibly "R"-prefixed) tier of a ranked badge, the placeholder of an
      unranked one. */
  function ShownTier(b: Badge, placeholder: string): string {
    if b.ranked && b.tierLabel.Some? then b.tierLabel.value else placeholder
  }

  /** The text in a badge of the overall ranking: the raw tier of a ranked
      badge, the placeholder of an unranked one. */
  function RawShownTier(b: Badge, placeholder: string): string {
    if b.ranked && b.tierRaw.Some? then b.tierRaw.value else placeholder
  }

  /** The tooltip says "Peak X" when the peak is set and differs from the
      current tier; otherwise it gives the current tier, or "N/A". */
  lemma TooltipCases(kits: seq<Kit>, mode: string, index: nat)
    ensures var kit := KitFor(kits, mode);
            var b := MakeBadge(kits, mode, index);
            && (kit.Some? && Present(kit.value.peakTierName) && kit.value.peakTierName != kit.value.tierName
                ==> b.tooltip == "Peak " + kit.value.peakTierName.value)
            && (kit.Some? && Present(kit.value.tierName)
                && !(Present(kit.value.peakTierName) && kit.value.peakTierName != kit.value.tierName)
                ==> b.tooltip == kit.value.tierName.value)
            && (!b.ranked && !(kit.Some? && Present(kit.value.peakTierName)) ==> b.tooltip == "N/A")
  {
  }

  /** A ranked badge shows "R" + tier exactly when the kit is retired
      (`retired === true`), and the bare tier otherwise; an unranked badge
      shows the placeholder. Stripping the "R" of a retired badge gives back
      the tier the tooltip and the colours use. */
  lemma ShownTierCases(kits: seq<Kit>, mode: string, index: nat, placeholder: string)
    ensures var kit := KitFor(kits, mode);
            var b := MakeBadge(kits, mode, index);
            && (!b.ranked ==> ShownTier(b, placeholder) == placeholder)
            && (b.ranked && kit.value.retired.IsTrue() ==>
                  ShownTier(b, placeholder) == "R" + kit.value.tierName.value
                  && ShownTier(b, placeholder)[1..] == b.tierRaw.value)
            && (b.ranked && !kit.value.retired.IsTrue() ==> ShownTier(b, placeholder) == kit.value.tierName.value)
  {
    var b := MakeBadge(kits, mode, index);
    if b.ranked && KitFor(kits, mode).value.retired.IsTrue() {
      assert ("R" + b.tierRaw.value)[1..] == b.tierRaw.value;
    }
  }

  /** Every ranked badge before every unranked one. */
  predicate RankedBeforeUnranked(bs: seq<Badge>) {
    forall i, j :: 0 <= i < j < |bs| && bs[j].ranked ==> bs[i].ranked
  }

  function IsRanked(b: Badge): bool { b.ranked }
  function IsUnranked(b: Badge): bool { !b.ranked }

  /** The ranked badges, then the unranked ones, each group in its original
      order. */
  function RankedFirst(bs: seq<Badge>): seq<Badge> {
    Filter(bs, IsRanked) + Filter(bs, IsUnranked)
  }

  lemma {:induction false} FilterAllKept(bs: seq<Badge>, keep: Badge -> bool)
    requires forall i :: 0 <= i < |bs| ==> keep(bs[i])
    ensures Filter(bs, keep) == bs
  {
    if |bs| > 0 {
      FilterAllKept(bs[1..], keep);
      assert bs == [bs[0]] + bs[1..];
    }
  }

  lemma {:induction false} FilterNoneKept(bs: seq<Badge>, keep: Badge -> bool)
    requires forall i :: 0 <= i < |bs| ==> !keep(bs[i])
    ensures Filter(bs, keep) == []
  {
    if |bs| > 0 {
      FilterNoneKept(bs[1..], keep);
    }
  }

  /** RankedFirst is a permutation of its input that puts ranked badges
      first and keeps the order within each group, i.e. what a stable sort
      on the ranked flag yields. */
  lemma RankedFirstIsStablePartition(bs: seq<Badge>)
    ensures multiset(RankedFirst(bs)) == multiset(bs)
    ensures |RankedFirst(bs)| == |bs|
    ensures RankedBeforeUnranked(RankedFirst(bs))
    ensures Filter(RankedFirst(bs), IsRanked) == Filter(bs, IsRanked)
    ensures Filter(RankedFirst(bs), IsUnranked) == Filter(bs, IsUnranked)
  {
    var rk, un := Filter(bs, IsRanked), Filter(bs, IsUnranked);
    FilterCountsAdd(bs, IsRanked, IsUnranked);
    FilterAppend(rk, un, IsRanked);
    FilterAppend(rk, un, IsUnranked);
    FilterAllKept(rk, IsRanked);
    FilterNoneKept(un, IsRanked);
    FilterNoneKept(rk, IsUnranked);
    FilterAllKept(un, IsUnranked);
  }

  /** A sequence that puts ranked badges first splits into its two groups. */
  lemma {:induction false} OrderedSplits(s: seq<Badge>)
    requires RankedBeforeUnranked(s)
    ensures s == Filter(s, IsRanked) + Filter(s, IsUnranked)
  {
    if |s| > 0 {
      OrderedSplits(s[1..]);
      if !s[0].ranked {
        FilterNoneKept(s, IsRanked);
        FilterAllKept(s, IsUnranked);
      }
    }
  }

  /** Uniqueness: any arrangement that puts ranked badges first and keeps
      each group in input order (a stable sort by the ranked flag) is
      RankedFirst. */
  lemma StableSortIsRankedFirst(bs: seq<Badge>, s: seq<Badge>)
    requires RankedBeforeUnranked(s)
    requires Filter(s, IsRanked) == Filter(bs, IsRanked)
    requires Filter(s, IsUnranked) == Filter(bs, IsUnranked)
    ensures s == RankedFirst(bs)
  {
    OrderedSplits(s);
  }

  /** `sortedGamemodes` of the overall ranking: the badge row reordered by
      a stable sort so that ranked kits come first. */
  function SortedGamemodes(p: Player): (r: seq<Badge>)
    ensures multiset(r) == multiset(BadgeRow(p.kits, OverallModes))
    ensures RankedBeforeUnranked(r)
    ensures Filter(r, IsRanked) == Filter(BadgeRow(p.kits, OverallModes), IsRanked)
    ensures Filter(r, IsUnranked) == Filter(BadgeRow(p.kits, OverallModes), IsUnranked)
  {
    RankedFirstIsStablePartition(BadgeRow(p.kits, OverallModes));
    RankedFirst(BadgeRow(p.kits, OverallModes))
  }

  /** Filtering one more element of a prefix appends it when it is kept. */
  lemma FilterPrefixStep(row: seq<Badge>, i: nat, keep: Badge -> bool)
    requires i < |row|
    ensures Filter(row[..i + 1], keep) == Filter(row[..i], keep) + (if keep(row[i]) then [row[i]] else [])
  {
    assert row[..i + 1] == row[..i] + [row[i]];
    FilterSnoc(row[..i], row[i], keep);
  }

  /** The badge loop of the profile overlay: `forEach` over the modes,
      pushing each badge onto the ranked or the unranked list, then the two
      lists one after the other. */
  method BuildProfileBadges(kits: seq<Kit>, modes: seq<string>) returns (badges: seq<Badge>)
    ensures badges == RankedFirst(BadgeRow(kits, modes))
    ensures |badges| == |modes|
    ensures RankedBeforeUnranked(badges)
    ensures Filter(badges, IsRanked) == Filter(BadgeRow(kits, modes), IsRanked)
  {
    ghost var row := BadgeRow(kits, modes);
    var ranked: seq<Badge> := [];
    var unranked: seq<Badge> := [];
    for i := 0 to |modes|
      invariant ranked == Filter(row[..i], IsRanked)
      invariant unranked == Filter(row[..i], IsUnranked)
    {
      var b := MakeBadge(kits, modes[i], i);
      assert row[i] == b;
      FilterPrefixStep(row, i, IsRanked);
      FilterPrefixStep(row, i, IsUnranked);
      if b.ranked {
        ranked := ranked + [b];
      } else {
        unranked := unranked + [b];
      }
    }
    assert row[..|modes|] == row;
    badges := ranked + unranked;
    RankedFirstIsStablePartition(row);
  }

  /** The profile overlay's view of a player; `None` when there is no player
      (the overlay renders nothing). */
  datatype ProfileCard = ProfileCard(
    title: Title,
    regionName: string,
    placement: Placement,
    position: int,
    totalPoints: int,
    badges: seq<Badge>)

  /** The profile overlay's derivation: title from the total (null and
      undefined read as 0, Rookie when no range matches), the region spelled
      out, and the badges ranked first. */
  method RenderProfile(player: Option<Player>) returns (card: Option<ProfileCard>)
    ensures card.None? <==> player.None?
    ensures card.Some? ==> card.value.totalPoints == player.value.totalPoints.GetOr(0)
    ensures card.Some? ==> card.value.totalPoints >= 0 ==> Covers(card.value.title, card.value.totalPoints)
    ensures card.Some? ==> card.value.title == FindTitle(card.value.totalPoints).GetOr(Titles[0])
    ensures card.Some? ==> card.value.regionName == RegionName(player.value.region)
    ensures card.Some? ==> card.value.placement == ShimmerFor(player.value.position)
    ensures card.Some? ==> card.value.position == player.value.position
    ensures card.Some? ==> card.value.badges == RankedFirst(BadgeRow(player.value.kits, ProfileModes))
  {
    if player.None? {
      return None;
    }
    var p := player.value;
    var total := p.totalPoints.GetOr(0);
    var title := ProfileTitle(total);
    var badges := BuildProfileBadges(p.kits, ProfileModes);
    card := Some(ProfileCard(title, RegionName(p.region), ShimmerFor(p.position), p.position, total, badges));
  }

  /** A row of the overall ranking. The title is absent when no range holds
      the total (a negative total), and the row then shows none. */
  datatype OverallRow = OverallRow(
    placement: Placement,
    title: Option<Title>,
    totalPoints: int,
    regionLabel: string,
    regionColors: ColorPair,
    badges: seq<Badge>,
    shown: seq<string>)

  function OverallRowOf(p: Player): (r: OverallRow)
    ensures r.placement == ShimmerFor(p.position)
    ensures r.totalPoints == p.totalPoints.GetOr(0)
    ensures r.title.Some? <==> r.totalPoints >= 0
    ensures r.title.Some? ==> Covers(r.title.value, r.totalPoints)
    ensures r.title == FindTitle(r.totalPoints)
    ensures r.regionLabel == RegionLabel(p.region)
    ensures r.regionColors == ColorPair(RegionBackground(p.region), RegionTextColor(p.region))
    ensures r.badges == SortedGamemodes(p)
    ensures |r.badges| == |OverallModes|
    ensures RankedBeforeUnranked(r.badges)
    ensures |r.shown| == |r.badges|
    ensures forall i :: 0 <= i < |r.shown| ==> r.shown[i] == RawShownTier(r.badges[i], Hyphen)
  {
    var total := p.totalPoints.GetOr(0);
    RankedFirstIsStablePartition(BadgeRow(p.kits, OverallModes));
    var badges := SortedGamemodes(p);
    OverallRow(
      ShimmerFor(p.position), FindTitle(total), total, RegionLabel(p.region),
      ColorPair(RegionBackground(p.region), RegionTextColor(p.region)),
      badges, seq(|badges|, i requires 0 <= i < |badges| => RawShownTier(badges[i], Hyphen)))
  }

  /** A row of the lifesteal leaderboard: its badges stay in list order. */
  datatype LeaderboardRow = LeaderboardRow(
    placement: Placement,
    regionLabel: string,
    regionColors: ColorPair,
    badges: seq<Badge>,
    shown: seq<string>)

  function LeaderboardRowOf(p: Player): (r: LeaderboardRow)
    ensures r.placement == ShimmerFor(p.position)
    ensures r.regionLabel == RegionLabel(p.region)
    ensures r.regionColors == ColorPair(RegionBackground(p.region), RegionTextColor(p.region))
    ensures r.badges == BadgeRow(p.kits, LeaderboardModes)
    ensures |r.shown| == |r.badges|
    ensures forall i :: 0 <= i < |r.shown| ==> r.shown[i] == ShownTier(r.badges[i], MojibakeDash)
  {
    var badges := BadgeRow(p.kits, LeaderboardModes);
    LeaderboardRow(
      ShimmerFor(p.position), RegionLabel(p.region),
      ColorPair(RegionBackground(p.region), RegionTextColor(p.region)),
      badges, seq(|badges|, i requires 0 <= i < |badges| => ShownTier(badges[i], MojibakeDash)))
  }

  /** The trident-mace badge of a player whose kit for it is ranked and
      retired reads "R" + tier on the leaderboard (second badge) but the bare
      tier on the overall ranking (its only badge); an unranked one reads the
      mojibake dash there and a hyphen here. */
  lemma TridentMaceShownOnBothViews(p: Player)
    ensures var kit := KitFor(p.kits, "trident_mace");
            var lb := LeaderboardRowOf(p).shown[1];
            var ov := OverallRowOf(p).shown[0];
            && (kit.Some? && Present(kit.value.tierName) && kit.value.retired.IsTrue() ==>
                  lb == "R" + ov && ov == kit.value.tierName.value)
            && (kit.Some? && Present(kit.value.tierName) && !kit.value.retired.IsTrue() ==>
                  lb == ov && ov == kit.value.tierName.value)
            && (!(kit.Some? && Present(kit.value.tierName)) ==> lb == MojibakeDash && ov == Hyphen)
  {
    var row := BadgeRow(p.kits, OverallModes);
    var b := row[0];
    assert b == MakeBadge(p.kits, "trident_mace", 0);
    assert LeaderboardRowOf(p).badges[1] == MakeBadge(p.kits, "trident_mace", 1);
    assert row == [b];
    if b.ranked {
      assert Filter(row, IsRanked) == [b] + Filter(row[1..], IsRanked);
      assert Filter(row, IsUnranked) == Filter(row[1..], IsUnranked);
    } else {
      assert Filter(row, IsRanked) == Filter(row[1..], IsRanked);
      assert Filter(row, IsUnranked) == [b] + Filter(row[1..], IsUnranked);
    }
    assert row[1..] == [];
    assert SortedGamemodes(p) == [b];
  }
}
