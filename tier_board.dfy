/** The per-gamemode tier board (`getPlayersForTierEnding`): the player list
    split into HT1..HT5 and LT1..LT5 buckets by the kit whose `kit_name` is
    the page's gamemode. Two forms exist in the source: the ranking page and
    the infuse, glitch and trident-mace pages keep, for each player, the
    matching kits that are not retired and drop players with none; the
    lifesteal page keeps players with SOME matching kit and has no retired
    filter. */
module TierBoard {
  import opened Util
  import opened Players

  datatype Half = High | Low

  const Digits: seq<string> := ["1", "2", "3", "4", "5"]

  /** `HT${ending}` / `LT${ending}` for the five tier numbers the boards use. */
  function TierCode(h: Half, n: int): (code: string)
    requires 1 <= n <= 5
    ensures |code| == 3
  {
    (if h == High then "HT" else "LT") + Digits[n - 1]
  }

  lemma TierCodeInjective(h1: Half, n1: int, h2: Half, n2: int)
    requires 1 <= n1 <= 5 && 1 <= n2 <= 5
    requires TierCode(h1, n1) == TierCode(h2, n2)
    ensures h1 == h2 && n1 == n2
  {
    var c1, c2 := TierCode(h1, n1), TierCode(h2, n2);
    assert c1[0] == c2[0] && c1[2] == c2[2];
    assert c1[2] == Digits[n1 - 1][0] && c2[2] == Digits[n2 - 1][0];
  }

  predicate HoldsTier(k: Kit, mode: string, code: string) {
    k.kitName == Some(mode) && k.tierName == Some(code)
  }

  /** The kit filter of the ranking, infuse, glitch and trident-mace pages:
      `!k.retired` drops every truthy flag, not only `true`. */
  predicate ActiveTier(k: Kit, mode: string, code: string) {
    HoldsTier(k, mode, code) && !k.retired.Truthy()
  }

  function ActiveKits(p: Player, mode: string, code: string): seq<Kit> {
    Filter(p.kits, (k: Kit) => ActiveTier(k, mode, code))
  }

  predicate HasActiveTier(p: Player, mode: string, code: string) {
    exists i :: 0 <= i < |p.kits| && ActiveTier(p.kits[i], mode, code)
  }

  predicate HasAnyTier(p: Player, mode: string, code: string) {
    exists i :: 0 <= i < |p.kits| && HoldsTier(p.kits[i], mode, code)
  }

  lemma ActiveKitsNonEmpty(p: Player, mode: string, code: string)
    ensures |ActiveKits(p, mode, code)| > 0 <==> HasActiveTier(p, mode, code)
  {
    var ks := ActiveKits(p, mode, code);
    if |ks| > 0 {
      assert ks[0] in p.kits && ActiveTier(ks[0], mode, code);
    }
    if HasActiveTier(p, mode, code) {
      var i :| 0 <= i < |p.kits| && ActiveTier(p.kits[i], mode, code);
      assert p.kits[i] in ks;
    }
  }

  /** The `filter(p => p.kits.length > 0)` test applied after the kits were
      narrowed to the active ones. */
  function ActiveKeep(mode: string, code: string): Player -> bool {
    (p: Player) => |ActiveKits(p, mode, code)| > 0
  }

  /** The `map`-then-`filter(kits.length > 0)` bucket, seen through the
      `player` field the rows read. */
  function ActiveBucket(players: seq<Player>, mode: string, code: string): (r: seq<Player>)
    ensures forall i :: 0 <= i < |r| ==> r[i] in players && HasActiveTier(r[i], mode, code)
    ensures forall i :: 0 <= i < |players| && HasActiveTier(players[i], mode, code) ==> players[i] in r
    ensures Subseq(r, players)
  {
    forall p: Player ensures ActiveKeep(mode, code)(p) <==> HasActiveTier(p, mode, code) {
      ActiveKitsNonEmpty(p, mode, code);
    }
    FilterIsSubseq(players, ActiveKeep(mode, code));
    Filter(players, ActiveKeep(mode, code))
  }

  /** The lifesteal page's `filter(p => p.kits.some(...))` bucket. */
  function AnyBucket(players: seq<Player>, mode: string, code: string): (r: seq<Player>)
    ensures forall i :: 0 <= i < |r| ==> r[i] in players && HasAnyTier(r[i], mode, code)
    ensures forall i :: 0 <= i < |players| && HasAnyTier(players[i], mode, code) ==> players[i] in r
    ensures Subseq(r, players)
  {
    var keep := (p: Player) => HasAnyTier(p, mode, code);
    FilterIsSubseq(players, keep);
    Filter(players, keep)
  }

  /** The bucket a page builds: with the retired filter or without it. */
  function Bucket(players: seq<Player>, mode: string, code: string, skipRetired: bool): seq<Player> {
    if skipRetired then ActiveBucket(players, mode, code) else AnyBucket(players, mode, code)
  }

  /** Buckets keep input order: two players kept from positions i < j
      appear in that order. */
  lemma BucketKeepsOrder(players: seq<Player>, mode: string, code: string, i: nat, j: nat)
    requires i < j < |players|
    requires HasActiveTier(players[i], mode, code) && HasActiveTier(players[j], mode, code)
    ensures exists a, b :: 0 <= a < b < |ActiveBucket(players, mode, code)|
              && ActiveBucket(players, mode, code)[a] == players[i]
              && ActiveBucket(players, mode, code)[b] == players[j]
  {
    ActiveKitsNonEmpty(players[i], mode, code);
    ActiveKitsNonEmpty(players[j], mode, code);
    assert ActiveKeep(mode, code)(players[i]) && ActiveKeep(mode, code)(players[j]);
    FilterKeepsOrder(players, ActiveKeep(mode, code), i, j);
    assert ActiveBucket(players, mode, code) == Filter(players, ActiveKeep(mode, code));
  }

  /** A player whose matching kits for the code are all retired is in no
      active bucket for that code. */
  lemma RetiredOnlyIsExcluded(players: seq<Player>, mode: string, code: string, p: Player)
    requires forall i :: 0 <= i < |p.kits| && HoldsTier(p.kits[i], mode, code) ==> p.kits[i].retired.Truthy()
    ensures p !in ActiveBucket(players, mode, code)
  {
  }

  /** A player with exactly one non-retired kit for the mode lands in the
      bucket of that kit's tier and in no other of the ten. */
  lemma SingleActiveKitOneBucket(players: seq<Player>, p: Player, mode: string, h: Half, n: int)
    requires 1 <= n <= 5 && p in players
    requires exists i :: 0 <= i < |p.kits| && ActiveTier(p.kits[i], mode, TierCode(h, n))
    requires forall i :: 0 <= i < |p.kits| && p.kits[i].kitName == Some(mode) && !p.kits[i].retired.Truthy()
               ==> p.kits[i].tierName == Some(TierCode(h, n))
    ensures p in ActiveBucket(players, mode, TierCode(h, n))
    ensures forall h2, n2 :: 1 <= n2 <= 5 && (h2, n2) != (h, n) ==> p !in ActiveBucket(players, mode, TierCode(h2, n2))
  {
    var k :| 0 <= k < |players| && players[k] == p;
    assert HasActiveTier(players[k], mode, TierCode(h, n));
    forall h2, n2 | 1 <= n2 <= 5 && (h2, n2) != (h, n)
      ensures p !in ActiveBucket(players, mode, TierCode(h2, n2))
    {
      if TierCode(h2, n2) == TierCode(h, n) {
        TierCodeInjective(h2, n2, h, n);
      }
      RetiredOnlyIsExcluded(players, mode, TierCode(h2, n2), p);
    }
  }

  /** With `some` and no retired filter, a player holding both an HTn and
      an LTn kit for the mode is listed under both. */
  lemma BothHalvesListedTwice(players: seq<Player>, p: Player, mode: string, n: int, i: nat, j: nat)
    requires 1 <= n <= 5 && p in players && i < |p.kits| && j < |p.kits|
    requires HoldsTier(p.kits[i], mode, TierCode(High, n)) && HoldsTier(p.kits[j], mode, TierCode(Low, n))
    ensures p in AnyBucket(players, mode, TierCode(High, n))
    ensures p in AnyBucket(players, mode, TierCode(Low, n))
  {
    var k :| 0 <= k < |players| && players[k] == p;
    assert HasAnyTier(players[k], mode, TierCode(High, n));
    assert HasAnyTier(players[k], mode, TierCode(Low, n));
  }

  lemma {:induction false} FilterCongruent(xs: seq<Player>, f: Player -> bool, g: Player -> bool)
    requires forall i :: 0 <= i < |xs| ==> f(xs[i]) == g(xs[i])
    ensures Filter(xs, f) == Filter(xs, g)
  {
    if |xs| > 0 {
      FilterCongruent(xs[1..], f, g);
    }
  }

  /** When no kit is retired the two forms of the board agree. */
  lemma NoRetiredFormsAgree(players: seq<Player>, mode: string, code: string)
    requires forall i, j :: 0 <= i < |players| && 0 <= j < |players[i].kits| ==> !players[i].kits[j].retired.Truthy()
    ensures ActiveBucket(players, mode, code) == AnyBucket(players, mode, code)
  {
    var g := (p: Player) => HasAnyTier(p, mode, code);
    forall i | 0 <= i < |players| ensures ActiveKeep(mode, code)(players[i]) == g(players[i]) {
      ActiveKitsNonEmpty(players[i], mode, code);
    }
    FilterCongruent(players, ActiveKeep(mode, code), g);
  }

  /** The column of tier n: its HT bucket, then its LT bucket. */
  function Column(players: seq<Player>, mode: string, n: int, skipRetired: bool): (col: seq<Player>)
    requires 1 <= n <= 5
    ensures |col| == |Bucket(players, mode, TierCode(High, n), skipRetired)| + |Bucket(players, mode, TierCode(Low, n), skipRetired)|
    ensures col[..|Bucket(players, mode, TierCode(High, n), skipRetired)|] == Bucket(players, mode, TierCode(High, n), skipRetired)
    ensures col[|Bucket(players, mode, TierCode(High, n), skipRetired)|..] == Bucket(players, mode, TierCode(Low, n), skipRetired)
  {
    Bucket(players, mode, TierCode(High, n), skipRetired) + Bucket(players, mode, TierCode(Low, n), skipRetired)
  }

  /** The ranking page styles a row as HT when the row's uuid occurs in the
      tier's HT bucket. */
  predicate StyledHigh(players: seq<Player>, mode: string, n: int, uuid: string)
    requires 1 <= n <= 5
  {
    exists p :: p in ActiveBucket(players, mode, TierCode(High, n)) && p.uuid == uuid
  }

  /** Every row of the HT part is styled HT; a row of the LT part is styled
      LT unless some player with the same uuid also has an active HT kit of
      that tier. */
  lemma RowStyling(players: seq<Player>, mode: string, n: int, row: nat)
    requires 1 <= n <= 5 && row < |Column(players, mode, n, true)|
    ensures var ht := ActiveBucket(players, mode, TierCode(High, n));
            var p := Column(players, mode, n, true)[row];
            && (row < |ht| ==> StyledHigh(players, mode, n, p.uuid))
            && (row >= |ht| && (forall q :: q in players && q.uuid == p.uuid ==> !HasActiveTier(q, mode, TierCode(High, n)))
                ==> !StyledHigh(players, mode, n, p.uuid))
  {
    var ht := ActiveBucket(players, mode, TierCode(High, n));
    var col := Column(players, mode, n, true);
    if row < |ht| {
      assert col[row] == ht[row];
      assert col[row] in ht;
    }
  }

  /** The whole board: the five columns, tier 1 first. */
  function Board(players: seq<Player>, mode: string, skipRetired: bool): (b: seq<seq<Player>>)
    ensures |b| == 5
    ensures forall i :: 0 <= i < 5 ==> b[i] == Column(players, mode, i + 1, skipRetired)
  {
    seq(5, i requires 0 <= i < 5 => Column(players, mode, i + 1, skipRetired))
  }

  /** A player belongs to the bucket of a code exactly when it is in the
      input and holds the code (with an active kit, under the retired
      filter). */
  lemma BucketMembership(players: seq<Player>, mode: string, code: string, skipRetired: bool, q: Player)
    ensures q in Bucket(players, mode, code, skipRetired) <==>
              q in players && (if skipRetired then HasActiveTier(q, mode, code) else HasAnyTier(q, mode, code))
  {
    var b := Bucket(players, mode, code, skipRetired);
    if q in b {
      var i :| 0 <= i < |b| && b[i] == q;
    }
    if q in players {
      var i :| 0 <= i < |players| && players[i] == q;
    }
  }

  /** Who stands in column n of the board: the players of the input that
      hold tier n in either half. */
  predicate InColumn(players: seq<Player>, mode: string, n: int, skipRetired: bool, q: Player)
    requires 1 <= n <= 5
  {
    q in players &&
    if skipRetired then HasActiveTier(q, mode, TierCode(High, n)) || HasActiveTier(q, mode, TierCode(Low, n))
    else HasAnyTier(q, mode, TierCode(High, n)) || HasAnyTier(q, mode, TierCode(Low, n))
  }

  lemma BoardMembership(players: seq<Player>, mode: string, skipRetired: bool)
    ensures forall n, q :: 1 <= n <= 5 ==>
              (q in Board(players, mode, skipRetired)[n - 1] <==> InColumn(players, mode, n, skipRetired, q))
  {
    forall n, q | 1 <= n <= 5
      ensures q in Board(players, mode, skipRetired)[n - 1] <==> InColumn(players, mode, n, skipRetired, q)
    {
      BucketMembership(players, mode, TierCode(High, n), skipRetired, q);
      BucketMembership(players, mode, TierCode(Low, n), skipRetired, q);
    }
  }
}
