/** The per-gamemode tier pages. The infuse, glitch and trident-mace pages
    are one component with different constants (`MemoPage`): a default mode,
    a list of valid modes, and a page-wide `cachedFetch` memo through which
    both lists are loaded together. The lifesteal page (`LifestealPage`)
    loads its two lists one after the other without a memo, and its board
    has no retired filter. The dynamic ranking route (`RankingPage`) fetches
    only for a named gamemode and shows a loading indicator until the fetch
    settles. */
module TierPages {
  import opened Util
  import opened Players
  import opened Routes
  import opened UrlMemo
  import TierBoard

  /** The constants that tell the memoised tier pages apart. */
  datatype PageConfig = PageConfig(defaultMode: string, validModes: seq<string>, base: string)

  const CommunityBase: string := "https://api.lifestealpvp.xyz/api/v1/data"
  const CommunityModes: seq<string> := ["lifesteal", "infuse", "glitch", "strength", "bliss"]

  const Infuse: PageConfig := PageConfig("infuse", CommunityModes, CommunityBase)
  const Glitch: PageConfig := PageConfig("glitch", CommunityModes, CommunityBase)
  const TridentMace: PageConfig := PageConfig("trident_mace", ["lifesteal", "trident_mace"], CommunityBase)

  const LifestealBase: string := "https://lifestealpvp.xyz/api/v1/data"
  const LifestealModes: seq<string> := ["lifesteal", "trident_mace"]

  const RankingBase: string := "https://api.extiers.xyz/api/v1/data"
  const RankingModes: seq<string> :=
    ["diamond_op", "shieldless_smp", "iron_pot", "neth_sword", "crossbow", "spleef", "ice", "sumo", "tnt"]

  /** The redirect a page's guard effect issues: to the page's own default
      route when the mode is not in its list. */
  function RedirectFor(mode: string, validModes: seq<string>, defaultMode: string): (r: Option<string>)
    ensures r.Some? <==> mode !in validModes
    ensures r.Some? ==> r.value == RankingsPrefix + defaultMode
  {
    if mode in validModes then None else Some(RankingPath(defaultMode))
  }

  /** The gamemode request never coincides with the overall request. */
  lemma GamemodeUrlIsNotBase(base: string, mode: string)
    ensures GamemodeUrl(base, mode) != base
  {
    assert |GamemodeUrl(base, mode)| > |base|;
  }

  /** `handlePlayerClick(uuid)`: the first overall player with that uuid. */
  function ClickTarget(overall: seq<Player>, uuid: string): (r: Option<Player>)
    ensures r.Some? <==> exists i :: 0 <= i < |overall| && overall[i].uuid == uuid
    ensures r.Some? ==> exists i :: 0 <= i < |overall| && overall[i] == r.value && r.value.uuid == uuid
                                    && forall j :: 0 <= j < i ==> overall[j].uuid != uuid
  {
    match FindFirst(overall, (p: Player) => p.uuid == uuid)
    case None => None
    case Some(i) => Some(overall[i])
  }

  /** The lists `Promise.all` delivers for the gamemode and overall
      requests, or None when either call throws. Both calls consult the memo
      before either response arrives. */
  function PairLoad(entries: map<string, seq<Player>>, gurl: string, ourl: string,
                    gout: FetchOutcome, oout: FetchOutcome): (r: Option<(seq<Player>, seq<Player>)>)
    ensures r.Some? <==> Answer(entries, gurl, gout).Ok? && Answer(entries, ourl, oout).Ok?
  {
    var a, b := Answer(entries, gurl, gout), Answer(entries, ourl, oout);
    if a.Ok? && b.Ok? then Some((a.data, b.data)) else None
  }

  /** The memo after both calls settle: each URL is remembered on its own
      success, even when the other call fails. */
  function PairRemembered(entries: map<string, seq<Player>>, gurl: string, ourl: string,
                          gout: FetchOutcome, oout: FetchOutcome): map<string, seq<Player>> {
    Remembered(Remembered(entries, gurl, gout), ourl, oout)
  }

  /** The URLs among `urls` the memo cannot answer: those that reach the
      network. */
  function Unmemoised(entries: map<string, seq<Player>>, urls: seq<string>): (r: seq<string>)
    ensures forall i :: 0 <= i < |r| ==> r[i] in urls && r[i] !in entries
    ensures forall i :: 0 <= i < |urls| && urls[i] !in entries ==> urls[i] in r
  {
    if |urls| == 0 then []
    else (if urls[0] !in entries then [urls[0]] else []) + Unmemoised(entries, urls[1..])
  }

  /** The requests of a page load, gamemode URL first. */
  lemma UnmemoisedPair(entries: map<string, seq<Player>>, gurl: string, ourl: string)
    ensures Unmemoised(entries, [gurl, ourl])
         == (if gurl !in entries then [gurl] else []) + (if ourl !in entries then [ourl] else [])
  {
    assert [gurl, ourl][1..] == [ourl];
    assert [ourl][1..] == [];
    assert Unmemoised(entries, [ourl]) == (if ourl !in entries then [ourl] else []) + Unmemoised(entries, []);
  }

  /** After a page load succeeded, every later load of the same page gets
      the same two lists, whatever the network would answer, sends no
      request and leaves the memo as it is. */
  lemma PairLoadIsMemoised(entries: map<string, seq<Player>>, gurl: string, ourl: string,
                           gout: FetchOutcome, oout: FetchOutcome, gout2: FetchOutcome, oout2: FetchOutcome)
    requires gurl != ourl
    requires PairLoad(entries, gurl, ourl, gout, oout).Some?
    ensures var s := PairRemembered(entries, gurl, ourl, gout, oout);
            && PairLoad(s, gurl, ourl, gout2, oout2) == PairLoad(entries, gurl, ourl, gout, oout)
            && PairRemembered(s, gurl, ourl, gout2, oout2) == s
            && Unmemoised(s, [gurl, ourl]) == []
  {
    var s1 := Remembered(entries, gurl, gout);
    SuccessIsMemoised(entries, gurl, gout, gout2);
    SuccessIsMemoised(s1, ourl, oout, oout2);
    var s := PairRemembered(entries, gurl, ourl, gout, oout);
    assert Answer(s1, ourl, oout) == Answer(entries, ourl, oout);
    assert gurl in s && ourl in s;
    assert Remembered(s, gurl, gout2) == s;
    UnmemoisedPair(s, gurl, ourl);
  }

  /** A failed gamemode request does not stop the overall list from being
      remembered, so the next load only asks for the gamemode list. */
  lemma FailedLoadKeepsOverall(entries: map<string, seq<Player>>, gurl: string, ourl: string, data: seq<Player>)
    requires gurl != ourl && gurl !in entries && ourl !in entries
    ensures var s := PairRemembered(entries, gurl, ourl, Fail, Ok(data));
            && PairLoad(entries, gurl, ourl, Fail, Ok(data)).None?
            && ourl in s && s[ourl] == data
            && Unmemoised(s, [gurl, ourl]) == [gurl]
  {
    var s := PairRemembered(entries, gurl, ourl, Fail, Ok(data));
    assert gurl !in s;
    UnmemoisedPair(s, gurl, ourl);
  }

  /** An infuse, glitch or trident-mace page. */
  class MemoPage {
    const config: PageConfig
    const gamemode: string
    const memo: FetchMemo
    var players: seq<Player>
    var overallPlayers: seq<Player>
    var selected: Option<Player>
    var redirect: Option<string>

    function GamemodeRequest(): string { GamemodeUrl(config.base, gamemode) }

    /** Mounting: the mode falls back to the page's default, and the guard
        effect redirects a mode outside the page's list. */
    constructor(config: PageConfig, raw: Option<string>, memo: FetchMemo)
      ensures this.config == config && this.memo == memo
      ensures gamemode == ModeOrDefault(raw, config.defaultMode)
      ensures players == [] && overallPlayers == [] && selected.None?
      ensures redirect == RedirectFor(gamemode, config.validModes, config.defaultMode)
    {
      this.config := config;
      this.memo := memo;
      gamemode := ModeOrDefault(raw, config.defaultMode);
      players := [];
      overallPlayers := [];
      selected := None;
      redirect := RedirectFor(ModeOrDefault(raw, config.defaultMode), config.validModes, config.defaultMode);
    }

    /** The fetch effect. It runs whether or not the guard redirected: both
        lists go through the memo, and the page state changes only when both
        calls succeed. */
    method Load(gout: FetchOutcome, oout: FetchOutcome)
      modifies this, memo
      ensures var pair := PairLoad(old(memo.entries), GamemodeRequest(), config.base, gout, oout);
              && (pair.Some? ==> players == pair.value.0 && overallPlayers == pair.value.1)
              && (pair.None? ==> players == old(players) && overallPlayers == old(overallPlayers))
      ensures memo.entries == PairRemembered(old(memo.entries), GamemodeRequest(), config.base, gout, oout)
      ensures memo.requests == old(memo.requests) + Unmemoised(old(memo.entries), [GamemodeRequest(), config.base])
      ensures selected == old(selected) && redirect == old(redirect)
    {
      var gurl, ourl := GamemodeRequest(), config.base;
      GamemodeUrlIsNotBase(config.base, gamemode);
      ghost var before := memo.entries;
      var a := memo.Fetch(gurl, gout);
      var b := memo.Fetch(ourl, oout);
      assert Answer(Remembered(before, gurl, gout), ourl, oout) == Answer(before, ourl, oout);
      UnmemoisedPair(before, gurl, ourl);
      if a.Ok? && b.Ok? {
        players := a.data;
        overallPlayers := b.data;
      }
    }

    /** `handlePlayerClick(uuid)`: an unknown uuid leaves the selection. */
    method Select(uuid: string)
      modifies this
      ensures ClickTarget(overallPlayers, uuid).Some? ==> selected == ClickTarget(overallPlayers, uuid)
      ensures ClickTarget(overallPlayers, uuid).None? ==> selected == old(selected)
      ensures players == old(players) && overallPlayers == old(overallPlayers) && redirect == old(redirect)
    {
      var found := ClickTarget(overallPlayers, uuid);
      if found.Some? {
        selected := found;
      }
    }

    /** The five tier columns: with the retired filter, each holds the
        players with an active kit of its tier. */
    function Board(): (b: seq<seq<Player>>)
      reads this
      ensures |b| == 5
      ensures forall n, q :: 1 <= n <= 5 ==>
                (q in b[n - 1] <==> TierBoard.InColumn(players, gamemode, n, true, q))
    {
      TierBoard.BoardMembership(players, gamemode, true);
      TierBoard.Board(players, gamemode, true)
    }
  }

  /** A second visit to a memoised page after a successful first one shows
      the first visit's lists without going to the network, even if the
      network now fails. */
  method RevisitServedFromMemo(config: PageConfig, raw: Option<string>, data: seq<Player>, overall: seq<Player>)
    returns (players: seq<Player>, overallPlayers: seq<Player>, sent: nat)
    ensures players == data && overallPlayers == overall && sent == 2
  {
    var memo := new FetchMemo();
    var first := new MemoPage(config, raw, memo);
    first.Load(Ok(data), Ok(overall));
    UnmemoisedPair(map[], first.GamemodeRequest(), config.base);
    var second := new MemoPage(config, raw, memo);
    PairLoadIsMemoised(map[], first.GamemodeRequest(), config.base, Ok(data), Ok(overall), Fail, Fail);
    second.Load(Fail, Fail);
    players, overallPlayers, sent := second.players, second.overallPlayers, |memo.requests|;
  }

  /** An infuse page opened on a mode outside its list both redirects and
      sends the request for that mode: the two effects are independent. */
  method InvalidModeRedirectsAndFetches(data: seq<Player>, overall: seq<Player>)
    returns (redirect: Option<string>, requests: seq<string>, players: seq<Player>)
    ensures redirect == Some("/rankings/infuse")
    ensures requests == [CommunityBase + "?gamemode=overall", CommunityBase]
    ensures players == data
  {
    var memo := new FetchMemo();
    var page := new MemoPage(Infuse, Some("overall"), memo);
    page.Load(Ok(data), Ok(overall));
    UnmemoisedPair(map[], page.GamemodeRequest(), CommunityBase);
    assert page.gamemode == "overall";
    assert "overall" !in CommunityModes;
    assert RankingsPrefix + "infuse" == "/rankings/infuse";
    assert GamemodeQuery + "overall" == "?gamemode=overall";
    assert page.GamemodeRequest() == CommunityBase + (GamemodeQuery + "overall");
    redirect, requests, players := page.redirect, memo.requests, page.players;
  }

  /** The lifesteal page: no memo, the gamemode list is requested and set
      before the overall list is requested. */
  class LifestealPage {
    const gamemode: string
    var players: seq<Player>
    var overallPlayers: seq<Player>
    var selected: Option<Player>
    var redirect: Option<string>
    var requests: seq<string>

    function GamemodeRequest(): string { GamemodeUrl(LifestealBase, gamemode) }

    constructor(raw: Option<string>)
      ensures gamemode == ModeOrDefault(raw, "lifesteal")
      ensures players == [] && overallPlayers == [] && selected.None? && requests == []
      ensures redirect == RedirectFor(gamemode, LifestealModes, "lifesteal")
    {
      gamemode := ModeOrDefault(raw, "lifesteal");
      players := [];
      overallPlayers := [];
      selected := None;
      requests := [];
      redirect := RedirectFor(ModeOrDefault(raw, "lifesteal"), LifestealModes, "lifesteal");
    }

    /** The fetch effect: a failure of the first request skips the second;
        a failure of the second keeps the players already set. */
    method Load(gout: FetchOutcome, oout: FetchOutcome)
      modifies this
      ensures requests == old(requests) + [GamemodeRequest()] + (if gout.Ok? then [LifestealBase] else [])
      ensures players == (if gout.Ok? then gout.data else old(players))
      ensures overallPlayers == (if gout.Ok? && oout.Ok? then oout.data else old(overallPlayers))
      ensures selected == old(selected) && redirect == old(redirect)
    {
      requests := requests + [GamemodeRequest()];
      if gout.Fail? {
        return;
      }
      players := gout.data;
      requests := requests + [LifestealBase];
      if oout.Ok? {
        overallPlayers := oout.data;
      }
    }

    method Select(uuid: string)
      modifies this
      ensures ClickTarget(overallPlayers, uuid).Some? ==> selected == ClickTarget(overallPlayers, uuid)
      ensures ClickTarget(overallPlayers, uuid).None? ==> selected == old(selected)
      ensures players == old(players) && overallPlayers == old(overallPlayers) && redirect == old(redirect)
    {
      var found := ClickTarget(overallPlayers, uuid);
      if found.Some? {
        selected := found;
      }
    }

    /** The five tier columns: without a retired filter, each holds the
        players with any kit of its tier. */
    function Board(): (b: seq<seq<Player>>)
      reads this
      ensures |b| == 5
      ensures forall n, q :: 1 <= n <= 5 ==>
                (q in b[n - 1] <==> TierBoard.InColumn(players, gamemode, n, false, q))
    {
      TierBoard.BoardMembership(players, gamemode, false);
      TierBoard.Board(players, gamemode, false)
    }
  }

  /** A failing overall request leaves the lifesteal board filled but no
      player clickable: the gamemode list was set first. */
  method PlayersBeforeOverall(data: seq<Player>, uuid: string)
    returns (players: seq<Player>, selected: Option<Player>)
    ensures players == data && selected.None?
  {
    var page := new LifestealPage(None);
    page.Load(Ok(data), Fail);
    page.Select(uuid);
    players, selected := page.players, page.selected;
  }

  /** The dynamic `/rankings/:gamemode` page. */
  class RankingPage {
    const gamemode: Option<string>
    const memo: FetchMemo
    var players: seq<Player>
    var overallPlayers: seq<Player>
    var loading: bool
    var redirect: Option<string>

    /** The fetch effect runs only for a present mode other than "overall". */
    predicate Fetches() { Present(gamemode) && gamemode.value != "overall" }

    function GamemodeRequest(): string
      requires Fetches()
    {
      GamemodeUrl(RankingBase, gamemode.value)
    }

    /** Without a fetch the page stays as mounted. */
    predicate Valid()
      reads this
    {
      !Fetches() ==> loading && players == [] && overallPlayers == []
    }

    /** The guard redirects to the overall route iff the mode is present,
        not "overall" and not one of the nine. */
    constructor(raw: Option<string>, memo: FetchMemo)
      ensures gamemode == raw && this.memo == memo && Valid()
      ensures players == [] && overallPlayers == [] && loading
      ensures redirect.Some? <==> Present(raw) && raw.value != "overall" && raw.value !in RankingModes
      ensures redirect.Some? ==> redirect.value == RankingPath("overall")
    {
      gamemode := raw;
      this.memo := memo;
      players := [];
      overallPlayers := [];
      loading := true;
      redirect := if Present(raw) && raw.value != "overall" && raw.value !in RankingModes
                  then Some(RankingPath("overall")) else None;
    }

    /** `fetchData`: both lists through the memo; `loading` ends false in
        `finally`, on success and on failure alike. */
    method Load(gout: FetchOutcome, oout: FetchOutcome)
      requires Valid()
      modifies this, memo
      ensures Valid() && redirect == old(redirect)
      ensures !Fetches() ==> players == old(players) && overallPlayers == old(overallPlayers)
                             && loading == old(loading)
                             && memo.entries == old(memo.entries) && memo.requests == old(memo.requests)
      ensures Fetches() ==>
                var pair := PairLoad(old(memo.entries), GamemodeRequest(), RankingBase, gout, oout);
                && !loading
                && (pair.Some? ==> players == pair.value.0 && overallPlayers == pair.value.1)
                && (pair.None? ==> players == old(players) && overallPlayers == old(overallPlayers))
                && memo.entries == PairRemembered(old(memo.entries), GamemodeRequest(), RankingBase, gout, oout)
                && memo.requests == old(memo.requests) + Unmemoised(old(memo.entries), [GamemodeRequest(), RankingBase])
    {
      if !Fetches() {
        return;
      }
      loading := true;
      var gurl, ourl := GamemodeRequest(), RankingBase;
      GamemodeUrlIsNotBase(RankingBase, gamemode.value);
      ghost var before := memo.entries;
      var a := memo.Fetch(gurl, gout);
      var b := memo.Fetch(ourl, oout);
      assert Answer(Remembered(before, gurl, gout), ourl, oout) == Answer(before, ourl, oout);
      UnmemoisedPair(before, gurl, ourl);
      if a.Ok? && b.Ok? {
        players := a.data;
        overallPlayers := b.data;
      }
      loading := false;
    }

    /** What each tier strip shows: the loading indicator (None) until the
        fetch settles, then the HT-then-LT columns. */
    function Rows(): (r: Option<seq<seq<Player>>>)
      requires Valid()
      reads this
      ensures r.None? <==> loading
      ensures !Fetches() ==> r.None?
      ensures r.Some? ==> Fetches() && r.value == TierBoard.Board(players, gamemode.value, true)
      ensures r.Some? ==> forall n, q :: 1 <= n <= 5 ==>
                (q in r.value[n - 1] <==> TierBoard.InColumn(players, gamemode.value, n, true, q))
    {
      if loading then None
      else
        TierBoard.BoardMembership(players, gamemode.value, true);
        Some(TierBoard.Board(players, gamemode.value, true))
    }
  }
}
