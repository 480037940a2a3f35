/** The two leaderboard load policies as state machines over a view's
    `players`, `loading` and `error` state. The network is not called: a
    request is recorded in `requests`, and its result arrives later as a
    `FetchOutcome` passed to `Settle`. The `mounted` flag is the
    `isMounted` ref that gates every update after a response. */
module LoadPolicies {
  import opened Util
  import opened Players
  import opened Routes
  import opened SnapshotCache

  /** What a leaderboard view renders: the loading indicator first, then the
      error, then the table. */
  datatype Screen = Loading | ErrorScreen(message: string) | Table(players: seq<Player>)

  const OverallBase: string := "https://api.tridentmace.xyz/api/v1/data"
  const OverallValidModes: seq<string> := ["trident_mace"]

  const LeaderboardBase: string := "https://api.lifestealpvp.xyz/api/v1/data"
  const LeaderboardValidModes: seq<string> := ["lifesteal", "trident_mace"]

  /** The overall ranking page: network first, with the cache as fallback,
      and an hourly refresh while mounted. */
  class NetworkFirstView {
    const store: LeaderboardStore
    const gamemode: string
    var players: seq<Player>
    var loading: bool
    var error: Option<string>
    var mounted: bool
    var polling: bool
    var inFlight: nat
    var requests: seq<string>
    var redirect: Option<string>

    constructor(store: LeaderboardStore, raw: Option<string>)
      ensures this.store == store && gamemode == ModeOrDefault(raw, "overall")
      ensures players == [] && loading && error.None? && mounted && !polling
      ensures inFlight == 0 && requests == [] && redirect.None?
    {
      this.store := store;
      gamemode := ModeOrDefault(raw, "overall");
      players := [];
      loading := true;
      error := None;
      mounted := true;
      polling := false;
      inFlight := 0;
      requests := [];
      redirect := None;
    }

    function Shown(): (s: Screen)
      reads this
      ensures s.Loading? <==> loading
      ensures s.ErrorScreen? <==> !loading && error.Some?
      ensures s.ErrorScreen? ==> s.message == error.value
      ensures s.Table? ==> s.players == players
    {
      if loading then Loading
      else if error.Some? then ErrorScreen(error.value)
      else Table(players)
    }

    /** The load effect. An invalid mode redirects with no request and no
        cache access. Otherwise the request goes out first, then the cache is
        read (evicting an expired record), and a fresh hit is shown at once
        while the request is still pending. */
    method Load(now: int)
      modifies this, store
      ensures !IsValidView(gamemode, OverallValidModes) ==>
                && redirect == Some(RankingPath("overall"))
                && requests == old(requests) && inFlight == old(inFlight) && polling == old(polling)
                && store.entries == old(store.entries) && players == old(players)
      ensures IsValidView(gamemode, OverallValidModes) ==>
                var hit := ReadResult(old(store.entries), gamemode, now);
                && redirect == old(redirect) && polling
                && requests == old(requests) + [LeaderboardUrl(OverallBase, gamemode)]
                && inFlight == old(inFlight) + 1
                && store.entries == AfterRead(old(store.entries), gamemode, now)
                && players == (if hit.Some? then hit.value else old(players))
                && loading == hit.None?
      ensures error.None? && mounted == old(mounted)
      ensures !IsValidView(gamemode, OverallValidModes) ==> loading
    {
      loading := true;
      error := None;
      if !IsValidView(gamemode, OverallValidModes) {
        redirect := Some(RankingPath("overall"));
        return;
      }
      requests := requests + [LeaderboardUrl(OverallBase, gamemode)];
      inFlight := inFlight + 1;
      var cached := store.Get(gamemode, now);
      if cached.Some? {
        players := cached.value;
        loading := false;
      }
      polling := true;
    }

    /** The hourly interval: while it is set, each tick issues the request
        again. */
    method Poll()
      modifies this
      ensures polling == old(polling) && mounted == old(mounted)
      ensures players == old(players) && loading == old(loading) && error == old(error)
      ensures old(polling) ==> requests == old(requests) + [LeaderboardUrl(OverallBase, gamemode)]
                                && inFlight == old(inFlight) + 1
      ensures !old(polling) ==> requests == old(requests) && inFlight == old(inFlight)
    {
      if polling {
        requests := requests + [LeaderboardUrl(OverallBase, gamemode)];
        inFlight := inFlight + 1;
      }
    }

    /** A pending request completes. After unmount nothing changes. On
        success the players are replaced and the cache refreshed; on failure a
        fresh cached snapshot is used, and otherwise the error is set. The
        error of an earlier failure is left as it was on success. */
    method Settle(outcome: FetchOutcome, now: int, writeFails: bool)
      requires inFlight > 0
      modifies this, store
      ensures inFlight == old(inFlight) - 1
      ensures mounted == old(mounted) && polling == old(polling)
      ensures requests == old(requests) && redirect == old(redirect)
      ensures !old(mounted) ==>
                players == old(players) && loading == old(loading) && error == old(error)
                && store.entries == old(store.entries)
      ensures old(mounted) && outcome.Ok? ==>
                players == outcome.data && !loading && error == old(error)
                && store.entries == AfterWrite(old(store.entries), gamemode, outcome.data, now, writeFails)
      ensures old(mounted) && outcome.Fail? ==>
                var hit := ReadResult(old(store.entries), gamemode, now);
                && store.entries == AfterRead(old(store.entries), gamemode, now)
                && !loading
                && (hit.Some? ==> players == hit.value && error == old(error))
                && (hit.None? ==> players == old(players) && error == Some(LoadErrorMessage))
    {
      inFlight := inFlight - 1;
      if !mounted {
        return;
      }
      match outcome {
        case Ok(data) =>
          players := data;
          store.Put(gamemode, data, now, writeFails);
          loading := false;
        case Fail =>
          var cached := store.Get(gamemode, now);
          if cached.Some? {
            players := cached.value;
            loading := false;
          } else {
            error := Some(LoadErrorMessage);
            loading := false;
          }
      }
    }

    /** `Settle` with the success branch also clearing the error, so that a
        later successful refresh replaces an earlier load error. */
    method SettleRecovering(outcome: FetchOutcome, now: int, writeFails: bool)
      requires inFlight > 0
      modifies this, store
      ensures inFlight == old(inFlight) - 1
      ensures mounted == old(mounted) && polling == old(polling)
      ensures requests == old(requests) && redirect == old(redirect)
      ensures !old(mounted) ==>
                players == old(players) && loading == old(loading) && error == old(error)
                && store.entries == old(store.entries)
      ensures old(mounted) && outcome.Ok? ==>
                Shown() == Table(outcome.data)
                && store.entries == AfterWrite(old(store.entries), gamemode, outcome.data, now, writeFails)
      ensures old(mounted) && outcome.Fail? ==>
                var hit := ReadResult(old(store.entries), gamemode, now);
                && store.entries == AfterRead(old(store.entries), gamemode, now)
                && !loading
                && (hit.Some? ==> players == hit.value && error == old(error))
                && (hit.None? ==> players == old(players) && error == Some(LoadErrorMessage))
    {
      var wasMounted := mounted;
      Settle(outcome, now, writeFails);
      if wasMounted && outcome.Ok? {
        error := None;
      }
    }

    /** Teardown: the liveness flag drops and the interval is cleared. */
    method Unmount()
      modifies this
      ensures !mounted && !polling
      ensures players == old(players) && loading == old(loading) && error == old(error)
      ensures requests == old(requests) && inFlight == old(inFlight) && redirect == old(redirect)
    {
      mounted := false;
      polling := false;
    }
  }

  /** The first load fails with nothing cached and the hourly refresh then
      succeeds: the page keeps showing the load error, because the success
      branch never clears it. */
  method StickyErrorAfterRefresh(data: seq<Player>, now: int) returns (shown: Screen)
    ensures shown == ErrorScreen(LoadErrorMessage)
  {
    var store := new LeaderboardStore(map[]);
    var view := new NetworkFirstView(store, None);
    view.Load(now);
    view.Settle(Fail, now, false);
    view.Poll();
    view.Settle(Ok(data), now, false);
    shown := view.Shown();
  }

  /** The same sequence with the success branch clearing the error: the
      refreshed table is shown. */
  method RefreshRecovers(data: seq<Player>, now: int) returns (shown: Screen)
    ensures shown == Table(data)
  {
    var store := new LeaderboardStore(map[]);
    var view := new NetworkFirstView(store, None);
    view.Load(now);
    view.SettleRecovering(Fail, now, false);
    view.Poll();
    view.SettleRecovering(Ok(data), now, false);
    shown := view.Shown();
  }

  /** The lifesteal leaderboard component: cache first, network only on a
      miss, no fallback on failure. */
  class CacheFirstView {
    const store: LeaderboardStore
    const gamemode: string
    var players: seq<Player>
    var loading: bool
    var error: Option<string>
    var mounted: bool
    var inFlight: nat
    var requests: seq<string>
    var redirect: Option<string>

    constructor(store: LeaderboardStore, raw: Option<string>)
      ensures this.store == store && gamemode == ModeOrDefault(raw, "overall")
      ensures players == [] && loading && error.None? && mounted
      ensures inFlight == 0 && requests == [] && redirect.None?
    {
      this.store := store;
      gamemode := ModeOrDefault(raw, "overall");
      players := [];
      loading := true;
      error := None;
      mounted := true;
      inFlight := 0;
      requests := [];
      redirect := None;
    }

    function Shown(): (s: Screen)
      reads this
      ensures s.Loading? <==> loading
      ensures s.ErrorScreen? <==> !loading && error.Some?
      ensures s.ErrorScreen? ==> s.message == error.value
      ensures s.Table? ==> s.players == players
    {
      if loading then Loading
      else if error.Some? then ErrorScreen(error.value)
      else Table(players)
    }

    /** The load effect. An invalid mode redirects without touching the
        cache or the network. A fresh cache hit is shown and no request is
        made; a miss (after evicting an expired record) issues one request. */
    method Load(now: int)
      modifies this, store
      ensures !IsValidView(gamemode, LeaderboardValidModes) ==>
                && redirect == Some(RankingPath("overall")) && loading
                && requests == old(requests) && inFlight == old(inFlight)
                && store.entries == old(store.entries) && players == old(players)
      ensures IsValidView(gamemode, LeaderboardValidModes) ==>
                var hit := ReadResult(old(store.entries), gamemode, now);
                && redirect == old(redirect)
                && store.entries == AfterRead(old(store.entries), gamemode, now)
                && (hit.Some? ==> players == hit.value && !loading
                                  && requests == old(requests) && inFlight == old(inFlight))
                && (hit.None? ==> players == old(players) && loading
                                  && requests == old(requests) + [LeaderboardUrl(LeaderboardBase, gamemode)]
                                  && inFlight == old(inFlight) + 1)
      ensures error.None? && mounted == old(mounted)
    {
      loading := true;
      error := None;
      if gamemode != "overall" && gamemode !in LeaderboardValidModes {
        redirect := Some(RankingPath("overall"));
        return;
      }
      var cached := store.Get(gamemode, now);
      if cached.Some? {
        players := cached.value;
        loading := false;
        return;
      }
      requests := requests + [LeaderboardUrl(LeaderboardBase, gamemode)];
      inFlight := inFlight + 1;
    }

    /** The request completes: success shows and caches the data, failure
        shows the error with no cache fallback; after unmount both are
        ignored. */
    method Settle(outcome: FetchOutcome, now: int, writeFails: bool)
      requires inFlight > 0
      modifies this, store
      ensures inFlight == old(inFlight) - 1 && mounted == old(mounted)
      ensures requests == old(requests) && redirect == old(redirect)
      ensures !old(mounted) ==>
                players == old(players) && loading == old(loading) && error == old(error)
                && store.entries == old(store.entries)
      ensures old(mounted) && outcome.Ok? ==>
                players == outcome.data && !loading && error == old(error)
                && store.entries == AfterWrite(old(store.entries), gamemode, outcome.data, now, writeFails)
      ensures old(mounted) && outcome.Fail? ==>
                players == old(players) && !loading && error == Some(LoadErrorMessage)
                && store.entries == old(store.entries)
    {
      inFlight := inFlight - 1;
      if !mounted {
        return;
      }
      match outcome {
        case Ok(data) =>
          players := data;
          store.Put(gamemode, data, now, writeFails);
          loading := false;
        case Fail =>
          error := Some(LoadErrorMessage);
          loading := false;
      }
    }

    method Unmount()
      modifies this
      ensures !mounted
      ensures players == old(players) && loading == old(loading) && error == old(error)
      ensures requests == old(requests) && inFlight == old(inFlight) && redirect == old(redirect)
    {
      mounted := false;
    }
  }

  /** Cache first: a record written by an earlier visit and still fresh is
      shown at once, and no request goes out. */
  method RevisitWithinWindowSkipsNetwork(data: seq<Player>, t: int, t2: int) returns (shown: Screen, sent: nat)
    requires t != 0 && t <= t2 <= t + Expiration
    ensures shown == Table(data) && sent == 0
  {
    var store := new LeaderboardStore(map[]);
    var first := new CacheFirstView(store, Some("lifesteal"));
    first.Load(t);
    first.Settle(Ok(data), t, false);
    var second := new CacheFirstView(store, Some("lifesteal"));
    second.Load(t2);
    shown := second.Shown();
    sent := |second.requests|;
  }
}
