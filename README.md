# TierList ranking logic in Dafny

TierList is a set of React pages that show player rankings fetched from a
remote API. This project models the logic inside those pages, without React:

- **Classifiers.** The lookups from tier code to colour pair, from points to
  title, from position to placement decoration, and from region to colours
  and name.
- **Leaderboard snapshot cache.** A browser-storage record per gamemode that
  expires after ten minutes.
- **Leaderboard load policies.** Network first with a cache fallback (the
  overall ranking page), and cache first (the leaderboard component).
- **URL memo.** The `cachedFetch` memo of the tier pages.
- **Tier board.** The split of players into HT1..HT5 and LT1..LT5 buckets.
- **Profile badges.** The badges and their ranked-first order.
- **Search bar.** A state machine over the text, the error, the result and
  the clear-error timer.
- **Tab strip.** Reads the active tab from the path.

Logic that the source repeats across files is defined once:

- the region colour tables;
- `getTierColors`;
- `cachedFetch`;
- the infuse, glitch and trident-mace pages. These are one component with
  three sets of constants.

Modules, one per file:

- `Util`: Option, `find`, `filter`, subsequence.
- `Players`: the API's kit and player records.
- `Classifiers`, `Badges`, `SnapshotCache`, `Routes`, `LoadPolicies`,
  `UrlMemo`, `TierBoard`, `TierPages`, `SearchBox`, `Tabs`.

Things outside the program are inputs:

- The network is a `FetchOutcome` argument, `Ok(data)` or `Fail`. `Fail`
  stands for a failed request, a non-ok status or a body that does not
  parse, on the pages that check the status. The search bar does not check
  the status: its response is a `ListResponse`, either a parsed body (a
  player array or any other JSON value) or a throw.
- The clock is a `now` argument.
- A failing storage write is a `writeFails` argument.
- Browser storage is a `map` field, and a record that does not parse is the
  `Malformed` entry.
- A timer is a pending id plus a `Fire` event.
- JavaScript truth tests are written out:
  - `Present` means a string is set and not empty;
  - `JsFlag` tells `retired === true` apart from a truthy `retired`;
  - a timestamp of 0 is falsy.

## Model

| member | source | states |
|---|---|---|
| Classifiers.TierColors | src/pages/rankings/Overall.jsx:47-61 | HT1–HT3 and LT1–LT3 get their own fixed pairs. Every other tier code gets #303144/#81749A: the tier 4/5 codes, an unknown code that is not an inherited object property name, an empty code and no code. |
| Classifiers.TopTierColorsDistinct | src/components/leaderboard.jsx:37-58 | The six top codes have six different colour pairs. |
| Classifiers.ShimmerFor | src/pages/rankings/Overall.jsx:63-64 | Positions 1, 2 and 3 each get their own decoration, and every other position gets the shared one (iff in each case). |
| Classifiers.TitlesAreContiguous | src/components/profileoverlay.jsx:18-82 | The title table starts at 0, its ranges are non-empty and adjacent, and it ends with an unbounded Combat God. |
| Classifiers.ContiguousPartitions | src/pages/rankings/Overall.jsx:69-81 | In such a table, points >= 0 iff some range covers them, and no two ranges cover the same points. |
| Classifiers.FindInContiguous | src/pages/rankings/Overall.jsx:79-81 | In any contiguous title table, `find` by coverage succeeds iff the points are >= 0, and then returns the one range that covers them. |
| Classifiers.FindTitle | src/pages/rankings/Overall.jsx:79-81 | `titleInfo.find` gives a title iff points >= 0. That title is the unique range that covers the points. |
| Classifiers.ProfileTitle | src/components/profileoverlay.jsx:85-92 | The loop returns the first covering range, or Rookie when none covers the points. So a total >= 0 is always covered and a negative one reads "Rookie". |
| Classifiers.RegionName | src/components/profileoverlay.jsx:230-236 | AS is Asia, NA is North America, EU is Europe, and any other region is "N/A". |
| Classifiers.RegionBackground | src/pages/infuse.jsx:51-62 | The dark region colour (also `regionColor`) is #6b7280 exactly for regions other than AS/EU/NA. |
| Classifiers.RegionTextColor | src/pages/rankings/Overall.jsx:38-45 | The region text colour is #ffffff exactly for regions other than AS/EU/NA. |
| Classifiers.BrightRegionColor | src/pages/glitch.jsx:36-47 | The bright region colour is #444 exactly for regions other than AS/EU/NA. |
| Classifiers.RegionLabel | src/pages/rankings/Overall.jsx:309 | The label is the region itself when the region is set and not empty, and "N/A" otherwise. |
| Badges.KitFor | src/components/leaderboard.jsx:208-212 | Returns the first kit that names the mode in `kit_name`, `gamemode`, `name` or `type`. Returns none iff no kit does. |
| Badges.MakeBadge | src/components/leaderboard.jsx:208-225 | The badge reads the first kit for the mode. It is ranked iff that kit has a tier. Its `tierColors` value is `getTierColors` of the raw tier, so for an unranked badge it is the neutral pair (the views draw unranked badges in fixed colours, which is rendering). The label is "R"+tier when the kit is ranked and `retired === true`, otherwise the raw tier. Points are the kit's points, or 0 when the kit or its points are missing. No kit gives "N/A". |
| Badges.BadgeRow | src/components/leaderboard.jsx:207 | There is exactly one badge per valid mode, in list order, each carrying its mode and its index. |
| Badges.BadgeRowAt | src/components/leaderboard.jsx:207-225 | The badge at position i of a row is the badge that mode i gets from the player's kits. |
| Badges.TooltipCases | src/components/profileoverlay.jsx:280-291 | The tooltip is "Peak X" iff the peak is set and differs from the tier. Otherwise it is the tier, or "N/A" without one. |
| Badges.ShownTierCases | src/components/profileoverlay.jsx:287-289 | A ranked badge shows "R"+tier iff `retired === true`, and the bare tier otherwise. An unranked badge shows the placeholder. Dropping the "R" gives back the tier. |
| Badges.RankedFirstIsStablePartition | src/pages/rankings/Overall.jsx:247-255 | Ranked-first is a permutation with the same length. Every ranked badge precedes every unranked one, and each group keeps its order. |
| Badges.StableSortIsRankedFirst | src/pages/rankings/Overall.jsx:255 | Any arrangement that puts ranked badges first and keeps each group's order equals ranked-first. This is what the stable sort yields. |
| Badges.SortedGamemodes | src/pages/rankings/Overall.jsx:247-255 | The row's badges are a permutation, ranked first, with each group in mode-list order. |
| Badges.BuildProfileBadges | src/components/profileoverlay.jsx:267-358 | The push loop yields exactly ranked-first of the badge row. That is one badge per mode, with ranked before unranked. |
| Badges.RenderProfile | src/components/profileoverlay.jsx:148-154 | No player renders nothing. The total reads 0 when absent. The title, region name, placement, the printed position and the ranked-first badges are derived from the player. |
| Badges.OverallRowOf | src/pages/rankings/Overall.jsx:241-255 | A row shows the placement of its position, the region label and the region colour pair. Its title is the title-table lookup of the total (`getTitleInfo`): present iff the total is >= 0, and then the range that covers the total. Its badges are `SortedGamemodes`, ranked first, and each shows the raw tier (no "R" prefix) or "-" (line 442). |
| Badges.LeaderboardRowOf | src/components/leaderboard.jsx:162-282 | A leaderboard row shows the placement of its position, the region label and the region colour pair. It has one badge per leaderboard mode in list order, with no ranked-first sort. Each badge shows the "R"-prefixed or raw tier, or the mojibake dash when unranked. |
| Badges.TridentMaceShownOnBothViews | src/components/leaderboard.jsx:215-270 | For the trident-mace kit, the leaderboard shows "R" plus what the overall ranking shows (Overall.jsx:442) when the kit is ranked and retired. It shows the same tier when the kit is ranked and not retired. An unranked kit shows the mojibake dash there and "-" on the overall ranking. |
| SnapshotCache.KeyInjective | src/pages/rankings/Overall.jsx:149 | Different modes use different storage keys. |
| SnapshotCache.ReadResult | src/pages/rankings/Overall.jsx:147-161 | A read returns data iff the record exists and parses, both fields are truthy, and `now - timestamp <= 600000`. |
| SnapshotCache.AfterRead | src/pages/rankings/Overall.jsx:152-156 | Only a well-formed record strictly older than ten minutes is removed. Nothing else changes. |
| SnapshotCache.AfterWrite | src/pages/rankings/Overall.jsx:163-170 | A write stores `{now, data}` under the mode's key and leaves every other key alone. A failing write changes nothing. |
| SnapshotCache.RoundTrip | src/pages/rankings/Overall.jsx:147-170 | A read within ten minutes of a write returns the written data (for a non-zero write time) and evicts nothing. |
| SnapshotCache.ExpiryEvicts | src/pages/rankings/Overall.jsx:152-156 | More than ten minutes after a write, the read misses and removes exactly that key. |
| SnapshotCache.MalformedIsSilentMiss | src/components/leaderboard.jsx:88-105 | A record that is malformed or has a falsy field is a miss at any time, and it is never removed. |
| SnapshotCache.ReadIdempotent | src/components/leaderboard.jsx:88-105 | A second read at the same time answers the same and removes nothing more. |
| SnapshotCache.LeaderboardStore.Get | src/components/leaderboard.jsx:88-105 | `getCachedData` returns ReadResult and leaves the storage as AfterRead. |
| SnapshotCache.LeaderboardStore.Put | src/components/leaderboard.jsx:107-112 | `setCachedData` leaves the storage as AfterWrite. |
| Routes.ModeOrDefault | src/components/leaderboard.jsx:70 | An absent or empty route parameter becomes the default mode. Any other value is kept. |
| Routes.UrlRoundTrip | src/pages/rankings/Overall.jsx:121-122 | The mode can be read back from its request URL: the bare base for "overall", `base?gamemode=m` otherwise. |
| Routes.UrlInjective | src/components/leaderboard.jsx:130-131 | Different modes send different requests. |
| LoadPolicies.NetworkFirstView.constructor | src/pages/rankings/Overall.jsx:86-93 | A new view starts on the requested mode, or "overall" when there is none. It has no players, is loading, has no error, is mounted, and has not polled, requested or redirected. |
| LoadPolicies.NetworkFirstView.Shown | src/pages/rankings/Overall.jsx:197-212 | The screen is the spinner iff loading. Otherwise it is the error iff there is one, carrying that message, and else the table of the current players. |
| LoadPolicies.NetworkFirstView.Load | src/pages/rankings/Overall.jsx:173-195 | An invalid mode redirects with no request and no cache access. A valid one sends the URL, reads the cache (showing a fresh hit at once) and starts polling. |
| LoadPolicies.NetworkFirstView.Poll | src/pages/rankings/Overall.jsx:193 | While polling, each tick sends the same request again and changes nothing else. |
| LoadPolicies.NetworkFirstView.Settle | src/pages/rankings/Overall.jsx:120-145 | After unmount, a response changes nothing. Success sets the players and refreshes the cache. Failure uses a fresh cached snapshot, or else sets "Could not load leaderboard data.". Both end loading. |
| LoadPolicies.NetworkFirstView.SettleRecovering | src/pages/rankings/Overall.jsx:128-133 | The corrected success branch: after it the table shows the new data. |
| LoadPolicies.NetworkFirstView.Unmount | src/pages/rankings/Overall.jsx:106-109 | Teardown clears the liveness flag and the interval, and leaves the view's data as it was. |
| LoadPolicies.StickyErrorAfterRefresh | src/pages/rankings/Overall.jsx:128-144 | A failed first load followed by a successful refresh still shows the error screen. |
| LoadPolicies.RefreshRecovers | src/pages/rankings/Overall.jsx:128-144 | The same sequence with the corrected branch shows the refreshed table. |
| LoadPolicies.CacheFirstView.constructor | src/components/leaderboard.jsx:70-76 | A new view starts on the requested mode, or "overall" when there is none. It has no players, is loading, has no error, is mounted, and has not requested or redirected. |
| LoadPolicies.CacheFirstView.Shown | src/components/leaderboard.jsx:290-306 | The screen is the loading view iff loading. Otherwise it is the error iff there is one, carrying that message, and else the table of the current players. |
| LoadPolicies.CacheFirstView.Load | src/components/leaderboard.jsx:114-128 | An invalid mode redirects without cache or network. A fresh hit is shown with no request. A miss sends exactly one request to the base or `base?gamemode=m`. |
| LoadPolicies.CacheFirstView.Settle | src/components/leaderboard.jsx:130-148 | After unmount, a response changes nothing. Success shows and caches the data. Failure shows the error, with no fallback and no cache change. |
| LoadPolicies.CacheFirstView.Unmount | src/components/leaderboard.jsx:81-86 | Unmounting clears the liveness flag and nothing else. |
| LoadPolicies.RevisitWithinWindowSkipsNetwork | src/components/leaderboard.jsx:123-128 | A second visit within ten minutes of a successful load shows the cached table and sends no request. |
| UrlMemo.Remembered | src/pages/rankings/GamemodeRanking.jsx:37-46 | The memo only grows, only under the requested URL, and only on success. |
| UrlMemo.SuccessIsMemoised | src/pages/rankings/GamemodeRanking.jsx:37-46 | Once a URL has answered, later calls return the same data whatever the network says, and leave the memo unchanged. |
| UrlMemo.FailureIsNotMemoised | src/pages/infuse.jsx:65-76 | A failure leaves the memo unchanged, so the URL goes back to the network next time. |
| UrlMemo.FetchMemo.constructor | src/pages/infuse.jsx:65 | The memo starts empty, and no request has been sent. |
| UrlMemo.FetchMemo.Fetch | src/pages/glitch.jsx:63-74 | A known URL is answered from the memo with no request. Otherwise the URL is requested, and the data is stored on success. The trident-mace page has the same `cachedFetch` (src/pages/tridentmace.jsx:58-69). |
| TierBoard.TierCodeInjective | src/pages/rankings/GamemodeRanking.jsx:125-144 | The ten codes HT1..HT5 and LT1..LT5 are pairwise different. |
| TierBoard.ActiveKitsNonEmpty | src/pages/rankings/GamemodeRanking.jsx:127-133 | The filtered kit list is non-empty iff the player has a non-retired kit for this mode and code. |
| TierBoard.ActiveBucket | src/pages/rankings/GamemodeRanking.jsx:125-144 | The bucket holds exactly the players with an active kit for the mode and code. It is a subsequence of the input, so input order is kept. |
| TierBoard.AnyBucket | src/pages/lifesteal.jsx:92-105 | The bucket holds exactly the players with some kit for the mode and code, retired or not. It is a subsequence of the input. |
| TierBoard.BucketKeepsOrder | src/pages/infuse.jsx:141-167 | Two kept players appear in the bucket in their input order. |
| TierBoard.RetiredOnlyIsExcluded | src/pages/rankings/GamemodeRanking.jsx:131-139 | A player whose matching kits are all retired is in no bucket. |
| TierBoard.SingleActiveKitOneBucket | src/pages/glitch.jsx:123-149 | A player with one active tier for the mode is in that bucket and in none of the other nine. |
| TierBoard.BothHalvesListedTwice | src/pages/lifesteal.jsx:94-103 | Because `some` is used, a player with both an HTn and an LTn kit is listed under both. |
| TierBoard.NoRetiredFormsAgree | src/pages/tridentmace.jsx:109-135 | When no kit is retired, the filtered buckets equal lifesteal's `some` buckets. |
| TierBoard.Column | src/pages/rankings/GamemodeRanking.jsx:158 | A column is the HT bucket followed by the LT bucket. |
| TierBoard.RowStyling | src/pages/rankings/GamemodeRanking.jsx:179-186 | Every row in the HT part is styled HT. A row in the LT part is styled LT unless its uuid also has an active HT kit of that tier. |
| TierBoard.Board | src/pages/rankings/GamemodeRanking.jsx:155-158 | The board has five columns, tier 1 first. |
| TierBoard.BucketMembership | src/pages/rankings/GamemodeRanking.jsx:125-144 | A player is in a bucket iff it is in the input and holds the code. With the retired filter the kit must be active; without it, any kit counts. |
| TierBoard.BoardMembership | src/pages/rankings/GamemodeRanking.jsx:155-158 | Column n of the board holds exactly the input players that hold HTn or LTn for the mode, under the board's retired rule. |
| TierPages.RedirectFor | src/pages/infuse.jsx:97-101 | The page redirects iff the mode is not in its list, and the target is the page's own default route. |
| TierPages.GamemodeUrlIsNotBase | src/pages/infuse.jsx:106-107 | The gamemode request never equals the overall request. |
| TierPages.ClickTarget | src/pages/infuse.jsx:169-174 | A click finds a player iff some overall player has the uuid, and it returns the first such player. |
| TierPages.PairLoad | src/pages/infuse.jsx:103-121 | `Promise.all` delivers both lists iff both memo calls succeed. |
| TierPages.Unmemoised | src/pages/rankings/GamemodeRanking.jsx:37-46 | The requests sent are exactly the URLs the memo cannot answer. |
| TierPages.UnmemoisedPair | src/pages/rankings/GamemodeRanking.jsx:101-104 | A page load requests the gamemode URL and then the overall URL, skipping each one already memoised. |
| TierPages.PairLoadIsMemoised | src/pages/infuse.jsx:65-76 | After a successful load, every later load gets the same lists, sends nothing and leaves the memo unchanged. |
| TierPages.FailedLoadKeepsOverall | src/pages/infuse.jsx:108-111 | When the gamemode call fails, the overall list is still memoised, and the next load requests only the gamemode URL. |
| TierPages.MemoPage.constructor | src/pages/infuse.jsx:81-101 | The mode defaults to the page's own default. A mode outside the page's list redirects to that default route. |
| TierPages.MemoPage.Load | src/pages/infuse.jsx:103-121 | Both lists go through the memo. The players are set only when both calls succeed. The memo and the requests change as `cachedFetch` specifies. The glitch and trident-mace pages run the same effect with their own constants (src/pages/glitch.jsx:102-120, src/pages/tridentmace.jsx:89-107). |
| TierPages.MemoPage.Select | src/pages/infuse.jsx:169-174 | A click selects the first overall player with the uuid. An unknown uuid leaves the selection. The glitch and trident-mace pages have the same handler (src/pages/glitch.jsx:151-156, src/pages/tridentmace.jsx:137-142). |
| TierPages.MemoPage.Board | src/pages/infuse.jsx:141-167 | The five columns. Column n holds exactly the players with a non-retired HTn or LTn kit for the page's mode. |
| TierPages.RevisitServedFromMemo | src/pages/glitch.jsx:63-74 | A second visit after a successful one shows the first lists, even when the network fails. Only two requests are ever sent. |
| TierPages.InvalidModeRedirectsAndFetches | src/pages/infuse.jsx:97-121 | A mode outside the list both redirects and is requested. |
| TierPages.LifestealPage.constructor | src/pages/lifesteal.jsx:60-71 | The mode defaults to "lifesteal". A mode outside ["lifesteal","trident_mace"] redirects to /rankings/lifesteal. |
| TierPages.LifestealPage.Load | src/pages/lifesteal.jsx:73-90 | The gamemode list is requested and set first. The overall list is requested only after that, and is set only if its own request succeeds. |
| TierPages.LifestealPage.Select | src/pages/lifesteal.jsx:107-112 | A click selects the first overall player with the uuid. An unknown uuid leaves the selection. |
| TierPages.LifestealPage.Board | src/pages/lifesteal.jsx:92-105 | The five columns. Column n holds exactly the players with any HTn or LTn kit for the mode, retired or not. |
| TierPages.PlayersBeforeOverall | src/pages/lifesteal.jsx:76-84 | If the overall request fails, the board is filled but no click selects anyone. |
| TierPages.RankingPage.constructor | src/pages/rankings/GamemodeRanking.jsx:74-89 | The page redirects to /rankings/overall iff the mode is present, not "overall" and not one of the nine. Loading starts true. |
| TierPages.RankingPage.Load | src/pages/rankings/GamemodeRanking.jsx:91-122 | An absent mode or "overall" sends nothing and changes nothing. Otherwise both lists go through the memo, and loading ends false on success and on failure. |
| TierPages.RankingPage.Rows | src/pages/rankings/GamemodeRanking.jsx:125-178 | The strips show the spinner iff loading, and always when no fetch runs. Otherwise they show the retired-filtered board of the mode: column n holds exactly the players with a non-retired HTn or LTn kit for the mode. |
| SearchBox.Trim | src/components/searchbar.jsx:41 | `trim` returns a slice with only white space cut on either side, and it neither starts nor ends with white space. |
| SearchBox.TrimEmptyIffBlank | src/components/searchbar.jsx:41 | The trimmed text is empty iff every character is white space. |
| SearchBox.Lower | src/components/searchbar.jsx:48 | Lowercasing keeps the length and maps each character through the ASCII case map. |
| SearchBox.Lookup | src/components/searchbar.jsx:47-49 | Finds a player iff some lowercased username equals the lowercased untrimmed text, and returns the first such player. |
| SearchBox.LookupIgnoresCase | src/components/searchbar.jsx:47-49 | The text and its lowercased form find the same player. |
| SearchBox.TrailingSpaceMisses | src/components/searchbar.jsx:48 | Text with a trailing space finds no username that contains no space. |
| SearchBox.SearchBar.constructor | src/components/searchbar.jsx:5-13 | The bar starts empty, with no error, no result and no timer. |
| SearchBox.SearchBar.ArmErrorTimer | src/components/searchbar.jsx:34-37 | Arming cancels the timer in the ref and leaves exactly the new one pending. |
| SearchBox.SearchBar.CancelTimer | src/components/searchbar.jsx:65 | After a cancel, no timer is pending. |
| SearchBox.SearchBar.Loaded | src/components/searchbar.jsx:14-31 | Any parsed body is stored as the list, with no status check. Only a throw sets "Failed to load player data." and arms the timer. |
| SearchBox.SearchBar.Submit | src/components/searchbar.jsx:39-60 | Blank text changes nothing. A hit sets the result and leaves the error empty. A miss sets "Player not found", clears the text and arms the timer. Loading ends false in both cases. When the stored body is not an array, `find` throws and the bar is left loading with no message. |
| SearchBox.SearchBar.Type | src/components/searchbar.jsx:80-86 | A keystroke sets the text. A showing error is cleared and its timer cancelled. |
| SearchBox.SearchBar.Fire | src/components/searchbar.jsx:36 | The pending timer clears the error and is no longer pending. |
| SearchBox.SearchBar.Close | src/components/searchbar.jsx:62-67 | Closing resets the result, the text and the error, and cancels the timer. |
| SearchBox.AtMostOneTimer | src/components/searchbar.jsx:34-37 | A bar that satisfies its invariant has at most one pending timer. |
| SearchBox.MissThenTimer | src/components/searchbar.jsx:53-57 | A miss shows "Player not found". The timer then clears it and leaves nothing pending. |
| SearchBox.ErrorBodyLeavesLoading | src/components/searchbar.jsx:17-19 | A parsed error body is stored as the list. A later search is then left loading, with no message and no result. |
| Tabs.Split | src/components/gamemodetabs.jsx:34 | `split("/")` gives pieces without "/" that join back to the path. |
| Tabs.SplitJoin | src/components/gamemodetabs.jsx:34 | Splitting the join of pieces without "/" gives the pieces back. |
| Tabs.ActiveTab | src/components/gamemodetabs.jsx:34 | The active tab is piece [2], or "overall" when that piece is missing or empty. |
| Tabs.TabClass | src/components/gamemodetabs.jsx:36 | A tab's class is "tab active" iff it is the active tab, and "tab" otherwise. |
| Tabs.TabPathRoundTrip | src/components/gamemodetabs.jsx:42-53 | A non-empty tab name without "/" is active on its own `/rankings/` path. |
| Tabs.TabNamesDistinct | src/components/gamemodetabs.jsx:7-17 | "overall" and the nine modes are pairwise different. |
| Tabs.OneActiveTab | src/components/gamemodetabs.jsx:41-59 | On any path, at most one button is active. |
| Tabs.ClickActivatesTab | src/components/gamemodetabs.jsx:41-59 | After a click on a tab, that tab is the only active one. |

## Left out

- Rendering is not modelled:
  - JSX, styles, CSS, hover state and mobile layouts;
  - the image fallbacks, icon tables, number formatting and Discord links;
  - the ranking page's row click, which selects the row's own player.
- The network is not modelled. `fetch`, `res.json()` and `Promise.all` become
  `FetchOutcome` inputs, and a load's two responses settle together.
  - The order in which concurrent responses arrive is not modelled, so stale
    responses after a gamemode change are not modelled either. A change of
    gamemode is a new view instance.
  - The lifesteal page has no `res.ok` check. In the source, a failed
    gamemode response whose body parses is set as `players` (lifesteal.jsx
    lines 79-80), and the overall list is still requested (lines 82-84).
    If that body is not an array, such as an `{error: ...}` object, the
    next render throws at `players.filter` and the page goes blank. Only
    an array body would be bucketed as players. The model treats every
    such response as `Fail`. It sends no overall request after it and does
    not model the blank page.
- Wall-clock timing is not modelled: the 2 s error clear, the hourly poll
  and the 500 ms minimum loading delay. A timer is a pending id with a
  `Fire` event, and a poll is a `Poll` call.
- Effect scheduling is not modelled. React's ordering of effects is not
  modelled; `isMounted` is a boolean that gates updates.
- Records are narrowed to the fields the logic reads:
  - An absent `kits` array is the empty list. The bucketing in the source
    would throw on it.
  - Fractional and non-numeric points are not modelled; points are integers.
  - A cached record whose timestamp is truthy but not a number is not
    modelled; the timestamp is an integer or absent. In the source,
    `Date.now()` minus such a value is NaN, and NaN is never greater than
    the expiry (Overall.jsx:153, leaderboard.jsx:96). So such a record is
    served and never evicted. Only a storage entry edited by hand can
    hold one.
  - The `{player, kits}` pairs of the tier buckets appear as their players.
- Classifiers.TierColors: a tier code that names an inherited object
  property ("constructor", "toString", "__proto__" and the like) finds that
  property in the colour table, so the source's badge gets undefined
  colours. Here such a code gets the neutral pair, because the model has no
  prototype chain.
- SearchBox.SearchBar.Submit: a player array whose records lack a string
  `username` would make `find` throw too. Records here always have one.
- SearchBox.Lower: maps only ASCII letters. JavaScript's full Unicode case
  mapping is not modelled.
- TierPages.RankingPage.Rows: builds the board only once a fetch has run.
  When no fetch runs the players stay empty and the page keeps its spinner.
- The announcements loaders, the routing table and the asset maps are
  outside the modelled logic.

## Findings

| source | as written | input that shows it | evidently intended | confidence | as-written member | corrected member |
|---|---|---|---|---|---|---|
| src/pages/rankings/Overall.jsx:128-144 | The success branch sets the players and ends loading but never clears `error`. `error` is rendered before the table. | The first load fails with nothing cached, then the hourly refresh at line 193 succeeds. The page keeps showing "Could not load leaderboard data." | A successful refresh replaces the error with the table. | not executed | LoadPolicies.StickyErrorAfterRefresh | LoadPolicies.RefreshRecovers |
