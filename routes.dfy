/** Route parameters, request URLs and redirect paths shared by the ranking
    views. */
module Routes {
  import opened Util
  import opened Players

  const RankingsPrefix: string := "/rankings/"
  const GamemodeQuery: string := "?gamemode="

  /** `rawGamemode || fallback`: an absent or empty route parameter is
      replaced by the view's default. */
  function ModeOrDefault(raw: Option<string>, fallback: string): (r: string)
    ensures Present(raw) ==> r == raw.value
    ensures !Present(raw) ==> r == fallback
  {
    if Present(raw) then raw.value else fallback
  }

  function RankingPath(mode: string): string { RankingsPrefix + mode }

  /** A leaderboard view accepts "overall" and the modes of its list. */
  predicate IsValidView(mode: string, valid: seq<string>) {
    mode == "overall" || mode in valid
  }

  /** The request for a gamemode's standings. */
  function GamemodeUrl(base: string, mode: string): string {
    base + GamemodeQuery + mode
  }

  /** The leaderboard request: the bare base for "overall", the filtered
      one for any other mode. */
  function LeaderboardUrl(base: string, mode: string): string {
    if mode == "overall" then base else GamemodeUrl(base, mode)
  }

  /** The mode a leaderboard URL asks for. */
  function ModeOfUrl(base: string, url: string): (r: Option<string>)
    ensures r.Some? ==> url == base || (|url| >= |base + GamemodeQuery| && url[..|base + GamemodeQuery|] == base + GamemodeQuery)
  {
    if url == base then Some("overall")
    else if |url| >= |base + GamemodeQuery| && url[..|base + GamemodeQuery|] == base + GamemodeQuery
    then Some(url[|base + GamemodeQuery|..])
    else None
  }

  /** Round trip: the mode is recovered from its URL, so two modes never
      share a request (and so never share a memo entry). */
  lemma UrlRoundTrip(base: string, mode: string)
    ensures ModeOfUrl(base, LeaderboardUrl(base, mode)) == Some(mode)
  {
    if mode != "overall" {
      var url := GamemodeUrl(base, mode);
      assert |url| > |base|;
      assert url[..|base + GamemodeQuery|] == base + GamemodeQuery;
      assert url[|base + GamemodeQuery|..] == mode;
    }
  }

  lemma UrlInjective(base: string, a: string, b: string)
    requires LeaderboardUrl(base, a) == LeaderboardUrl(base, b)
    ensures a == b
  {
    UrlRoundTrip(base, a);
    UrlRoundTrip(base, b);
  }
}
