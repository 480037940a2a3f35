/** The search bar: a state machine over the typed text, the error line, the
    player shown in the overlay and one clear-error timer. The player list
    arrives once, after mounting, as a `ListResponse`. A timer is an id in
    `pending` until it fires or is cleared; `timerRef` is the ref holding the
    last id armed, which a clear does not reset. */
module SearchBox {
  import opened Util
  import opened Players

  const NotFoundMessage: string := "Player not found"
  const LoadFailedMessage: string := "Failed to load player data."
  const ErrorClearDelay: nat := 2000

  /** The characters `String.prototype.trim` removes: white space and line
      terminators. */
  const JsWhiteSpace: set<char> := {
    '\t', '\n', '\U{000B}', '\U{000C}', '\r', ' ', '\U{00A0}', '\U{1680}',
    '\U{2000}', '\U{2001}', '\U{2002}', '\U{2003}', '\U{2004}', '\U{2005}',
    '\U{2006}', '\U{2007}', '\U{2008}', '\U{2009}', '\U{200A}',
    '\U{2028}', '\U{2029}', '\U{202F}', '\U{205F}', '\U{3000}', '\U{FEFF}'
  }

  /** What `res.json()` yields on the mount fetch, whatever the status: an
      array of player records, or any other JSON value (the error object of
      a non-ok response, `null`, a number). */
  datatype Body = PlayerArray(players: seq<Player>) | OtherJson

  /** The mount fetch has no status check: it either parses a body or
      throws (the request failed, or the body is not JSON). */
  datatype ListResponse = Parsed(body: Body) | Threw

  predicate IsJsSpace(c: char) { c in JsWhiteSpace }

  predicate Blank(s: string) {
    forall i :: 0 <= i < |s| ==> IsJsSpace(s[i])
  }

  /** The index of the first character at or after `i` that is not white
      space, or `|s|`. */
  function SkipSpace(s: string, i: nat): (k: nat)
    requires i <= |s|
    ensures i <= k <= |s|
    ensures forall j :: i <= j < k ==> IsJsSpace(s[j])
    ensures k < |s| ==> !IsJsSpace(s[k])
    decreases |s| - i
  {
    if i < |s| && IsJsSpace(s[i]) then SkipSpace(s, i + 1) else i
  }

  /** The index just past the last character before `j`, and at or after
      `lo`, that is not white space, or `lo`. */
  function SkipSpaceBack(s: string, lo: nat, j: nat): (k: nat)
    requires lo <= j <= |s|
    ensures lo <= k <= j
    ensures forall m :: k <= m < j ==> IsJsSpace(s[m])
    ensures k > lo ==> !IsJsSpace(s[k - 1])
    decreases j
  {
    if j > lo && IsJsSpace(s[j - 1]) then SkipSpaceBack(s, lo, j - 1) else j
  }

  /** `s.trim()`: a slice of `s` that neither starts nor ends with white
      space, with only white space cut on either side. */
  function Trim(s: string): (r: string)
    ensures exists a, b :: 0 <= a <= b <= |s| && r == s[a..b]
                           && (forall i :: 0 <= i < a ==> IsJsSpace(s[i]))
                           && (forall i :: b <= i < |s| ==> IsJsSpace(s[i]))
    ensures |r| > 0 ==> !IsJsSpace(r[0]) && !IsJsSpace(r[|r| - 1])
  {
    var a := SkipSpace(s, 0);
    var b := SkipSpaceBack(s, a, |s|);
    s[a..b]
  }

  /** The submit guard `!text.trim()`: the trimmed text is empty exactly
      when every character is white space. */
  lemma TrimEmptyIffBlank(s: string)
    ensures Trim(s) == "" <==> Blank(s)
  {
    var a := SkipSpace(s, 0);
    var b := SkipSpaceBack(s, a, |s|);
    assert Trim(s) == s[a..b];
    if a == b {
      assert Blank(s) by {
        forall i | 0 <= i < |s| ensures IsJsSpace(s[i]) {
          if i >= a {
            assert b <= i;
          }
        }
      }
    }
  }

  /** `toLowerCase` on the ASCII letters. */
  function LowerChar(c: char): char {
    if 'A' <= c <= 'Z' then (c as int - 'A' as int + 'a' as int) as char else c
  }

  function Lower(s: string): (r: string)
    ensures |r| == |s|
    ensures forall i :: 0 <= i < |s| ==> r[i] == LowerChar(s[i])
  {
    seq(|s|, i requires 0 <= i < |s| => LowerChar(s[i]))
  }

  lemma LowerIdempotent(s: string)
    ensures Lower(Lower(s)) == Lower(s)
  {
  }

  /** The player a submit finds: the first whose lower-cased username equals
      the lower-cased text, which is not trimmed. */
  function Lookup(players: seq<Player>, text: string): (r: Option<Player>)
    ensures r.Some? <==> exists i :: 0 <= i < |players| && Lower(players[i].username) == Lower(text)
    ensures r.Some? ==> exists i :: 0 <= i < |players| && players[i] == r.value
                          && Lower(r.value.username) == Lower(text)
                          && forall j :: 0 <= j < i ==> Lower(players[j].username) != Lower(text)
  {
    match FindFirst(players, (p: Player) => Lower(p.username) == Lower(text))
    case None => None
    case Some(i) => Some(players[i])
  }

  /** The search is case-insensitive: the text and its lower-cased form
      find the same player. */
  lemma LookupIgnoresCase(players: seq<Player>, text: string)
    ensures Lookup(players, Lower(text)) == Lookup(players, text)
  {
    LowerIdempotent(text);
  }

  /** Because the text is not trimmed, a trailing space makes every
      username without one miss. */
  lemma TrailingSpaceMisses(players: seq<Player>, text: string)
    requires |text| > 0 && text[|text| - 1] == ' '
    requires forall i :: 0 <= i < |players| ==> ' ' !in players[i].username
    ensures Lookup(players, text).None?
  {
  }

  class SearchBar {
    var searchText: string
    var error: string
    var playerData: Option<Player>
    var loading: bool
    var allPlayers: Body
    var timerRef: Option<nat>
    var pending: set<nat>
    var nextTimer: nat

    /** Every pending timer is the one the ref holds, so at most one is
        pending; ids are handed out fresh. */
    predicate Valid()
      reads this
    {
      && (forall id :: id in pending ==> timerRef == Some(id))
      && (timerRef.Some? ==> timerRef.value < nextTimer)
    }

    constructor()
      ensures Valid()
      ensures searchText == "" && error == "" && playerData.None? && !loading
      ensures allPlayers == PlayerArray([]) && timerRef.None? && pending == {}
    {
      searchText := "";
      error := "";
      playerData := None;
      loading := false;
      allPlayers := PlayerArray([]);
      timerRef := None;
      pending := {};
      nextTimer := 1;
    }

    /** `startErrorTimeout`: cancel the timer in the ref, arm a new one. */
    method ArmErrorTimer()
      requires Valid()
      modifies this
      ensures Valid()
      ensures timerRef == Some(old(nextTimer)) && pending == {old(nextTimer)}
      ensures nextTimer == old(nextTimer) + 1
      ensures searchText == old(searchText) && error == old(error) && playerData == old(playerData)
      ensures loading == old(loading) && allPlayers == old(allPlayers)
    {
      if timerRef.Some? {
        pending := pending - {timerRef.value};
      }
      timerRef := Some(nextTimer);
      pending := {nextTimer};
      nextTimer := nextTimer + 1;
    }

    /** `clearTimeout(errorTimeoutRef.current)`, guarded by the ref. */
    method CancelTimer()
      requires Valid()
      modifies this
      ensures Valid() && pending == {}
      ensures timerRef == old(timerRef) && nextTimer == old(nextTimer)
      ensures searchText == old(searchText) && error == old(error) && playerData == old(playerData)
      ensures loading == old(loading) && allPlayers == old(allPlayers)
    {
      if timerRef.Some? {
        pending := pending - {timerRef.value};
      }
    }

    /** The player list arrives after mounting. Any parsed body is stored,
        whether or not it is a player array; only a throw shows the load
        error. */
    method Loaded(response: ListResponse)
      requires Valid()
      modifies this
      ensures Valid()
      ensures response.Parsed? ==> allPlayers == response.body && error == old(error)
                                   && pending == old(pending) && timerRef == old(timerRef)
      ensures response.Threw? ==> allPlayers == old(allPlayers) && error == LoadFailedMessage
                                  && timerRef == Some(old(nextTimer)) && pending == {old(nextTimer)}
      ensures searchText == old(searchText) && playerData == old(playerData) && loading == old(loading)
    {
      if response.Parsed? {
        allPlayers := response.body;
      } else {
        error := LoadFailedMessage;
        ArmErrorTimer();
      }
    }

    /** `handleSearch`. When the stored body is not an array, `find` throws
        after the error and the result were cleared and loading was set, and
        those updates stay: the bar is left loading with no message. */
    method Submit()
      requires Valid()
      modifies this
      ensures Blank(old(searchText)) ==>
                searchText == old(searchText) && error == old(error) && playerData == old(playerData)
                && loading == old(loading) && pending == old(pending) && timerRef == old(timerRef)
      ensures !Blank(old(searchText)) && allPlayers.OtherJson? ==>
                loading && error == "" && playerData.None? && searchText == old(searchText)
                && pending == old(pending) && timerRef == old(timerRef)
      ensures !Blank(old(searchText)) && allPlayers.PlayerArray? ==>
                var found := Lookup(allPlayers.players, old(searchText));
                && !loading && playerData == found
                && (found.Some? ==> error == "" && searchText == old(searchText)
                                    && pending == old(pending) && timerRef == old(timerRef))
                && (found.None? ==> error == NotFoundMessage && searchText == ""
                                    && timerRef == Some(old(nextTimer)) && pending == {old(nextTimer)})
      ensures Valid() && allPlayers == old(allPlayers)
    {
      // `!searchText.trim()`, which is `Blank` by TrimEmptyIffBlank
      if Blank(searchText) {
        return;
      }
      error := "";
      playerData := None;
      loading := true;
      if allPlayers.OtherJson? {
        return;
      }
      var found := Lookup(allPlayers.players, searchText);
      if found.Some? {
        playerData := found;
      } else {
        error := NotFoundMessage;
        searchText := "";
        ArmErrorTimer();
      }
      loading := false;
    }

    /** A keystroke: the text is replaced; a showing error is cleared with
        its timer. */
    method Type(text: string)
      requires Valid()
      modifies this
      ensures Valid() && searchText == text
      ensures old(error) != "" ==> error == "" && pending == {}
      ensures old(error) == "" ==> error == "" && pending == old(pending)
      ensures timerRef == old(timerRef) && playerData == old(playerData)
      ensures loading == old(loading) && allPlayers == old(allPlayers)
    {
      searchText := text;
      if error != "" {
        error := "";
        CancelTimer();
      }
    }

    /** A pending timer fires after two seconds and clears the error. */
    method Fire(id: nat)
      requires Valid() && id in pending
      modifies this
      ensures Valid() && error == "" && pending == {}
      ensures timerRef == old(timerRef) && searchText == old(searchText) && playerData == old(playerData)
      ensures loading == old(loading) && allPlayers == old(allPlayers)
    {
      error := "";
      pending := pending - {id};
    }

    /** `closeOverlay`: back to the empty bar, with no timer pending. */
    method Close()
      requires Valid()
      modifies this
      ensures Valid()
      ensures playerData.None? && searchText == "" && error == "" && pending == {}
      ensures loading == old(loading) && allPlayers == old(allPlayers) && timerRef == old(timerRef)
    {
      playerData := None;
      searchText := "";
      error := "";
      CancelTimer();
    }
  }

  /** At most one clear-timer is ever pending. */
  lemma AtMostOneTimer(bar: SearchBar)
    requires bar.Valid()
    ensures |bar.pending| <= 1
  {
    if bar.timerRef.Some? && bar.timerRef.value in bar.pending {
      assert bar.pending == {bar.timerRef.value};
    } else {
      assert bar.pending == {};
    }
  }

  /** A miss shows the not-found message, and firing the timer it armed
      clears that message and leaves no timer pending. */
  method MissThenTimer(players: seq<Player>, text: string) returns (shownError: string, afterFire: string, left: nat)
    requires !Blank(text) && Lookup(players, text).None?
    ensures shownError == NotFoundMessage && afterFire == "" && left == 0
  {
    var bar := new SearchBar();
    bar.Loaded(Parsed(PlayerArray(players)));
    bar.Type(text);
    bar.Submit();
    shownError := bar.error;
    bar.Fire(bar.timerRef.value);
    afterFire := bar.error;
    left := |bar.pending|;
  }

  /** A non-ok response whose body parses (an error object) is stored as the
      list; a later search then stays loading and shows no message. */
  method ErrorBodyLeavesLoading(text: string) returns (stillLoading: bool, shownError: string, shown: Option<Player>)
    requires !Blank(text)
    ensures stillLoading && shownError == "" && shown.None?
  {
    var bar := new SearchBar();
    bar.Loaded(Parsed(OtherJson));
    bar.Type(text);
    bar.Submit();
    stillLoading, shownError, shown := bar.loading, bar.error, bar.playerData;
  }
}
