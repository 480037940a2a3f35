/** `cachedFetch`: a module-level dictionary from URL to decoded response
    that the tier pages consult before going to the network. It is filled
    only by a successful response and never emptied. */
module UrlMemo {
  import opened Util
  import opened Players

  /** The answer to `cachedFetch(url)` when the network would answer
      `outcome`: the memoised data if the URL is known (an array, so always
      truthy), otherwise the network's outcome. */
  function Answer(entries: map<string, seq<Player>>, url: string, outcome: FetchOutcome): FetchOutcome {
    if url in entries then Ok(entries[url]) else outcome
  }

  /** The dictionary after `cachedFetch(url)`. */
  function Remembered(entries: map<string, seq<Player>>, url: string, outcome: FetchOutcome)
    : (s: map<string, seq<Player>>)
    ensures entries.Keys <= s.Keys
    ensures forall u :: u in entries ==> s[u] == entries[u]
    ensures s.Keys <= entries.Keys + {url}
    ensures url in s <==> url in entries || outcome.Ok?
  {
    if url !in entries && outcome.Ok? then entries[url := outcome.data] else entries
  }

  /** Once a URL has been answered successfully, every later call for it
      gives the same data, whatever the network would say, and changes
      nothing. */
  lemma SuccessIsMemoised(entries: map<string, seq<Player>>, url: string, first: FetchOutcome, later: FetchOutcome)
    requires Answer(entries, url, first).Ok?
    ensures var s := Remembered(entries, url, first);
            && Answer(s, url, later) == Answer(entries, url, first)
            && Remembered(s, url, later) == s
  {
  }

  /** A failure leaves the dictionary as it was, so the next call for the
      URL goes back to the network. */
  lemma FailureIsNotMemoised(entries: map<string, seq<Player>>, url: string)
    requires url !in entries
    ensures Remembered(entries, url, Fail) == entries
    ensures url !in Remembered(entries, url, Fail)
  {
  }

  class FetchMemo {
    var entries: map<string, seq<Player>>
    /** The URLs actually requested from the network, in order. */
    var requests: seq<string>

    constructor()
      ensures entries == map[] && requests == []
    {
      entries := map[];
      requests := [];
    }

    /** `cachedFetch(url)`; a `Fail` result is the thrown error. */
    method Fetch(url: string, outcome: FetchOutcome) returns (r: FetchOutcome)
      modifies this
      ensures r == Answer(old(entries), url, outcome)
      ensures entries == Remembered(old(entries), url, outcome)
      ensures url in old(entries) ==> requests == old(requests)
      ensures url !in old(entries) ==> requests == old(requests) + [url]
    {
      if url in entries {
        return Ok(entries[url]);
      }
      requests := requests + [url];
      if outcome.Fail? {
        return Fail;
      }
      entries := entries[url := outcome.data];
      return outcome;
    }
  }
}
