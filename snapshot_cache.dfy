/** The leaderboard snapshot cache the two leaderboards keep in the
    browser's local storage: one `{timestamp, data}` record per gamemode
    under a prefixed key, valid for ten minutes. Storage is a map field; the
    text/JSON layer is abstracted to "a record that parsed" or "anything
    else"; the clock is the `now` parameter; a failing write (quota
    exceeded) is the `writeFails` parameter. */
module SnapshotCache {
  import opened Util
  import opened Players

  const KeyPrefix: string := "leaderboard_cache_"
  const Expiration: int := 10 * 60 * 1000

  /** A stored item: either text that parses as an object, with its
      `timestamp` and `data` fields (absent or null as `None`), or anything
      else (an empty string, text that is not JSON). */
  datatype Entry = Malformed | Stored(timestamp: Option<int>, data: Option<seq<Player>>)

  function Key(mode: string): string { KeyPrefix + mode }

  lemma KeyInjective(a: string, b: string)
    requires Key(a) == Key(b)
    ensures a == b
  {
    assert a == Key(a)[|KeyPrefix|..];
    assert b == Key(b)[|KeyPrefix|..];
  }

  /** Both fields pass the truth test: a timestamp of 0 is falsy, and an
      array is always truthy. */
  predicate WellFormed(e: Entry) {
    e.Stored? && e.timestamp.Some? && e.timestamp.value != 0 && e.data.Some?
  }

  predicate Expired(e: Entry, now: int) {
    WellFormed(e) && now - e.timestamp.value > Expiration
  }

  /** What `getCachedData(mode)` returns at time `now`. */
  function ReadResult(entries: map<string, Entry>, mode: string, now: int): (r: Option<seq<Player>>)
    ensures r.Some? <==> Key(mode) in entries && WellFormed(entries[Key(mode)])
                         && now - entries[Key(mode)].timestamp.value <= Expiration
    ensures r.Some? ==> r == entries[Key(mode)].data
  {
    if Key(mode) !in entries then None
    else
      var e := entries[Key(mode)];
      if !WellFormed(e) then None
      else if now - e.timestamp.value > Expiration then None
      else e.data
  }

  /** The storage after `getCachedData(mode)`: only a well-formed entry
      older than the window is removed; a malformed one stays. */
  function AfterRead(entries: map<string, Entry>, mode: string, now: int): (s: map<string, Entry>)
    ensures Key(mode) in entries && Expired(entries[Key(mode)], now) ==> s == entries - {Key(mode)}
    ensures !(Key(mode) in entries && Expired(entries[Key(mode)], now)) ==> s == entries
  {
    if Key(mode) in entries && Expired(entries[Key(mode)], now) then entries - {Key(mode)} else entries
  }

  /** The storage after `setCachedData(mode, data)` at time `now`. */
  function AfterWrite(entries: map<string, Entry>, mode: string, data: seq<Player>, now: int, writeFails: bool)
    : (s: map<string, Entry>)
    ensures forall k :: k != Key(mode) ==> (k in s <==> k in entries)
    ensures forall k :: k != Key(mode) && k in s ==> s[k] == entries[k]
    ensures writeFails ==> s == entries
    ensures !writeFails ==> Key(mode) in s && s[Key(mode)] == Stored(Some(now), Some(data))
  {
    if writeFails then entries else entries[Key(mode) := Stored(Some(now), Some(data))]
  }

  /** Round trip: what is written at `t` is read back unchanged, and not
      evicted, at any `t2` at most ten minutes later. A write at time 0 is
      never read back, since its timestamp is falsy. */
  lemma RoundTrip(entries: map<string, Entry>, mode: string, data: seq<Player>, t: int, t2: int)
    requires t2 - t <= Expiration
    ensures var s := AfterWrite(entries, mode, data, t, false);
            && (ReadResult(s, mode, t2) == Some(data) <==> t != 0)
            && AfterRead(s, mode, t2) == s
  {
  }

  /** Expiry: strictly more than ten minutes after the write, the read
      misses and removes the record, and nothing else. */
  lemma ExpiryEvicts(entries: map<string, Entry>, mode: string, data: seq<Player>, t: int, t2: int)
    requires t != 0 && t2 - t > Expiration
    ensures var s := AfterWrite(entries, mode, data, t, false);
            && ReadResult(s, mode, t2).None?
            && AfterRead(s, mode, t2) == s - {Key(mode)}
            && Key(mode) !in AfterRead(s, mode, t2)
  {
  }

  /** A malformed record is a silent miss at every time and is never
      removed. */
  lemma MalformedIsSilentMiss(entries: map<string, Entry>, mode: string, now: int)
    requires Key(mode) in entries && !WellFormed(entries[Key(mode)])
    ensures ReadResult(entries, mode, now).None?
    ensures AfterRead(entries, mode, now) == entries
  {
  }

  /** Reading twice at the same time gives the same answer as reading once
      and leaves the storage as the first read left it. */
  lemma ReadIdempotent(entries: map<string, Entry>, mode: string, now: int)
    ensures ReadResult(AfterRead(entries, mode, now), mode, now) == ReadResult(entries, mode, now)
    ensures AfterRead(AfterRead(entries, mode, now), mode, now) == AfterRead(entries, mode, now)
  {
  }

  /** Local storage, shared by every view of the page. */
  class LeaderboardStore {
    var entries: map<string, Entry>

    constructor(initial: map<string, Entry>)
      ensures entries == initial
    {
      entries := initial;
    }

    /** `getCachedData` */
    method Get(mode: string, now: int) returns (r: Option<seq<Player>>)
      modifies this
      ensures r == ReadResult(old(entries), mode, now)
      ensures entries == AfterRead(old(entries), mode, now)
    {
      var key := Key(mode);
      if key !in entries {
        return None;
      }
      var item := entries[key];
      if item.Malformed? || item.timestamp.None? || item.timestamp.value == 0 || item.data.None? {
        return None;
      }
      if now - item.timestamp.value > Expiration {
        entries := entries - {key};
        return None;
      }
      return item.data;
    }

    /** `setCachedData`: best effort; a failing write changes nothing and
        raises nothing. */
    method Put(mode: string, data: seq<Player>, now: int, writeFails: bool)
      modifies this
      ensures entries == AfterWrite(old(entries), mode, data, now, writeFails)
    {
      if !writeFails {
        entries := entries[Key(mode) := Stored(Some(now), Some(data))];
      }
    }
  }
}
