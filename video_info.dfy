/**
 * `getVideoInfo` of the bot: the record built from what `yt-dlp --get-title --get-duration`
 * printed, in the optimized revisions (four-hour cap, streaming above fifteen minutes) and in
 * the download-only revision (one-hour cap, no streaming), and the optimized revision's
 * metadata cache with its thirty-minute expiry.
 *
 * The yt-dlp run is an input: `Failed` when `exec` reported an error, otherwise its stdout.
 * The clock is an input in milliseconds.
 */
module VideoInfo {
  import opened Wrappers
  import opened JsText
  import opened Durations
  import opened Mojibake
  import opened YouTubeUrls

  /** The title used when none could be read. */
  const Unavailable: string := "Título no disponible"

  /** The resolved record; `duration` is "" for `null`. */
  datatype Info = Info(title: string, duration: string, isLong: bool, shouldStream: bool)

  /** What the yt-dlp run gave. */
  datatype Lookup = Failed | Printed(stdout: string)

  /** The record for a failed lookup: no duration, neither long nor streamed. */
  const FailedInfo: Info := Info(Unavailable, "", false, false)

  /** `lines[i] || fallback`: a missing or empty line gives the fallback. */
  function LineOr(lines: seq<string>, i: nat, fallback: string): (r: string)
    ensures i < |lines| && lines[i] != "" ==> r == lines[i]
    ensures i >= |lines| || lines[i] == "" ==> r == fallback
  {
    if i < |lines| && lines[i] != "" then lines[i] else fallback
  }

  /**
   * The record built from the output lines: the repaired title (first line), the duration text
   * (second line), long beyond `longLimit`, and streamed beyond fifteen minutes when `streams`.
   */
  function InfoFromLines(lines: seq<string>, longLimit: real, streams: bool): (r: Info)
    ensures r.duration == LineOr(lines, 1, "")
    ensures r.isLong <==> r.duration != "" && Above(ParseDurationToSeconds(r.duration), longLimit)
    ensures r.shouldStream <==> streams && r.duration != "" && Above(ParseDurationToSeconds(r.duration), StreamLimit)
  {
    var duration := LineOr(lines, 1, "");
    Info(NormalizeUtf8(LineOr(lines, 0, Unavailable)), duration,
         Exceeds(duration, longLimit), streams && Exceeds(duration, StreamLimit))
  }

  /** `getVideoInfo` after the lookup, in index_optimized.js and its earlier backup. */
  function OptimizedInfo(out: Lookup): (r: Info)
    ensures out.Failed? ==> r == FailedInfo
  {
    match out
    case Failed => FailedInfo
    case Printed(s) => InfoFromLines(Split(Trim(s), '\n'), LongLimit, true)
  }

  /** `getVideoInfo` after the lookup in index_backup.js. */
  function BackupInfo(out: Lookup): (r: Info)
    ensures out.Failed? ==> r == FailedInfo
    ensures !r.shouldStream
  {
    match out
    case Failed => FailedInfo
    case Printed(s) => InfoFromLines(Split(Trim(s), '\n'), BackupLongLimit, false)
  }

  /** In the optimized revisions a video too long to queue would also have been streamed. */
  lemma LongIsStreamed(out: Lookup)
    ensures OptimizedInfo(out).isLong ==> OptimizedInfo(out).shouldStream
  {
  }

  /** A video too long for the optimized revisions is too long for the one-hour cap as well. */
  lemma BackupCapIsStricter(out: Lookup)
    requires out.Printed?
    ensures OptimizedInfo(out).isLong ==> BackupInfo(out).isLong
  {
  }

  /** The fallback title has no mis-encoded pair, so the repair leaves it alone. */
  lemma FallbackTitleKept()
    ensures NormalizeUtf8(Unavailable) == Unavailable
  {
    NormalizeWithoutLead(Unavailable);
  }

  /** A yt-dlp run that prints only white space gives the fallback title and no duration. */
  lemma BlankOutput(s: string)
    requires Trim(s) == ""
    ensures OptimizedInfo(Printed(s)) == FailedInfo
  {
    var lines := Split(Trim(s), '\n');
    assert lines == [""];
    assert LineOr(lines, 0, Unavailable) == Unavailable;
    FallbackTitleKept();
  }

  /** The verdicts on a second line that reads as `secs` seconds. */
  lemma {:induction false} DurationVerdict(title: string, d: string, rest: seq<string>, secs: real)
    requires d != "" && ParseDurationToSeconds(d) == Some(Finite(secs))
    ensures var r := InfoFromLines([title, d] + rest, LongLimit, true);
      (r.isLong <==> secs > LongLimit) && (r.shouldStream <==> secs > StreamLimit)
  {
    assert ([title, d] + rest)[1] == d;
  }

  /**
   * Output whose second line is an "H:M:S" clock: the video is refused exactly when it lasts
   * more than four hours, and streamed exactly when it lasts more than fifteen minutes.
   */
  lemma ClockLine(title: string, fs: seq<string>, rest: seq<string>, total: int)
    requires |fs| == 3 && AllDigits(fs[0]) && AllDigits(fs[1]) && AllDigits(fs[2])
    requires DigitsValue(fs[0]) * 3600 + DigitsValue(fs[1]) * 60 + DigitsValue(fs[2]) == total
    ensures var r := InfoFromLines([title, Join(fs, ':')] + rest, LongLimit, true);
      (r.isLong <==> total > 14400) && (r.shouldStream <==> total > 900)
  {
    ParseHms(fs, total);
    JoinHasColon(fs);
    DurationVerdict(title, Join(fs, ':'), rest, total as real);
  }

  /** The same for an "M:S" clock. */
  lemma MinutesLine(title: string, fs: seq<string>, rest: seq<string>, total: int)
    requires |fs| == 2 && AllDigits(fs[0]) && AllDigits(fs[1])
    requires DigitsValue(fs[0]) * 60 + DigitsValue(fs[1]) == total
    ensures var r := InfoFromLines([title, Join(fs, ':')] + rest, LongLimit, true);
      (r.isLong <==> total > 14400) && (r.shouldStream <==> total > 900)
  {
    ParseMs(fs, total);
    JoinHasColon(fs);
    DurationVerdict(title, Join(fs, ':'), rest, total as real);
  }

  // ---------------------------------------------------------------------------
  // The metadata cache

  /** `CACHE_EXPIRY`: thirty minutes in milliseconds. */
  const Expiry: int := 30 * 60 * 1000

  /** A cached record and the time it was stored. */
  datatype Entry = Entry(data: Info, timestamp: int)

  /** A cached entry is served while younger than the expiry. */
  predicate Fresh(e: Entry, now: int) { now - e.timestamp < Expiry }

  /** The cleanup deletes an entry once it is older than the expiry. */
  predicate Expired(e: Entry, now: int) { now - e.timestamp > Expiry }

  /** The cache hit `getVideoInfo` looks for first. */
  function CacheLookup(entries: map<string, Entry>, key: string, now: int): (r: Option<Info>)
    ensures r.Some? <==> key in entries && Fresh(entries[key], now)
    ensures r.Some? ==> r.value == entries[key].data
  {
    if key in entries && Fresh(entries[key], now) then Some(entries[key].data) else None
  }

  /** What `cleanupExpiredCache` leaves: the entries that have not expired. */
  function Prune(entries: map<string, Entry>, now: int): (r: map<string, Entry>)
    ensures forall k :: k in r <==> k in entries && !Expired(entries[k], now)
    ensures forall k :: k in r ==> r[k] == entries[k]
  {
    map k | k in entries && !Expired(entries[k], now) :: entries[k]
  }

  /** The cleanup never removes an entry a lookup at the same time would serve. */
  lemma PruneKeepsHits(entries: map<string, Entry>, key: string, now: int)
    ensures CacheLookup(Prune(entries, now), key, now) == CacheLookup(entries, key, now)
  {
    if key in entries && Fresh(entries[key], now) {
      assert !Expired(entries[key], now);
    }
  }

  /** Pruning twice at the same time prunes nothing more. */
  lemma PruneIdempotent(entries: map<string, Entry>, now: int)
    ensures Prune(Prune(entries, now), now) == Prune(entries, now)
  {
    var p := Prune(entries, now);
    assert forall k :: k in Prune(p, now) <==> k in p;
  }

  /** The module-level `metadataCache`, keyed by the cleaned URL. */
  class MetadataCache {
    var entries: map<string, Entry>

    constructor()
      ensures entries == map[]
    {
      entries := map[];
    }

    /** `cleanupExpiredCache()`: deletes, one entry at a time, those older than the expiry. */
    method CleanupExpired(now: int)
      modifies this
      ensures entries == Prune(old(entries), now)
    {
      var keys := entries.Keys;
      while keys != {}
        invariant keys <= old(entries).Keys
        invariant forall k :: k in entries <==> k in old(entries) && (k in keys || !Expired(old(entries)[k], now))
        invariant forall k :: k in entries ==> entries[k] == old(entries)[k]
        decreases keys
      {
        var k :| k in keys;
        if now - entries[k].timestamp > Expiry {
          entries := entries - {k};
        }
        keys := keys - {k};
      }
      assert entries.Keys == Prune(old(entries), now).Keys;
    }

    /**
     * `getVideoInfo(url)` of index_optimized.js: a fresh cached record for the cleaned URL is
     * returned as it is; otherwise the lookup's record is returned, and cached unless the lookup
     * failed.
     */
    method GetVideoInfo(url: string, decode: string -> Option<string>, parse: string -> Option<UrlParts>,
                        out: Lookup, now: int) returns (info: Info)
      modifies this
      ensures var key := CleanBotUrl(url, decode, parse);
        match CacheLookup(old(entries), key, now)
        case Some(hit) => info == hit && entries == old(entries)
        case None =>
          info == OptimizedInfo(out)
          && entries == (if out.Failed? then old(entries) else old(entries)[key := Entry(info, now)])
    {
      var key := CleanBotUrl(url, decode, parse);
      var hit := CacheLookup(entries, key, now);
      if hit.Some? {
        return hit.value;
      }
      info := OptimizedInfo(out);
      if out.Printed? {
        entries := entries[key := Entry(info, now)];
      }
    }
  }
}
