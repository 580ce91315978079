/**
 * The song-queue state machine of index_optimized.js.
 *
 * The bot keeps module-level state: the `queue` whose head is the song playing, the repeat
 * snapshot `originalPlaylist`, `currentSong`, the flags `isProcessing`, `isSeeking`,
 * `isRepeatMode` and `isLoopingSong`, the voice connection, the in-flight URL set
 * `addingSongs`, the registry of yt-dlp children `processes`, `currentSeekPosition` and the
 * volume. Every Discord command and every child-process or player callback changes that state
 * and returns; each is one transition here.
 *
 * `State` is that state as a value and each transition a function on it; `Bot` holds the same
 * fields and its methods make the changes one field at a time, as the handlers do, each proved
 * to end in the state its function gives. What the outside world answers (whether the voice
 * connection came up, how a download ended, whether a player exists, the draws of
 * `Math.random`) comes in as parameters.
 */
module OptimizedBot {
  import opened Wrappers
  import opened Sequences
  import opened Songs
  import opened Shuffle
  import opened JsText
  import opened Durations
  import opened VideoInfo

  /** A downloaded file under this many bytes counts as a failed download. */
  const MinFileSize: int := 10000

  /** `!skip n` accepts at most this many songs. */
  const MaxSkip: int := 20

  /** The volume the bot starts at, in percent. */
  const InitialVolume: int := 50

  /**
   * The bot's state. `connected` says whether the voice connection is up; `seekPosition` is
   * `currentSeekPosition`, `None` standing for `NaN`; `volume` is `currentVolume` in percent.
   */
  datatype State = State(
    queue: seq<Song>, original: seq<Song>, current: Option<Song>,
    processing: bool, seeking: bool, repeat: bool, looping: bool,
    connected: bool, adding: set<string>, processes: set<int>,
    seekPosition: Option<int>, volume: int)

  /** The state at start-up, before any saved queue is loaded. */
  const Initial: State := State([], [], None, false, false, false, false, false, {}, {}, Some(0), InitialVolume)

  /** While a song is current, the connection is up and that song is still the queue's head. */
  predicate HeadIsCurrent(s: State)
  {
    s.current.Some? ==> s.connected && s.queue != [] && s.queue[0] == s.current.value
  }

  /** The repeat snapshot never holds two songs with the same URL. */
  predicate SnapshotUnique(s: State)
  {
    UniqueUrls(s.original)
  }

  /** Neither the queue nor the repeat snapshot holds two songs with the same URL. */
  predicate NoDuplicates(s: State)
  {
    UniqueUrls(s.queue) && UniqueUrls(s.original)
  }

  // ---------------------------------------------------------------------------
  // playNextInQueue

  /**
   * `playNextInQueue`: nothing while a song is being processed or when the voice connection
   * cannot be made; on an empty queue, a refill from the snapshot when repeat is on and the
   * snapshot is not empty, and otherwise going idle (disconnecting, no current song, snapshot
   * cleared); then the head becomes the current song and stays queued.
   */
  function PlayNext(s: State, joinOk: bool): (r: State)
    ensures s.processing ==> r == s
    ensures r.queue == s.queue || (s.queue == [] && r.queue == s.original)
    ensures r.processing && !s.processing ==> r.queue != [] && r.current == Some(r.queue[0])
    ensures r.adding == s.adding && r.processes == s.processes && r.volume == s.volume
    ensures HeadIsCurrent(s) ==> HeadIsCurrent(r)
    ensures SnapshotUnique(s) ==> SnapshotUnique(r)
    ensures NoDuplicates(s) ==> NoDuplicates(r)
  {
    if s.processing then s
    else if !s.connected && !joinOk then s
    else if s.queue == [] && !(s.repeat && s.original != []) then
      s.(connected := false, current := None, processing := false, original := [])
    else
      var q := if s.queue == [] then s.original else s.queue;
      s.(connected := true, queue := q, processing := true, current := Some(q[0]))
  }

  /** On an empty queue: a copy of the snapshot when repeat is on, otherwise idle with the snapshot cleared. */
  lemma PlayNextOnEmpty(s: State, joinOk: bool)
    requires !s.processing && (s.connected || joinOk) && s.queue == []
    ensures var r := PlayNext(s, joinOk);
      if s.repeat && s.original != [] then
        r.queue == s.original && r.processing && r.current == Some(s.original[0])
      else
        r.current.None? && !r.processing && r.original == [] && r.queue == []
  {
  }

  /** On a non-empty queue the head starts, without being removed. */
  lemma PlayNextStartsHead(s: State, joinOk: bool)
    requires !s.processing && (s.connected || joinOk) && s.queue != []
    ensures var r := PlayNext(s, joinOk);
      r.processing && r.current == Some(s.queue[0]) && r.queue == s.queue && r.original == s.original
  {
  }

  // ---------------------------------------------------------------------------
  // addSongToQueue

  /** How `addSongToQueue` left off before the metadata lookup. */
  datatype AddStart = Ignored | Duplicate | Pending

  /** The URL is queued or is the current song's. */
  predicate Present(s: State, url: string)
  {
    HasUrl(s.queue, url) || (s.current.Some? && s.current.value.url == url)
  }

  /**
   * `addSongToQueue` up to the `await` of the metadata lookup: a URL already being added is
   * ignored, one already queued or playing is refused, and otherwise it is marked as being
   * added. Only the last case changes anything.
   */
  function BeginAdd(s: State, url: string): (r: (State, AddStart))
    ensures r.1 == Pending <==> url !in s.adding && !Present(s, url)
    ensures r.1 != Pending ==> r.0 == s
    ensures r.1 == Pending ==> r.0 == s.(adding := s.adding + {url})
  {
    if url in s.adding then (s, Ignored)
    else if Present(s, url) then (s, Duplicate)
    else (s.(adding := s.adding + {url}), Pending)
  }

  /** The queue entry built from the lookup. */
  function SongOf(url: string, info: Info): Song
  {
    Song(url, info.title, info.duration, info.shouldStream)
  }

  /**
   * The rest of `addSongToQueue` once the lookup resolved, as written: a video too long is
   * dropped; otherwise it is appended to the queue, to the snapshot unless its URL is there
   * already, and playback starts if nothing is being processed. The URL's mark is released on
   * every path. The duplicate check is not repeated after the lookup.
   */
  function FinishAddAsWritten(s: State, url: string, info: Info, joinOk: bool): (r: State)
    ensures r.adding == s.adding - {url}
    ensures info.isLong ==> r == s.(adding := s.adding - {url})
    ensures !info.isLong ==> r.queue == s.queue + [SongOf(url, info)]
    ensures !info.isLong ==> r.original == AppendIfAbsent(s.original, SongOf(url, info))
    ensures HeadIsCurrent(s) ==> HeadIsCurrent(r)
    ensures SnapshotUnique(s) ==> SnapshotUnique(r)
  {
    if info.isLong then s.(adding := s.adding - {url})
    else
      var song := SongOf(url, info);
      assert SnapshotUnique(s) ==> UniqueUrls(AppendIfAbsent(s.original, song)) by {
        if SnapshotUnique(s) {
          AppendIfAbsentUnique(s.original, song);
        }
      }
      var s1 := s.(queue := s.queue + [song], original := AppendIfAbsent(s.original, song));
      var s2 := if !s1.processing then PlayNext(s1, joinOk) else s1;
      s2.(adding := s2.adding - {url})
  }

  /**
   * The rest of `addSongToQueue` with the duplicate check repeated once the lookup resolved:
   * a video too long, or a URL that became queued or current during the lookup, only
   * releases the mark; otherwise the song is added as above.
   */
  function FinishAdd(s: State, url: string, info: Info, joinOk: bool): (r: State)
    ensures r.adding == s.adding - {url}
    ensures info.isLong || Present(s, url) ==> r == s.(adding := s.adding - {url})
    ensures !info.isLong && !Present(s, url) ==>
              r.queue == s.queue + [SongOf(url, info)] && r.original == AppendIfAbsent(s.original, SongOf(url, info))
    ensures HeadIsCurrent(s) ==> HeadIsCurrent(r)
    ensures SnapshotUnique(s) ==> SnapshotUnique(r)
    ensures NoDuplicates(s) ==> NoDuplicates(r)
  {
    if info.isLong || Present(s, url) then s.(adding := s.adding - {url})
    else
      var r := FinishAddAsWritten(s, url, info, joinOk);
      assert NoDuplicates(s) ==> UniqueUrls(r.queue) by {
        if NoDuplicates(s) {
          AppendUnique(s.queue, SongOf(url, info));
        }
      }
      r
  }

  /**
   * As written, an add whose lookup is still pending when the last song ends with repeat on,
   * for a URL the snapshot already holds: the refill copies the snapshot into the queue and
   * the resolved add pushes the URL again, so the queue holds it twice. Repeating the check
   * after the lookup leaves the refilled queue as it is.
   */
  lemma {:induction false} RefillDuringAddQueuesTwice(s: State, url: string, info: Info, joinOk: bool)
    requires HeadIsCurrent(s) && s.current.Some? && |s.queue| == 1 && s.repeat && !s.looping && !s.seeking
    requires HasUrl(s.original, url) && url !in s.adding && !Present(s, url) && !info.isLong
    ensures BeginAdd(s, url).1 == Pending
    ensures var t := PlaybackEnded(BeginAdd(s, url).0, joinOk);
      t.queue == s.original
      && !UniqueUrls(FinishAddAsWritten(t, url, info, joinOk).queue)
      && FinishAdd(t, url, info, joinOk).queue == s.original
  {
    var t := PlaybackEnded(BeginAdd(s, url).0, joinOk);
    assert Shift(s.queue) == [];
    assert t.queue == s.original;
    AppendUnique(t.queue, SongOf(url, info));
  }

  /** A URL already queued, playing or being added leaves the whole state as it was. */
  lemma AddOfPresentUrlChangesNothing(s: State, url: string)
    requires url in s.adding || Present(s, url)
    ensures BeginAdd(s, url).0 == s && BeginAdd(s, url).1 != Pending
  {
  }

  /**
   * Two adds of the same URL racing through the lookup: the second finds the URL marked and is
   * ignored, so the URL is queued at most once.
   */
  lemma ConcurrentAddIgnored(s: State, url: string, info: Info, joinOk: bool)
    requires BeginAdd(s, url).1 == Pending
    ensures var t := BeginAdd(s, url).0;
      BeginAdd(t, url) == (t, Ignored)
  {
  }

  /**
   * Both halves together: a URL not yet present whose video is not too long ends up at the
   * tail exactly once more than before, and its mark is gone.
   */
  lemma {:induction false} AddAppendsOnce(s: State, url: string, info: Info, joinOk: bool)
    requires url !in s.adding && !Present(s, url) && !info.isLong
    ensures var r := FinishAdd(BeginAdd(s, url).0, url, info, joinOk);
      r.queue == s.queue + [SongOf(url, info)] && url !in r.adding && r.adding == s.adding
      && HasUrl(r.queue, url)
  {
    var r := FinishAdd(BeginAdd(s, url).0, url, info, joinOk);
    assert r.queue[|s.queue|].url == url;
  }

  // ---------------------------------------------------------------------------
  // Dropping the head: the download failure handlers and the end of a song

  /** `queue.shift(); isProcessing = false; playNextInQueue()`. */
  function DropHead(s: State, joinOk: bool): (r: State)
    ensures s.connected && |s.queue| > 1 ==>
              r.queue == s.queue[1..] && r.processing && r.current == Some(s.queue[1])
    ensures HeadIsCurrent(s) ==> HeadIsCurrent(r)
    ensures SnapshotUnique(s) ==> SnapshotUnique(r)
    ensures NoDuplicates(s) ==> NoDuplicates(r)
  {
    assert NoDuplicates(s) ==> UniqueUrls(Shift(s.queue)) by {
      if NoDuplicates(s) && s.queue != [] {
        SuffixUnique(s.queue, 1);
      }
    }
    PlayNext(s.(queue := Shift(s.queue), processing := false), joinOk)
  }

  /** How a yt-dlp download ended: the timer fired, the spawn failed, or the child closed. */
  datatype Download = TimedOut | SpawnFailed | Closed(exitCode: Option<int>, fileExists: bool, size: int)

  /** A download outcome after which the song cannot be played. */
  predicate Failed(d: Download)
  {
    match d
    case TimedOut => true
    case SpawnFailed => true
    case Closed(code, fileExists, size) => code != Some(0) || !fileExists || size < MinFileSize
  }

  /**
   * The callbacks of `playWithDownload`: a close removes the child from the registry; a
   * timeout, a spawn error, a non-zero exit, a missing file or one under 10000 bytes drops the
   * head and moves on; a good file starts playing and changes nothing else.
   */
  function DownloadDone(s: State, pid: int, d: Download, joinOk: bool): (r: State)
    ensures Failed(d) && !d.Closed? ==> r == DropHead(s, joinOk)
    ensures Failed(d) && d.Closed? ==> r == DropHead(s.(processes := s.processes - {pid}), joinOk)
    ensures !Failed(d) ==> r == s.(processes := s.processes - {pid})
    ensures HeadIsCurrent(s) ==> HeadIsCurrent(r)
    ensures SnapshotUnique(s) ==> SnapshotUnique(r)
    ensures NoDuplicates(s) ==> NoDuplicates(r)
  {
    match d
    case TimedOut => DropHead(s, joinOk)
    case SpawnFailed => DropHead(s, joinOk)
    case Closed(code, fileExists, size) =>
      var s1 := s.(processes := s.processes - {pid});
      if code != Some(0) || !fileExists || size < MinFileSize then DropHead(s1, joinOk) else s1
  }

  /** `processes.add(child)` when a download is spawned. */
  function DownloadSpawned(s: State, pid: int): (r: State)
    ensures r.processes == s.processes + {pid} && r == s.(processes := r.processes)
  {
    s.(processes := s.processes + {pid})
  }

  /**
   * The player's Idle callback: ignored while seeking; with the song looping the same head is
   * replayed; otherwise the head is shifted and the next song started.
   */
  function PlaybackEnded(s: State, joinOk: bool): (r: State)
    ensures s.seeking ==> r == s
    ensures HeadIsCurrent(s) ==> HeadIsCurrent(r)
    ensures SnapshotUnique(s) ==> SnapshotUnique(r)
    ensures NoDuplicates(s) ==> NoDuplicates(r)
  {
    if s.seeking then s
    else if s.looping then PlayNext(s.(processing := false), joinOk)
    else DropHead(s, joinOk)
  }

  /** Looping replays the same head and leaves the queue alone. */
  lemma LoopReplaysHead(s: State, joinOk: bool)
    requires HeadIsCurrent(s) && s.current.Some? && s.looping && !s.seeking
    ensures var r := PlaybackEnded(s, joinOk);
      r.queue == s.queue && r.current == s.current && r.processing
  {
  }

  /** Without looping, exactly the head is shifted and the next song becomes current. */
  lemma EndShiftsHead(s: State, joinOk: bool)
    requires HeadIsCurrent(s) && s.current.Some? && !s.looping && !s.seeking && |s.queue| > 1
    ensures var r := PlaybackEnded(s, joinOk);
      r.queue == s.queue[1..] && r.current == Some(s.queue[1]) && r.processing
  {
  }

  /** With the last song over and repeat off, the bot goes idle and forgets the snapshot. */
  lemma EndOfLastSong(s: State, joinOk: bool)
    requires HeadIsCurrent(s) && s.current.Some? && !s.looping && !s.seeking && |s.queue| == 1 && !s.repeat
    ensures var r := PlaybackEnded(s, joinOk);
      r.queue == [] && r.current.None? && !r.processing && r.original == [] && !r.connected
  {
  }

  // ---------------------------------------------------------------------------
  // Commands

  /** `parseInt(arg)` accepted as a position: `!position` rejects both `NaN` and 0. */
  function PositionArg(arg: string): (r: Option<int>)
    ensures r.Some? <==> ParseIntOf(arg).Some? && ParseIntOf(arg).value != 0
    ensures r.Some? ==> r.value == ParseIntOf(arg).value
  {
    match ParseIntOf(arg)
    case None => None
    case Some(v) => if v == 0 then None else Some(v)
  }

  /** `parseInt(arg) || 1`. */
  function SkipCount(arg: string): (n: int)
    ensures PositionArg(arg).None? ==> n == 1
    ensures PositionArg(arg).Some? ==> n == PositionArg(arg).value
  {
    match PositionArg(arg)
    case None => 1
    case Some(v) => v
  }

  /** The first `k` songs taken off the front, as `k` calls of `queue.shift()` do. */
  function DropFront(q: seq<Song>, k: int): (r: seq<Song>)
    ensures k <= 0 ==> r == q
    ensures 0 <= k <= |q| ==> r == q[k..]
    ensures k >= |q| ==> r == []
  {
    if k <= 0 then q else if k >= |q| then [] else q[k..]
  }

  /** The number of songs `!skip` may skip, as written: the current song counted on top of the queue. */
  function SkipLimitAsWritten(s: State): (n: int)
    ensures HeadIsCurrent(s) && s.current.Some? ==> n == |s.queue| + 1
    ensures s.current.None? ==> n == |s.queue|
  {
    |s.queue| + (if s.current.Some? then 1 else 0)
  }

  /** The number of songs there are to skip: the current song counts once, in the queue when it is the head. */
  function SkipLimit(s: State): (n: int)
    ensures HeadIsCurrent(s) ==> n == |s.queue|
  {
    |s.queue| + (if s.current.Some? && !(s.queue != [] && s.queue[0] == s.current.value) then 1 else 0)
  }

  /**
   * `!skip n` with a limit on `n`: refused with nothing playing or queued, for `n` outside
   * [1, 20] and beyond the limit; otherwise the `n - 1` songs after the current one... are
   * shifted now (the player's stop then ends the current song).
   */
  function SkipWith(s: State, arg: string, limit: int): (r: (State, bool))
    ensures r.1 <==> (s.current.Some? || s.queue != []) && 1 <= SkipCount(arg) <= MaxSkip && SkipCount(arg) <= limit
    ensures r.1 ==> r.0 == s.(queue := DropFront(s.queue, SkipCount(arg) - 1))
    ensures !r.1 ==> r.0 == s
  {
    var n := SkipCount(arg);
    if s.current.None? && s.queue == [] then (s, false)
    else if n < 1 || n > MaxSkip then (s, false)
    else if n > limit then (s, false)
    else (s.(queue := DropFront(s.queue, n - 1)), true)
  }

  /** `!skip n` as written. */
  function SkipAsWritten(s: State, arg: string): (State, bool)
  {
    SkipWith(s, arg, SkipLimitAsWritten(s))
  }

  /** `!skip n` with the song playing counted once. */
  function Skip(s: State, arg: string): (r: (State, bool))
    ensures r.1 && HeadIsCurrent(s) ==> SkipCount(arg) <= |s.queue|
  {
    SkipWith(s, arg, SkipLimit(s))
  }

  /**
   * A skip of `n` songs from a playing head, followed by the end of the song the player was
   * stopped on, removes exactly the first `n` songs and starts the next one.
   */
  lemma {:induction false} SkipThenEnd(s: State, arg: string, joinOk: bool)
    requires HeadIsCurrent(s) && s.current.Some? && !s.looping && !s.seeking
    requires Skip(s, arg).1 && SkipCount(arg) < |s.queue|
    ensures var r := PlaybackEnded(Skip(s, arg).0, joinOk);
      r.queue == s.queue[SkipCount(arg)..] && r.current == Some(s.queue[SkipCount(arg)])
  {
    var n := SkipCount(arg);
    var t := Skip(s, arg).0;
    assert t.queue == s.queue[n - 1..];
    assert t.queue[1..] == s.queue[n..];
  }

  /** The corrected skip never accepts more songs than there are. */
  lemma {:induction false} SkipWithinQueue(s: State, arg: string)
    requires HeadIsCurrent(s) && Skip(s, arg).1
    ensures 1 <= SkipCount(arg) <= |s.queue|
  {
  }

  /**
   * As written, `!skip 2` is accepted with a single song, which is playing: there are not two
   * songs to skip, and after the stopped song ends the queue is merely empty.
   */
  lemma {:induction false} SkipAsWrittenOvercounts(s: State, arg: string, joinOk: bool)
    requires HeadIsCurrent(s) && s.current.Some? && |s.queue| == 1 && !s.looping && !s.seeking && !s.repeat
    requires SkipCount(arg) == 2
    ensures SkipAsWritten(s, arg).1
    ensures !Skip(s, arg).1
    ensures PlaybackEnded(SkipAsWritten(s, arg).0, joinOk).queue == []
  {
    assert DropFront(s.queue, 1) == [];
  }

  /**
   * `!remove n`: refused unless `n` is a non-zero number in [1, length]; otherwise the song
   * at position `n` leaves the queue, and the first snapshot entry with its URL leaves the
   * snapshot.
   */
  function Remove(s: State, arg: string): (r: (State, Option<Song>))
    ensures r.1.Some? <==> PositionArg(arg).Some? && 1 <= PositionArg(arg).value <= |s.queue|
    ensures r.1.None? ==> r.0 == s
    ensures r.1.Some? ==>
              var i := PositionArg(arg).value - 1;
              r.1.value == s.queue[i]
              && r.0 == s.(queue := RemoveAt(s.queue, i), original := RemoveFirstWithUrl(s.original, s.queue[i].url))
    ensures SnapshotUnique(s) ==> SnapshotUnique(r.0)
  {
    match PositionArg(arg)
    case None => (s, None)
    case Some(p) =>
      if s.queue == [] then (s, None)
      else if p < 1 || p > |s.queue| then (s, None)
      else
        var removed := s.queue[p - 1];
        assert SnapshotUnique(s) ==> UniqueUrls(RemoveFirstWithUrl(s.original, removed.url)) by {
          if SnapshotUnique(s) {
            RemoveFirstWithUrlUnique(s.original, removed.url);
          }
        }
        (s.(queue := RemoveAt(s.queue, p - 1), original := RemoveFirstWithUrl(s.original, removed.url)), Some(removed))
  }

  /** A removal that leaves the snapshot's URLs distinct also takes the URL out of the snapshot. */
  lemma RemoveForgetsUrl(s: State, arg: string)
    requires SnapshotUnique(s) && Remove(s, arg).1.Some?
    ensures !HasUrl(Remove(s, arg).0.original, Remove(s, arg).1.value.url)
  {
    RemoveFirstWithUrlUnique(s.original, Remove(s, arg).1.value.url);
  }

  /** Removing any position but the first keeps the playing song at the head. */
  lemma {:induction false} RemoveBehindHead(s: State, arg: string)
    requires HeadIsCurrent(s) && PositionArg(arg) != Some(1)
    ensures HeadIsCurrent(Remove(s, arg).0)
  {
  }

  /**
   * `!remove 1` while a song plays takes the playing song out of the queue; when it ends, the
   * Idle callback shifts the next song, which is then never played.
   */
  lemma {:induction false} RemovePlayingSkipsNext(s: State, arg: string, joinOk: bool)
    requires HeadIsCurrent(s) && s.current.Some? && !s.looping && !s.seeking && |s.queue| >= 3
    requires PositionArg(arg) == Some(1)
    ensures PlaybackEnded(Remove(s, arg).0, joinOk).current == Some(s.queue[2])
  {
    var t := Remove(s, arg).0;
    assert t.queue == s.queue[1..];
  }

  /**
   * `!move a b`: refused unless both are non-zero numbers in [1, length] and differ; otherwise
   * the song at `a` is taken out and put back at `b`.
   */
  function MoveSong(s: State, fromArg: string, toArg: string): (r: (State, bool))
    ensures r.1 <==> PositionArg(fromArg).Some? && PositionArg(toArg).Some?
                     && 1 <= PositionArg(fromArg).value <= |s.queue| && 1 <= PositionArg(toArg).value <= |s.queue|
                     && PositionArg(fromArg) != PositionArg(toArg)
    ensures r.1 ==> r.0 == s.(queue := Move(s.queue, PositionArg(fromArg).value - 1, PositionArg(toArg).value - 1))
    ensures !r.1 ==> r.0 == s
  {
    var f := PositionArg(fromArg);
    var t := PositionArg(toArg);
    if f.None? || t.None? then (s, false)
    else if s.queue == [] then (s, false)
    else if f.value < 1 || f.value > |s.queue| || t.value < 1 || t.value > |s.queue| then (s, false)
    else if f.value == t.value then (s, false)
    else (s.(queue := Move(s.queue, f.value - 1, t.value - 1)), true)
  }

  /** A move lands the song at its target and keeps every other song in order; the queue is a permutation. */
  lemma {:induction false} MovePlacesSong(s: State, fromArg: string, toArg: string)
    requires MoveSong(s, fromArg, toArg).1
    ensures var i := PositionArg(fromArg).value - 1;
      var j := PositionArg(toArg).value - 1;
      var q := MoveSong(s, fromArg, toArg).0.queue;
      q[j] == s.queue[i] && RemoveAt(q, j) == RemoveAt(s.queue, i) && multiset(q) == multiset(s.queue)
  {
    var i := PositionArg(fromArg).value - 1;
    var j := PositionArg(toArg).value - 1;
    MoveLands(s.queue, i, j);
    MoveKeepsOthers(s.queue, i, j);
    MovePermutes(s.queue, i, j);
  }

  /** A move that involves neither position 1 keeps the playing song at the head. */
  lemma {:induction false} MoveBehindHead(s: State, fromArg: string, toArg: string)
    requires HeadIsCurrent(s) && PositionArg(fromArg) != Some(1) && PositionArg(toArg) != Some(1)
    ensures HeadIsCurrent(MoveSong(s, fromArg, toArg).0)
  {
    if MoveSong(s, fromArg, toArg).1 && s.current.Some? {
      var i := PositionArg(fromArg).value - 1;
      var j := PositionArg(toArg).value - 1;
      assert RemoveAt(s.queue, i)[0] == s.queue[0];
      assert InsertAt(RemoveAt(s.queue, i), j, s.queue[i])[0] == s.queue[0];
    }
  }

  /**
   * The stop button: queue and snapshot emptied, repeat and loop off, no current song, nothing
   * being processed, every child killed and the registry cleared, the connection destroyed.
   */
  function Stop(s: State): (r: State)
    ensures r.queue == [] && r.original == [] && !r.repeat && !r.looping
    ensures r.current.None? && !r.processing && r.processes == {} && !r.connected
    ensures r.adding == s.adding && r.seeking == s.seeking && r.seekPosition == s.seekPosition && r.volume == s.volume
  {
    s.(queue := [], original := [], repeat := false, looping := false, current := None,
       processing := false, processes := {}, connected := false)
  }

  /** Stopping is the same whatever came before: two states that agree off the reset fields stop alike. */
  lemma StopForgetsHistory(s: State, t: State)
    requires s.adding == t.adding && s.seeking == t.seeking && s.seekPosition == t.seekPosition && s.volume == t.volume
    ensures Stop(s) == Stop(t)
  {
  }

  /** The shuffle button as written: refused under two songs, otherwise every song, the playing head included, is mixed. */
  function ShuffleAsWritten(s: State, picks: seq<int>): (r: (State, bool))
    requires |s.queue| >= 2 ==> ValidPicks(picks, |s.queue|)
    ensures r.1 <==> |s.queue| >= 2
    ensures !r.1 ==> r.0 == s
  {
    if |s.queue| < 2 then (s, false) else (s.(queue := FisherYates(s.queue, picks)), true)
  }

  /**
   * With two songs, the first playing, the draw that swaps them puts the second at the head;
   * when the first ends, the second is shifted unplayed and the first plays again.
   */
  lemma {:induction false} ShuffleAsWrittenLosesSong(s: State, joinOk: bool)
    requires HeadIsCurrent(s) && s.current.Some? && |s.queue| == 2 && !s.looping && !s.seeking
    ensures var r := PlaybackEnded(ShuffleAsWritten(s, [0, 0]).0, joinOk);
      r.queue == [s.queue[0]] && r.current == Some(s.queue[0])
  {
    var q := s.queue;
    assert ValidPicks([0, 0], 2);
    assert FisherYatesFrom(q, [0, 0], 1) == FisherYatesFrom(Swap(q, 1, 0), [0, 0], 0);
    assert Swap(q, 1, 0) == [q[1], q[0]];
    var t := ShuffleAsWritten(s, [0, 0]).0;
    assert t.queue == [q[1], q[0]];
    assert t.queue[1..] == [q[0]];
  }

  /** The shuffle button mixing only the songs after the playing head. */
  function ShuffleSongs(s: State, picks: seq<int>): (r: (State, bool))
    requires |s.queue| >= 2 ==> ValidPicks(picks, |s.queue| - 1)
    ensures r.1 <==> |s.queue| >= 2
    ensures !r.1 ==> r.0 == s
    ensures multiset(r.0.queue) == multiset(s.queue) && |r.0.queue| == |s.queue|
    ensures r.1 ==> r.0 == s.(queue := r.0.queue) && r.0.queue[0] == s.queue[0]
    ensures HeadIsCurrent(s) ==> HeadIsCurrent(r.0)
  {
    if |s.queue| < 2 then (s, false)
    else
      ShuffleUpcomingKeepsHead(s.queue, picks);
      FisherYatesPermutes(s.queue[1..], picks);
      (s.(queue := ShuffleUpcoming(s.queue, picks)), true)
  }

  /** After the mixed queue's head ends, every other song is still there to be played. */
  lemma {:induction false} ShuffleKeepsUpcoming(s: State, picks: seq<int>, joinOk: bool)
    requires HeadIsCurrent(s) && s.current.Some? && !s.looping && !s.seeking && |s.queue| >= 2
    requires ValidPicks(picks, |s.queue| - 1)
    ensures var r := PlaybackEnded(ShuffleSongs(s, picks).0, joinOk);
      multiset(r.queue) == multiset(s.queue[1..])
  {
    var q := s.queue;
    var t := ShuffleSongs(s, picks).0;
    FisherYatesPermutes(q[1..], picks);
    assert t.queue[1..] == FisherYates(q[1..], picks);
  }

  /** The repeat button. */
  function ToggleRepeat(s: State): (r: State)
    ensures r.repeat == !s.repeat && r.(repeat := s.repeat) == s
  {
    s.(repeat := !s.repeat)
  }

  /** The loop button. */
  function ToggleLoop(s: State): (r: State)
    ensures r.looping == !s.looping && r.(looping := s.looping) == s
  {
    s.(looping := !s.looping)
  }

  /**
   * `!volume v`: refused when `parseInt(v)` is `NaN` or 0, outside [1, 100], or with no
   * player resource; otherwise the volume becomes `v` percent.
   */
  function SetVolume(s: State, arg: string, hasResource: bool): (r: (State, bool))
    ensures r.1 <==> PositionArg(arg).Some? && 1 <= PositionArg(arg).value <= 100 && hasResource
    ensures r.1 ==> r.0 == s.(volume := PositionArg(arg).value)
    ensures !r.1 ==> r.0 == s
  {
    match PositionArg(arg)
    case None => (s, false)
    case Some(v) =>
      if v < 1 || v > 100 then (s, false)
      else if !hasResource then (s, false)
      else (s.(volume := v), true)
  }

  /**
   * The target of `!seek arg` from the stored position: relative forms from a `NaN` position
   * stay `NaN`; otherwise the seek arithmetic of `SeekTarget`.
   */
  function SeekArg(arg: string, position: Option<int>): (r: Option<int>)
    ensures position.Some? ==> r == SeekTarget(arg, position.value)
    ensures r.Some? ==> r.value >= 0
  {
    SeekTargetNonNegative(arg, if position.Some? then position.value else 0);
    match position
    case Some(p) => SeekTarget(arg, p)
    case None => if StartsWith(arg, "+") || StartsWith(arg, "-") then None else SeekTarget(arg, 0)
  }

  /**
   * `!seek arg` and `seekToPosition`: refused with no current song, no argument, the author
   * outside a voice channel, no player, or a streamed song; otherwise the new position is
   * stored and the seek flags are raised while the song is re-fetched from that point.
   */
  function Seek(s: State, arg: string, inVoice: bool, hasPlayer: bool): (r: (State, bool))
    ensures r.1 <==> s.current.Some? && arg != "" && inVoice && hasPlayer && !s.current.value.shouldStream
    ensures r.1 ==> r.0 == s.(seekPosition := SeekArg(arg, s.seekPosition), processing := true, seeking := true)
    ensures !r.1 ==> r.0 == s
  {
    if s.current.None? || arg == "" || !inVoice then (s, false)
    else if !hasPlayer || s.current.value.shouldStream then (s, false)
    else (s.(seekPosition := SeekArg(arg, s.seekPosition), processing := true, seeking := true), true)
  }

  /** While a seek is under way the Idle callback of the stopped player leaves the queue alone. */
  lemma SeekHoldsQueue(s: State, arg: string, inVoice: bool, hasPlayer: bool, joinOk: bool)
    requires Seek(s, arg, inVoice, hasPlayer).1
    ensures PlaybackEnded(Seek(s, arg, inVoice, hasPlayer).0, joinOk) == Seek(s, arg, inVoice, hasPlayer).0
  {
  }

  /** `isSeeking = false` once the seeking download has been started. */
  function SeekResumed(s: State): (r: State)
    ensures !r.seeking && r.(seeking := s.seeking) == s
  {
    s.(seeking := false)
  }

  /**
   * The end of the seeking download: on success the position `Seek` stored is recorded again
   * and processing cleared; on failure (error, timeout, bad exit) both flags are cleared.
   */
  function SeekSettled(s: State, played: bool): (r: State)
    ensures !r.processing && r.queue == s.queue && r.current == s.current
    ensures r.seekPosition == s.seekPosition
    ensures played ==> r == s.(processing := false)
    ensures !played ==> r == s.(seeking := false, processing := false)
  {
    if played then s.(processing := false)
    else s.(seeking := false, processing := false)
  }

  /** A seek that plays leaves the bot at the target `!seek` computed, with processing over. */
  lemma SeekRecordsTarget(s: State, arg: string, inVoice: bool, hasPlayer: bool)
    requires Seek(s, arg, inVoice, hasPlayer).1
    ensures var r := SeekSettled(Seek(s, arg, inVoice, hasPlayer).0, true);
      r.seekPosition == SeekArg(arg, s.seekPosition) && !r.processing
      && r.queue == s.queue && r.current == s.current
  {
  }

  // ---------------------------------------------------------------------------
  // Runs of events

  /** Every transition of the bot, with what the outside world answered. */
  datatype Event =
    | AddStarted(url: string)
    | AddResolved(url: string, info: Info, joinOk: bool)
    | Advance(joinOk: bool)
    | ProbedLong(joinOk: bool)
    | Spawned(pid: int)
    | Finished(pid: int, outcome: Download, joinOk: bool)
    | Ended(joinOk: bool)
    | PlayerFailed(joinOk: bool)
    | SkipCmd(arg: string)
    | RemoveCmd(arg: string)
    | MoveCmd(fromArg: string, toArg: string)
    | StopCmd
    | ShuffleCmd(picks: seq<int>)
    | RepeatCmd
    | LoopCmd
    | VolumeCmd(arg: string, hasResource: bool)
    | SeekCmd(arg: string, inVoice: bool, hasPlayer: bool)
    | SeekStarted
    | SeekDone(played: bool)

  /** One transition. Draws outside their ranges leave the state alone. */
  function Step(s: State, e: Event): State
  {
    match e
    case AddStarted(url) => BeginAdd(s, url).0
    case AddResolved(url, info, joinOk) => FinishAdd(s, url, info, joinOk)
    case Advance(joinOk) => PlayNext(s, joinOk)
    case ProbedLong(joinOk) => DropHead(s, joinOk)
    case Spawned(pid) => DownloadSpawned(s, pid)
    case Finished(pid, d, joinOk) => DownloadDone(s, pid, d, joinOk)
    case Ended(joinOk) => PlaybackEnded(s, joinOk)
    case PlayerFailed(joinOk) => DropHead(s, joinOk)
    case SkipCmd(arg) => Skip(s, arg).0
    case RemoveCmd(arg) => Remove(s, arg).0
    case MoveCmd(f, t) => MoveSong(s, f, t).0
    case StopCmd => Stop(s)
    case ShuffleCmd(picks) =>
      if |s.queue| >= 2 && !ValidPicks(picks, |s.queue| - 1) then s else ShuffleSongs(s, picks).0
    case RepeatCmd => ToggleRepeat(s)
    case LoopCmd => ToggleLoop(s)
    case VolumeCmd(arg, r) => SetVolume(s, arg, r).0
    case SeekCmd(arg, v, p) => Seek(s, arg, v, p).0
    case SeekStarted => SeekResumed(s)
    case SeekDone(played) => SeekSettled(s, played)
  }

  /** The state after a run of events. */
  function Run(s: State, es: seq<Event>): State
    decreases |es|
  {
    if es == [] then s else Run(Step(s, es[0]), es[1..])
  }

  /** Every transition keeps the snapshot's URLs distinct. */
  lemma StepKeepsSnapshotUnique(s: State, e: Event)
    requires SnapshotUnique(s)
    ensures SnapshotUnique(Step(s, e))
  {
    match e
    case RemoveCmd(arg) =>
    case _ =>
  }

  /** Whatever happens, the repeat snapshot never holds a URL twice. */
  lemma {:induction false} RunKeepsSnapshotUnique(s: State, es: seq<Event>)
    requires SnapshotUnique(s)
    ensures SnapshotUnique(Run(s, es))
    decreases |es|
  {
    if es != [] {
      StepKeepsSnapshotUnique(s, es[0]);
      RunKeepsSnapshotUnique(Step(s, es[0]), es[1..]);
    }
  }

  /**
   * Every transition, with the duplicate check repeated after the lookup, keeps the queue
   * and the snapshot free of repeated URLs.
   */
  lemma StepKeepsNoDuplicates(s: State, e: Event)
    requires NoDuplicates(s)
    ensures NoDuplicates(Step(s, e))
  {
    match e
    case SkipCmd(arg) => SkipKeepsNoDuplicates(s, arg);
    case RemoveCmd(arg) => RemoveKeepsNoDuplicates(s, arg);
    case MoveCmd(f, t) => MoveKeepsNoDuplicates(s, f, t);
    case ShuffleCmd(picks) =>
      if |s.queue| < 2 || ValidPicks(picks, |s.queue| - 1) {
        ShuffleKeepsNoDuplicates(s, picks);
      }
    case _ =>
  }

  /** `!skip n` drops songs from the front, so no URL is repeated afterwards. */
  lemma SkipKeepsNoDuplicates(s: State, arg: string)
    requires NoDuplicates(s)
    ensures NoDuplicates(Skip(s, arg).0)
  {
    if Skip(s, arg).1 && SkipCount(arg) - 1 < |s.queue| && SkipCount(arg) >= 1 {
      SuffixUnique(s.queue, SkipCount(arg) - 1);
    }
  }

  /** `!remove n` takes one song out, so no URL is repeated afterwards. */
  lemma RemoveKeepsNoDuplicates(s: State, arg: string)
    requires NoDuplicates(s)
    ensures NoDuplicates(Remove(s, arg).0)
  {
    if Remove(s, arg).1.Some? {
      RemoveAtUnique(s.queue, PositionArg(arg).value - 1);
    }
  }

  /** `!move a b` permutes the queue, so no URL is repeated afterwards. */
  lemma MoveKeepsNoDuplicates(s: State, f: string, t: string)
    requires NoDuplicates(s)
    ensures NoDuplicates(MoveSong(s, f, t).0)
  {
    if MoveSong(s, f, t).1 {
      MovePlacesSong(s, f, t);
      PermutationUnique(s.queue, MoveSong(s, f, t).0.queue);
    }
  }

  /** The shuffle permutes the queue, so no URL is repeated afterwards. */
  lemma ShuffleKeepsNoDuplicates(s: State, picks: seq<int>)
    requires NoDuplicates(s) && (|s.queue| < 2 || ValidPicks(picks, |s.queue| - 1))
    ensures NoDuplicates(ShuffleSongs(s, picks).0)
  {
    if |s.queue| >= 2 {
      PermutationUnique(s.queue, ShuffleSongs(s, picks).0.queue);
    }
  }

  /** From a state without repeated URLs, no run of events queues a URL twice. */
  lemma {:induction false} RunKeepsNoDuplicates(s: State, es: seq<Event>)
    requires NoDuplicates(s)
    ensures NoDuplicates(Run(s, es))
    decreases |es|
  {
    if es != [] {
      StepKeepsNoDuplicates(s, es[0]);
      RunKeepsNoDuplicates(Step(s, es[0]), es[1..]);
    }
  }

  /** The commands that touch position 1 (skipping more than one song, removing or moving the first). */
  predicate TouchesHead(e: Event)
  {
    (e.SkipCmd? && SkipCount(e.arg) != 1)
    || (e.RemoveCmd? && PositionArg(e.arg) == Some(1))
    || (e.MoveCmd? && (PositionArg(e.fromArg) == Some(1) || PositionArg(e.toArg) == Some(1)))
  }

  /** Every other transition keeps the current song at the head of the queue. */
  lemma StepKeepsHead(s: State, e: Event)
    requires HeadIsCurrent(s) && !TouchesHead(e)
    ensures HeadIsCurrent(Step(s, e))
  {
    match e
    case RemoveCmd(arg) => RemoveBehindHead(s, arg);
    case MoveCmd(f, t) => MoveBehindHead(s, f, t);
    case SkipCmd(arg) =>
      assert Skip(s, arg).1 ==> Skip(s, arg).0 == s;
    case _ =>
  }

  /** Along any run free of those commands, the song playing stays queued at the head. */
  lemma {:induction false} RunKeepsHead(s: State, es: seq<Event>)
    requires HeadIsCurrent(s)
    requires forall k :: 0 <= k < |es| ==> !TouchesHead(es[k])
    ensures HeadIsCurrent(Run(s, es))
    decreases |es|
  {
    if es != [] {
      StepKeepsHead(s, es[0]);
      assert forall k :: 0 <= k < |es[1..]| ==> es[1..][k] == es[k + 1];
      RunKeepsHead(Step(s, es[0]), es[1..]);
    }
  }

  // ---------------------------------------------------------------------------
  // The bot's module-level state

  class Bot {
    var queue: seq<Song>
    var original: seq<Song>
    var current: Option<Song>
    var processing: bool
    var seeking: bool
    var repeat: bool
    var looping: bool
    var connected: bool
    var adding: set<string>
    var processes: set<int>
    var seekPosition: Option<int>
    var volume: int

    /** The fields as a `State`. */
    function Snapshot(): State
      reads this
    {
      State(queue, original, current, processing, seeking, repeat, looping, connected,
            adding, processes, seekPosition, volume)
    }

    constructor()
      ensures Snapshot() == Initial
    {
      queue, original, current := [], [], None;
      processing, seeking, repeat, looping, connected := false, false, false, false, false;
      adding, processes := {}, {};
      seekPosition, volume := Some(0), InitialVolume;
    }

    /** `playNextInQueue(voiceChannel)` up to the start of the head's playback. */
    method PlayNextInQueue(joinOk: bool)
      modifies this
      ensures Snapshot() == PlayNext(old(Snapshot()), joinOk)
    {
      if processing {
        return;
      }
      if !connected {
        if !joinOk {
          return;
        }
        connected := true;
      }
      if |queue| == 0 {
        if repeat && |original| > 0 {
          queue := original;
        } else {
          connected := false;
          current := None;
          processing := false;
          original := [];
          return;
        }
      }
      processing := true;
      current := Some(queue[0]);
    }

    /** `addSongToQueue(url)` up to the metadata lookup. */
    method AddSongToQueue(url: string) returns (start: AddStart)
      modifies this
      ensures (Snapshot(), start) == BeginAdd(old(Snapshot()), url)
    {
      if url in adding {
        return Ignored;
      }
      adding := adding + {url};
      var isDuplicate := HasUrl(queue, url) || (current.Some? && current.value.url == url);
      if isDuplicate {
        adding := adding - {url};
        return Duplicate;
      }
      start := Pending;
    }

    /** `addSongToQueue(url)` after the lookup resolved with `info`, checking again for a duplicate. */
    method AddSongResolved(url: string, info: Info, joinOk: bool)
      modifies this
      ensures Snapshot() == FinishAdd(old(Snapshot()), url, info, joinOk)
    {
      if info.isLong {
        adding := adding - {url};
        return;
      }
      var isDuplicate := HasUrl(queue, url) || (current.Some? && current.value.url == url);
      if isDuplicate {
        adding := adding - {url};
        return;
      }
      PushResolved(url, info, joinOk);
    }

    /** The push, the snapshot update and the start of playback once a short video resolved. */
    method PushResolved(url: string, info: Info, joinOk: bool)
      requires !info.isLong
      modifies this
      ensures Snapshot() == FinishAddAsWritten(old(Snapshot()), url, info, joinOk)
    {
      var song := SongOf(url, info);
      queue := queue + [song];
      if !HasUrl(original, url) {
        original := original + [song];
      }
      if !processing {
        PlayNextInQueue(joinOk);
      }
      adding := adding - {url};
    }

    /** `queue.shift(); isProcessing = false; playNextInQueue()`, as every failure handler does. */
    method ShiftAndAdvance(joinOk: bool)
      modifies this
      ensures Snapshot() == DropHead(old(Snapshot()), joinOk)
    {
      if |queue| > 0 {
        queue := queue[1..];
      }
      processing := false;
      PlayNextInQueue(joinOk);
    }

    /** The duration probe found the head too long: it is skipped. */
    method OnProbedTooLong(joinOk: bool)
      modifies this
      ensures Snapshot() == DropHead(old(Snapshot()), joinOk)
    {
      ShiftAndAdvance(joinOk);
    }

    /** `processes.add(child)` after spawning yt-dlp. */
    method OnDownloadSpawned(pid: int)
      modifies this
      ensures Snapshot() == DownloadSpawned(old(Snapshot()), pid)
    {
      processes := processes + {pid};
    }

    /** The timeout, `error` and `close` callbacks of the download. */
    method OnDownloadFinished(pid: int, d: Download, joinOk: bool)
      modifies this
      ensures Snapshot() == DownloadDone(old(Snapshot()), pid, d, joinOk)
    {
      match d
      case TimedOut =>
        ShiftAndAdvance(joinOk);
      case SpawnFailed =>
        ShiftAndAdvance(joinOk);
      case Closed(code, fileExists, size) =>
        processes := processes - {pid};
        if code != Some(0) {
          ShiftAndAdvance(joinOk);
          return;
        }
        if !fileExists || size < MinFileSize {
          ShiftAndAdvance(joinOk);
        }
    }

    /** The player's Idle callback. */
    method OnIdle(joinOk: bool)
      modifies this
      ensures Snapshot() == PlaybackEnded(old(Snapshot()), joinOk)
    {
      if seeking {
        return;
      }
      if looping {
        processing := false;
        PlayNextInQueue(joinOk);
      } else {
        ShiftAndAdvance(joinOk);
      }
    }

    /** The download player's `error` callback. */
    method OnPlayerError(joinOk: bool)
      modifies this
      ensures Snapshot() == DropHead(old(Snapshot()), joinOk)
    {
      ShiftAndAdvance(joinOk);
    }

    /** `!skip n`: whether it was accepted, and whether the player is stopped (its Idle follows). */
    method SkipCommand(arg: string, hasPlayer: bool) returns (accepted: bool, stopsPlayer: bool)
      modifies this
      ensures (Snapshot(), accepted) == Skip(old(Snapshot()), arg)
      ensures stopsPlayer <==> accepted && old(current).Some? && hasPlayer
    {
      var n := SkipCount(arg);
      if current.None? && |queue| == 0 {
        return false, false;
      }
      if n < 1 || n > MaxSkip {
        return false, false;
      }
      if n > SkipLimit(Snapshot()) {
        return false, false;
      }
      stopsPlayer := current.Some? && hasPlayer;
      var i := 0;
      while i < n - 1 && |queue| > 0
        invariant 0 <= i <= n - 1
        invariant queue == DropFront(old(queue), i)
        invariant Snapshot() == old(Snapshot()).(queue := queue)
      {
        queue := queue[1..];
        i := i + 1;
      }
      accepted := true;
    }

    /** `!remove n`: the removed song, if any. */
    method RemoveCommand(arg: string) returns (removed: Option<Song>)
      modifies this
      ensures (Snapshot(), removed) == Remove(old(Snapshot()), arg)
    {
      var position := PositionArg(arg);
      if position.None? || |queue| == 0 {
        return None;
      }
      var p := position.value;
      if p < 1 || p > |queue| {
        return None;
      }
      var song := queue[p - 1];
      queue := RemoveAt(queue, p - 1);
      var originalIndex := FindUrl(original, song.url);
      if originalIndex.Some? {
        original := RemoveAt(original, originalIndex.value);
      }
      removed := Some(song);
    }

    /** `!move a b`: whether the move was made. */
    method MoveCommand(fromArg: string, toArg: string) returns (moved: bool)
      modifies this
      ensures (Snapshot(), moved) == MoveSong(old(Snapshot()), fromArg, toArg)
    {
      var f := PositionArg(fromArg);
      var t := PositionArg(toArg);
      if f.None? || t.None? || |queue| == 0 {
        return false;
      }
      if f.value < 1 || f.value > |queue| || t.value < 1 || t.value > |queue| || f.value == t.value {
        return false;
      }
      var song := queue[f.value - 1];
      queue := RemoveAt(queue, f.value - 1);
      queue := InsertAt(queue, t.value - 1, song);
      moved := true;
    }

    /** The stop button. */
    method StopButton()
      modifies this
      ensures Snapshot() == Stop(old(Snapshot()))
    {
      queue, original := [], [];
      repeat, looping := false, false;
      current, processing := None, false;
      processes := {};
      connected := false;
      assert Snapshot() == old(Snapshot()).(queue := [], original := [], repeat := false, looping := false,
        current := None, processing := false, processes := {}, connected := false);
    }

    /** The shuffle button, mixing the songs after the playing head in place. */
    method ShuffleButton(picks: seq<int>) returns (shuffled: bool)
      requires |queue| >= 2 ==> ValidPicks(picks, |queue| - 1)
      modifies this
      ensures (Snapshot(), shuffled) == ShuffleSongs(old(Snapshot()), picks)
    {
      if |queue| < 2 {
        return false;
      }
      var upcoming := new Song[|queue| - 1](i requires 0 <= i < |queue| - 1 reads this => queue[i + 1]);
      assert upcoming[..] == queue[1..];
      ShuffleQueue(upcoming, picks);
      queue := [queue[0]] + upcoming[..];
      shuffled := true;
    }

    /** The repeat button. */
    method RepeatButton()
      modifies this
      ensures Snapshot() == ToggleRepeat(old(Snapshot()))
    {
      repeat := !repeat;
    }

    /** The loop button. */
    method LoopButton()
      modifies this
      ensures Snapshot() == ToggleLoop(old(Snapshot()))
    {
      looping := !looping;
    }

    /** `!volume v`: whether the volume changed. */
    method VolumeCommand(arg: string, hasResource: bool) returns (changed: bool)
      modifies this
      ensures (Snapshot(), changed) == SetVolume(old(Snapshot()), arg, hasResource)
    {
      var v := PositionArg(arg);
      if v.None? || v.value < 1 || v.value > 100 || !hasResource {
        return false;
      }
      volume := v.value;
      changed := true;
    }

    /** `!seek arg` with `seekToPosition`: whether the seek started. */
    method SeekCommand(arg: string, inVoice: bool, hasPlayer: bool) returns (started: bool)
      modifies this
      ensures (Snapshot(), started) == Seek(old(Snapshot()), arg, inVoice, hasPlayer)
    {
      if current.None? || arg == "" || !inVoice {
        return false;
      }
      if !hasPlayer || current.value.shouldStream {
        return false;
      }
      seekPosition := SeekArg(arg, seekPosition);
      processing := true;
      seeking := true;
      started := true;
    }

    /** `isSeeking = false` after the seeking download started. */
    method OnSeekResumed()
      modifies this
      ensures Snapshot() == SeekResumed(old(Snapshot()))
    {
      seeking := false;
    }

    /** The end of the seeking download. */
    method OnSeekSettled(played: bool)
      modifies this
      ensures Snapshot() == SeekSettled(old(Snapshot()), played)
    {
      if !played {
        seeking := false;
      }
      processing := false;
    }
  }
}
