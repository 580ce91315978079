/**
 * The song-queue state machine of index_backup.js, the download-only revision with a one-hour
 * cap. Its globals are those of index_optimized_backup_before_fix.js, and adding, shifting and
 * stopping work the same way, so the state and those transitions are shared with
 * `BeforeFixBot`. What differs: the metadata comes from the one-hour `BackupInfo`, a queued
 * song is never streamed, and `playNextInQueue` spawns the download itself, registering the
 * child as the song starts.
 */
module BackupBot {
  import opened Wrappers
  import opened Sequences
  import opened Songs
  import opened Shuffle
  import opened VideoInfo
  import opened Durations
  import opened JsText
  import OptimizedBot
  import opened BeforeFixBot

  /**
   * `playNextInQueue`: the transitions of `BeforeFixBot.PlayNext`, and when a song starts the
   * yt-dlp child `pid` is spawned and registered in the same call.
   */
  function PlayNextSpawning(s: State, joinOk: bool, pid: int): (r: State)
    ensures r.queue == s.queue
    ensures s.processing ==> r == s
    ensures var n := PlayNext(s, joinOk);
      if n.processing && !s.processing then r == n.(processes := s.processes + {pid}) else r == n
    ensures HeadIsCurrent(s) ==> HeadIsCurrent(r)
  {
    var n := PlayNext(s, joinOk);
    if n.processing && !s.processing then n.(processes := s.processes + {pid}) else n
  }

  /** `queue.shift(); isProcessing = false; playNextInQueue()`, spawning the next download. */
  function DropHeadSpawning(s: State, joinOk: bool, pid: int): (r: State)
    ensures r.queue == Shift(s.queue)
    ensures s.connected && |s.queue| > 1 ==>
              r.processing && r.current == Some(s.queue[1]) && pid in r.processes
    ensures HeadIsCurrent(s) ==> HeadIsCurrent(r)
  {
    PlayNextSpawning(s.(queue := Shift(s.queue), processing := false), joinOk, pid)
  }

  /** Every queued song is downloaded rather than streamed. */
  predicate AllDownloaded(s: State)
  {
    forall k :: 0 <= k < |s.queue| ==> !s.queue[k].shouldStream
  }

  /**
   * `addSongToQueue` after the `await` of the lookup, which gave `info`: a video flagged long
   * is refused, and otherwise the song is pushed without a streaming flag and playback starts
   * if idle. The duplicate check ran before the lookup and is not repeated.
   */
  function FinishCapped(s: State, url: string, info: Info, joinOk: bool, pid: int): (r: State)
    ensures info.isLong ==> r == s
    ensures !info.isLong ==> r.queue == s.queue + [Song(url, info.title, info.duration, false)]
    ensures AllDownloaded(s) ==> AllDownloaded(r)
    ensures HeadIsCurrent(s) ==> HeadIsCurrent(r)
  {
    if info.isLong then s
    else
      var s1 := s.(queue := s.queue + [Song(url, info.title, info.duration, false)]);
      if !s1.processing then PlayNextSpawning(s1, joinOk, pid) else s1
  }

  /**
   * The whole of `addSongToQueue` when nothing happens during the lookup: a URL already
   * present is refused, a video flagged long is refused, and otherwise the song is pushed.
   */
  function AddCapped(s: State, url: string, info: Info, joinOk: bool, pid: int): (r: State)
    ensures Present(s, url) || info.isLong ==> r == s
    ensures !Present(s, url) && !info.isLong ==>
              r.queue == s.queue + [Song(url, info.title, info.duration, false)]
    ensures AllDownloaded(s) ==> AllDownloaded(r)
    ensures HeadIsCurrent(s) ==> HeadIsCurrent(r)
  {
    if !AddChecked(s, url) then s else FinishCapped(s, url, info, joinOk, pid)
  }

  /**
   * The revision keeps the race of the earlier one: two adds of the same URL both pass the
   * duplicate check before either lookup resolves, and the URL is queued twice.
   */
  lemma {:induction false} CappedAddsQueueTwice(s: State, url: string, i1: Info, i2: Info, joinOk: bool, p1: int, p2: int)
    requires !Present(s, url) && !i1.isLong && !i2.isLong
    ensures AddChecked(s, url)
    ensures var r := FinishCapped(FinishCapped(s, url, i1, joinOk, p1), url, i2, joinOk, p2);
      |r.queue| == |s.queue| + 2 && r.queue[|s.queue|].url == url && r.queue[|s.queue| + 1].url == url
      && !UniqueUrls(r.queue)
  {
    var r := FinishCapped(FinishCapped(s, url, i1, joinOk, p1), url, i2, joinOk, p2);
    assert r.queue == s.queue + [Song(url, i1.title, i1.duration, false)] + [Song(url, i2.title, i2.duration, false)];
    assert r.queue[|s.queue|].url == r.queue[|s.queue| + 1].url;
  }

  /**
   * The one-hour cap: with the lookup's record, a video whose duration parses to more than
   * 3600 seconds is never queued.
   */
  lemma {:induction false} HourCap(s: State, url: string, out: Lookup, joinOk: bool, pid: int)
    ensures var d := BackupInfo(out).duration;
      var r := AddCapped(s, url, BackupInfo(out), joinOk, pid);
      |r.queue| > |s.queue| ==>
        r.queue[|s.queue|].url == url
        && !(d != "" && Above(ParseDurationToSeconds(d), 3600.0))
  {
    var info := BackupInfo(out);
    var r := AddCapped(s, url, info, joinOk, pid);
    if |r.queue| > |s.queue| {
      assert !Present(s, url) && !info.isLong;
      BackupLongOverAnHour(out);
    }
  }

  /** The record's long flag is the one-hour comparison on its duration text. */
  lemma BackupLongOverAnHour(out: Lookup)
    ensures var d := BackupInfo(out).duration;
      BackupInfo(out).isLong <==> d != "" && Above(ParseDurationToSeconds(d), 3600.0)
  {
  }

  /**
   * The callbacks of the download spawned by `playNextInQueue`: a close removes the child; a
   * failure drops the head and spawns the next download; a good file changes nothing else.
   */
  function DownloadDoneSpawning(s: State, pid: int, d: OptimizedBot.Download, joinOk: bool, next: int): (r: State)
    ensures OptimizedBot.Failed(d) ==> r.queue == Shift(s.queue)
    ensures !OptimizedBot.Failed(d) ==> r == s.(processes := s.processes - {pid})
    ensures HeadIsCurrent(s) ==> HeadIsCurrent(r)
  {
    match d
    case TimedOut => DropHeadSpawning(s, joinOk, next)
    case SpawnFailed => DropHeadSpawning(s, joinOk, next)
    case Closed(code, fileExists, size) =>
      var s1 := s.(processes := s.processes - {pid});
      if code != Some(0) || !fileExists || size < OptimizedBot.MinFileSize then DropHeadSpawning(s1, joinOk, next) else s1
  }

  /** Every transition of the bot; `next` is the child spawned if a song starts. */
  datatype Event =
    | Added(url: string, out: Lookup, joinOk: bool, next: int)
    | Resolved(url: string, out: Lookup, joinOk: bool, next: int)
    | Advance(joinOk: bool, next: int)
    | Finished(pid: int, outcome: OptimizedBot.Download, joinOk: bool, next: int)
    | Ended(joinOk: bool, next: int)
    | PlayerFailed(joinOk: bool, next: int)
    | ShuffleCmd(picks: seq<int>)
    | StopCmd

  function Step(s: State, e: Event): State
  {
    match e
    case Added(url, out, joinOk, next) => AddCapped(s, url, BackupInfo(out), joinOk, next)
    case Resolved(url, out, joinOk, next) => FinishCapped(s, url, BackupInfo(out), joinOk, next)
    case Advance(joinOk, next) => PlayNextSpawning(s, joinOk, next)
    case Finished(pid, d, joinOk, next) => DownloadDoneSpawning(s, pid, d, joinOk, next)
    case Ended(joinOk, next) => DropHeadSpawning(s, joinOk, next)
    case PlayerFailed(joinOk, next) => DropHeadSpawning(s, joinOk, next)
    case ShuffleCmd(picks) =>
      if |s.queue| >= 2 && !ValidPicks(picks, |s.queue|) then s else Shuffled(s, picks).0
    case StopCmd => Stop(s)
  }

  function Run(s: State, es: seq<Event>): State
    decreases |es|
  {
    if es == [] then s else Run(Step(s, es[0]), es[1..])
  }

  /** Every transition keeps the queue free of streamed songs. */
  lemma StepKeepsDownloaded(s: State, e: Event)
    requires AllDownloaded(s)
    ensures AllDownloaded(Step(s, e))
  {
    match e
    case ShuffleCmd(picks) =>
      if |s.queue| >= 2 && ValidPicks(picks, |s.queue|) {
        var q := Shuffled(s, picks).0.queue;
        forall k | 0 <= k < |q|
          ensures !q[k].shouldStream
        {
          assert q[k] in multiset(s.queue);
        }
      }
    case Ended(_, _) =>
      assert Shift(s.queue) == if s.queue == [] then [] else s.queue[1..];
    case PlayerFailed(_, _) =>
      assert Shift(s.queue) == if s.queue == [] then [] else s.queue[1..];
    case Finished(_, _, _, _) =>
      assert Shift(s.queue) == if s.queue == [] then [] else s.queue[1..];
    case _ =>
  }

  /** From start-up, whatever happens, the revision never holds a song to stream. */
  lemma {:induction false} RunKeepsDownloaded(s: State, es: seq<Event>)
    requires AllDownloaded(s)
    ensures AllDownloaded(Run(s, es))
    decreases |es|
  {
    if es != [] {
      StepKeepsDownloaded(s, es[0]);
      RunKeepsDownloaded(Step(s, es[0]), es[1..]);
    }
  }

  class Bot {
    var queue: seq<Song>
    var current: Option<Song>
    var processing: bool
    var connected: bool
    var processes: set<int>

    function Snapshot(): State
      reads this
    {
      State(queue, current, processing, connected, processes)
    }

    constructor()
      ensures Snapshot() == Initial
    {
      queue, current, processing, connected, processes := [], None, false, false, {};
    }

    /** `playNextInQueue(voiceChannel)` up to the spawn of the head's download, registered as `pid`. */
    method PlayNextInQueue(joinOk: bool, pid: int)
      modifies this
      ensures Snapshot() == PlayNextSpawning(old(Snapshot()), joinOk, pid)
    {
      if processing {
        return;
      }
      if !connected {
        if !joinOk {
          return;
        }
        connected := true;
      }
      if |queue| == 0 {
        connected := false;
        current := None;
        processing := false;
        return;
      }
      processing := true;
      current := Some(queue[0]);
      processes := processes + {pid};
    }

    /** `addSongToQueue(url)` up to the lookup: whether the duplicate check lets it go on. */
    method CheckDuplicate(url: string) returns (ok: bool)
      ensures ok == AddChecked(Snapshot(), url)
    {
      var isDuplicate := HasUrl(queue, url) || (current.Some? && current.value.url == url);
      ok := !isDuplicate;
    }

    /** `addSongToQueue(url)` once the lookup gave the record `info`. */
    method AddSongResolved(url: string, info: Info, joinOk: bool, pid: int)
      modifies this
      ensures Snapshot() == FinishCapped(old(Snapshot()), url, info, joinOk, pid)
    {
      if info.isLong {
        return;
      }
      queue := queue + [Song(url, info.title, info.duration, false)];
      if !processing {
        PlayNextInQueue(joinOk, pid);
      }
    }

    /** `addSongToQueue(url)` when nothing else runs during the lookup. */
    method AddSongToQueue(url: string, out: Lookup, joinOk: bool, pid: int)
      modifies this
      ensures Snapshot() == AddCapped(old(Snapshot()), url, BackupInfo(out), joinOk, pid)
    {
      var ok := CheckDuplicate(url);
      if !ok {
        return;
      }
      AddSongResolved(url, BackupInfo(out), joinOk, pid);
    }

    /** The failure handlers and the Idle callback: shift, clear, and start the next download. */
    method ShiftAndAdvance(joinOk: bool, next: int)
      modifies this
      ensures Snapshot() == DropHeadSpawning(old(Snapshot()), joinOk, next)
    {
      if |queue| > 0 {
        queue := queue[1..];
      }
      processing := false;
      PlayNextInQueue(joinOk, next);
    }

    /** The timeout, `error` and `close` callbacks of the download. */
    method OnDownloadFinished(pid: int, d: OptimizedBot.Download, joinOk: bool, next: int)
      modifies this
      ensures Snapshot() == DownloadDoneSpawning(old(Snapshot()), pid, d, joinOk, next)
    {
      match d
      case TimedOut =>
        ShiftAndAdvance(joinOk, next);
      case SpawnFailed =>
        ShiftAndAdvance(joinOk, next);
      case Closed(code, fileExists, size) =>
        processes := processes - {pid};
        if code != Some(0) || !fileExists || size < OptimizedBot.MinFileSize {
          ShiftAndAdvance(joinOk, next);
        }
    }

    /** The skip button: whether the player is stopped. */
    method SkipButton(hasPlayer: bool) returns (stopsPlayer: bool)
      ensures stopsPlayer <==> SkipStops(Snapshot()) && hasPlayer
    {
      stopsPlayer := |queue| > 1 && hasPlayer;
    }

    /** The shuffle button, swapping the cells of the whole queue in place. */
    method ShuffleButton(picks: seq<int>) returns (shuffled: bool)
      requires |queue| >= 2 ==> ValidPicks(picks, |queue|)
      modifies this
      ensures (Snapshot(), shuffled) == Shuffled(old(Snapshot()), picks)
    {
      if |queue| < 2 {
        return false;
      }
      var cells := new Song[|queue|](i requires 0 <= i < |queue| reads this => queue[i]);
      assert cells[..] == queue;
      ShuffleQueue(cells, picks);
      queue := cells[..];
      shuffled := true;
    }

    /** The stop button. */
    method StopButton()
      modifies this
      ensures Snapshot() == Stop(old(Snapshot()))
    {
      queue := [];
      current := None;
      processing := false;
      processes := {};
      connected := false;
    }
  }
}
