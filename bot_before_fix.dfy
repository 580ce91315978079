/**
 * The song-queue state machine of index_optimized_backup_before_fix.js: the same queue, current
 * song, `isProcessing` flag, voice connection and child registry as the later revision, but
 * without repeat, loop, seek and the set of URLs being added.
 *
 * `State` is that state as a value and each handler a function on it; `Bot` holds the same
 * globals and its methods change them as the handlers do.
 */
module BeforeFixBot {
  import opened Wrappers
  import opened Sequences
  import opened Songs
  import opened Shuffle
  import opened VideoInfo
  import OptimizedBot

  /** The globals `queue`, `currentSong`, `isProcessing`, `processes`, and whether `connection` is up. */
  datatype State = State(queue: seq<Song>, current: Option<Song>, processing: bool, connected: bool, processes: set<int>)

  const Initial: State := State([], None, false, false, {})

  /** While a song is current, the connection is up and that song is still the queue's head. */
  predicate HeadIsCurrent(s: State)
  {
    s.current.Some? ==> s.connected && s.queue != [] && s.queue[0] == s.current.value
  }

  /**
   * `playNextInQueue`: nothing while processing or when the connection cannot be made; on an
   * empty queue, disconnecting with no current song and nothing processing; otherwise the
   * head becomes the current song and stays queued.
   */
  function PlayNext(s: State, joinOk: bool): (r: State)
    ensures s.processing ==> r == s
    ensures r.queue == s.queue && r.processes == s.processes
    ensures !s.processing && (s.connected || joinOk) ==>
              if s.queue == [] then r.current.None? && !r.processing && !r.connected
              else r.processing && r.current == Some(s.queue[0])
    ensures HeadIsCurrent(s) ==> HeadIsCurrent(r)
  {
    if s.processing then s
    else if !s.connected && !joinOk then s
    else if s.queue == [] then s.(connected := false, current := None, processing := false)
    else s.(connected := true, processing := true, current := Some(s.queue[0]))
  }

  /** The URL is queued or is the current song's. */
  predicate Present(s: State, url: string)
  {
    HasUrl(s.queue, url) || (s.current.Some? && s.current.value.url == url)
  }

  /** The duplicate check before the metadata lookup: the add goes on exactly when the URL is not present. */
  function AddChecked(s: State, url: string): (ok: bool)
    ensures ok <==> !(HasUrl(s.queue, url) || (s.current.Some? && s.current.value.url == url))
  {
    !Present(s, url)
  }

  /**
   * `addSongToQueue` after the lookup resolved: a video too long is dropped; otherwise it is
   * pushed and playback starts if nothing is being processed.
   */
  function FinishAdd(s: State, url: string, info: Info, joinOk: bool): (r: State)
    ensures info.isLong ==> r == s
    ensures !info.isLong ==> r.queue == s.queue + [OptimizedBot.SongOf(url, info)]
    ensures HeadIsCurrent(s) ==> HeadIsCurrent(r)
  {
    if info.isLong then s
    else
      var s1 := s.(queue := s.queue + [OptimizedBot.SongOf(url, info)]);
      if !s1.processing then PlayNext(s1, joinOk) else s1
  }

  /** The whole of `addSongToQueue` when nothing happens during the lookup. */
  function Add(s: State, url: string, info: Info, joinOk: bool): (r: State)
    ensures Present(s, url) ==> r == s
    ensures !Present(s, url) && !info.isLong ==> r.queue == s.queue + [OptimizedBot.SongOf(url, info)]
  {
    if !AddChecked(s, url) then s else FinishAdd(s, url, info, joinOk)
  }

  /**
   * The race the later revision closes with `addingSongs`: two adds of the same URL both pass
   * the duplicate check before either lookup resolves, and the URL is queued twice.
   */
  lemma {:induction false} ConcurrentAddsQueueTwice(s: State, url: string, i1: Info, i2: Info, joinOk: bool)
    requires !Present(s, url) && !i1.isLong && !i2.isLong
    ensures AddChecked(s, url) && AddChecked(s, url)
    ensures var r := FinishAdd(FinishAdd(s, url, i1, joinOk), url, i2, joinOk);
      |r.queue| == |s.queue| + 2 && r.queue[|s.queue|].url == url && r.queue[|s.queue| + 1].url == url
      && !UniqueUrls(r.queue)
  {
    var r := FinishAdd(FinishAdd(s, url, i1, joinOk), url, i2, joinOk);
    assert r.queue == s.queue + [OptimizedBot.SongOf(url, i1)] + [OptimizedBot.SongOf(url, i2)];
    assert r.queue[|s.queue|].url == r.queue[|s.queue| + 1].url;
  }

  /** `queue.shift(); isProcessing = false; playNextInQueue()`. */
  function DropHead(s: State, joinOk: bool): (r: State)
    ensures r.queue == Shift(s.queue)
    ensures s.connected && |s.queue| > 1 ==> r.processing && r.current == Some(s.queue[1])
    ensures HeadIsCurrent(s) ==> HeadIsCurrent(r)
  {
    PlayNext(s.(queue := Shift(s.queue), processing := false), joinOk)
  }

  /**
   * The callbacks of `playWithDownload`: a close removes the child from the registry; a failed
   * download drops the head and moves on; a good file starts playing and changes nothing else.
   */
  function DownloadDone(s: State, pid: int, d: OptimizedBot.Download, joinOk: bool): (r: State)
    ensures OptimizedBot.Failed(d) ==> r.queue == Shift(s.queue)
    ensures !OptimizedBot.Failed(d) ==> r == s.(processes := s.processes - {pid})
    ensures d.Closed? ==> pid !in r.processes
    ensures HeadIsCurrent(s) ==> HeadIsCurrent(r)
  {
    match d
    case TimedOut => DropHead(s, joinOk)
    case SpawnFailed => DropHead(s, joinOk)
    case Closed(code, fileExists, size) =>
      var s1 := s.(processes := s.processes - {pid});
      if code != Some(0) || !fileExists || size < OptimizedBot.MinFileSize then DropHead(s1, joinOk) else s1
  }

  /** The end of a song, or a player error: the head is shifted and the next song started. */
  lemma EndShiftsHead(s: State, joinOk: bool)
    requires HeadIsCurrent(s) && s.current.Some? && |s.queue| > 1
    ensures DropHead(s, joinOk).queue == s.queue[1..] && DropHead(s, joinOk).current == Some(s.queue[1])
  {
  }

  /** The skip button asks the player to stop exactly when a song follows the head; it changes no state. */
  function SkipStops(s: State): (stops: bool)
    ensures stops <==> |s.queue| > 1
  {
    |s.queue| > 1
  }

  /** The shuffle button: refused under two songs, otherwise the whole queue is mixed. */
  function Shuffled(s: State, picks: seq<int>): (r: (State, bool))
    requires |s.queue| >= 2 ==> ValidPicks(picks, |s.queue|)
    ensures r.1 <==> |s.queue| >= 2
    ensures !r.1 ==> r.0 == s
    ensures multiset(r.0.queue) == multiset(s.queue) && |r.0.queue| == |s.queue|
    ensures r.0.current == s.current && r.0.processing == s.processing
  {
    if |s.queue| < 2 then (s, false)
    else
      FisherYatesPermutes(s.queue, picks);
      (s.(queue := FisherYates(s.queue, picks)), true)
  }

  /** The stop button: no queue, no current song, nothing processing, no child, no connection. */
  function Stop(s: State): (r: State)
    ensures r == Initial
  {
    State([], None, false, false, {})
  }

  /**
   * Every transition of the bot. `Added` is an add with nothing else running during its
   * lookup; `Resolved` is the completion of an add whose duplicate check passed earlier, with
   * other events, other adds among them, run in between.
   */
  datatype Event =
    | Added(url: string, info: Info, joinOk: bool)
    | Resolved(url: string, info: Info, joinOk: bool)
    | Advance(joinOk: bool)
    | ProbedLong(joinOk: bool)
    | Spawned(pid: int)
    | Finished(pid: int, outcome: OptimizedBot.Download, joinOk: bool)
    | Ended(joinOk: bool)
    | PlayerFailed(joinOk: bool)
    | ShuffleCmd(picks: seq<int>)
    | StopCmd

  function Step(s: State, e: Event): State
  {
    match e
    case Added(url, info, joinOk) => Add(s, url, info, joinOk)
    case Resolved(url, info, joinOk) => FinishAdd(s, url, info, joinOk)
    case Advance(joinOk) => PlayNext(s, joinOk)
    case ProbedLong(joinOk) => DropHead(s, joinOk)
    case Spawned(pid) => s.(processes := s.processes + {pid})
    case Finished(pid, d, joinOk) => DownloadDone(s, pid, d, joinOk)
    case Ended(joinOk) => DropHead(s, joinOk)
    case PlayerFailed(joinOk) => DropHead(s, joinOk)
    case ShuffleCmd(picks) =>
      if |s.queue| >= 2 && !ValidPicks(picks, |s.queue|) then s else Shuffled(s, picks).0
    case StopCmd => Stop(s)
  }

  function Run(s: State, es: seq<Event>): State
    decreases |es|
  {
    if es == [] then s else Run(Step(s, es[0]), es[1..])
  }

  /** Every transition but the shuffle keeps the current song at the head. */
  lemma StepKeepsHead(s: State, e: Event)
    requires HeadIsCurrent(s) && !e.ShuffleCmd?
    ensures HeadIsCurrent(Step(s, e))
  {
  }

  /** Along a run without shuffles, the song playing stays queued at the head. */
  lemma {:induction false} RunKeepsHead(s: State, es: seq<Event>)
    requires HeadIsCurrent(s)
    requires forall k :: 0 <= k < |es| ==> !es[k].ShuffleCmd?
    ensures HeadIsCurrent(Run(s, es))
    decreases |es|
  {
    if es != [] {
      StepKeepsHead(s, es[0]);
      assert forall k :: 0 <= k < |es[1..]| ==> es[1..][k] == es[k + 1];
      RunKeepsHead(Step(s, es[0]), es[1..]);
    }
  }

  class Bot {
    var queue: seq<Song>
    var current: Option<Song>
    var processing: bool
    var connected: bool
    var processes: set<int>

    function Snapshot(): State
      reads this
    {
      State(queue, current, processing, connected, processes)
    }

    constructor()
      ensures Snapshot() == Initial
    {
      queue, current, processing, connected, processes := [], None, false, false, {};
    }

    /** `playNextInQueue(voiceChannel)` up to the start of the head's playback. */
    method PlayNextInQueue(joinOk: bool)
      modifies this
      ensures Snapshot() == PlayNext(old(Snapshot()), joinOk)
    {
      if processing {
        return;
      }
      if !connected {
        if !joinOk {
          return;
        }
        connected := true;
      }
      if |queue| == 0 {
        connected := false;
        current := None;
        processing := false;
        return;
      }
      processing := true;
      current := Some(queue[0]);
    }

    /** `addSongToQueue(url)` up to the lookup: whether the duplicate check lets it go on. */
    method CheckDuplicate(url: string) returns (ok: bool)
      ensures ok == AddChecked(Snapshot(), url)
    {
      var isDuplicate := HasUrl(queue, url) || (current.Some? && current.value.url == url);
      ok := !isDuplicate;
    }

    /** `addSongToQueue(url)` once the lookup gave the record `info`. */
    method AddSongResolved(url: string, info: Info, joinOk: bool)
      modifies this
      ensures Snapshot() == FinishAdd(old(Snapshot()), url, info, joinOk)
    {
      if info.isLong {
        return;
      }
      queue := queue + [OptimizedBot.SongOf(url, info)];
      if !processing {
        PlayNextInQueue(joinOk);
      }
    }

    /** `addSongToQueue(url)` when nothing else runs during the lookup: whether it passed the check. */
    method AddSongToQueue(url: string, info: Info, joinOk: bool) returns (checked: bool)
      modifies this
      ensures checked == AddChecked(old(Snapshot()), url)
      ensures Snapshot() == Add(old(Snapshot()), url, info, joinOk)
    {
      checked := CheckDuplicate(url);
      if !checked {
        return;
      }
      AddSongResolved(url, info, joinOk);
    }

    /** What every failure handler and the Idle callback do. */
    method ShiftAndAdvance(joinOk: bool)
      modifies this
      ensures Snapshot() == DropHead(old(Snapshot()), joinOk)
    {
      if |queue| > 0 {
        queue := queue[1..];
      }
      processing := false;
      PlayNextInQueue(joinOk);
    }

    /** `processes.add(child)`. */
    method OnDownloadSpawned(pid: int)
      modifies this
      ensures Snapshot() == old(Snapshot()).(processes := old(processes) + {pid})
    {
      processes := processes + {pid};
    }

    /** The timeout, `error` and `close` callbacks of `playWithDownload`. */
    method OnDownloadFinished(pid: int, d: OptimizedBot.Download, joinOk: bool)
      modifies this
      ensures Snapshot() == DownloadDone(old(Snapshot()), pid, d, joinOk)
    {
      match d
      case TimedOut =>
        ShiftAndAdvance(joinOk);
      case SpawnFailed =>
        ShiftAndAdvance(joinOk);
      case Closed(code, fileExists, size) =>
        processes := processes - {pid};
        if code != Some(0) || !fileExists || size < OptimizedBot.MinFileSize {
          ShiftAndAdvance(joinOk);
        }
    }

    /** The skip button: whether the player is stopped. */
    method SkipButton(hasPlayer: bool) returns (stopsPlayer: bool)
      ensures stopsPlayer <==> SkipStops(Snapshot()) && hasPlayer
    {
      stopsPlayer := |queue| > 1 && hasPlayer;
    }

    /** The shuffle button, `shuffleQueue(queue)` swapping the cells of the whole queue in place. */
    method ShuffleButton(picks: seq<int>) returns (shuffled: bool)
      requires |queue| >= 2 ==> ValidPicks(picks, |queue|)
      modifies this
      ensures (Snapshot(), shuffled) == Shuffled(old(Snapshot()), picks)
    {
      if |queue| < 2 {
        return false;
      }
      var cells := new Song[|queue|](i requires 0 <= i < |queue| reads this => queue[i]);
      assert cells[..] == queue;
      ShuffleQueue(cells, picks);
      queue := cells[..];
      shuffled := true;
    }

    /** The stop button. */
    method StopButton()
      modifies this
      ensures Snapshot() == Stop(old(Snapshot()))
    {
      queue := [];
      current := None;
      processing := false;
      processes := {};
      connected := false;
    }
  }
}
