/**
 * The song-queue state machine of index.js, the first driver: a queue of bare URLs, the current
 * song, `isProcessing`, the voice connection and `currentVolume`. Songs are downloaded with
 * `exec` and played from the file; commands are `!play`, `!skip`, `!stop`, `!volume` and
 * `!shuffle`.
 *
 * `State` is that state as a value and each handler a function on it; `Bot` holds the same
 * globals and its methods change them as the handlers do.
 */
module OriginalBot {
  import opened Wrappers
  import opened Sequences
  import opened Songs
  import opened Shuffle
  import opened JsText

  /** A downloaded file under this many bytes counts as incomplete. */
  const MinFileSize: int := 10000

  /** `currentVolume` at start-up. */
  const InitialVolume: real := 0.5

  datatype State = State(queue: seq<Song>, current: Option<Song>, processing: bool, connected: bool, volume: real)

  const Initial: State := State([], None, false, false, InitialVolume)

  /** While a song is current, the connection is up and that song is still the queue's head. */
  predicate HeadIsCurrent(s: State)
  {
    s.current.Some? ==> s.connected && s.queue != [] && s.queue[0] == s.current.value
  }

  /** The volume is a fraction between silence and full. */
  predicate VolumeInRange(s: State)
  {
    0.0 <= s.volume <= 1.0
  }

  /** The queue entry `!play` pushes: the URL alone, with no title or duration. */
  function UrlOnly(url: string): (song: Song)
    ensures song.url == url && !song.shouldStream
  {
    Song(url, "", "", false)
  }

  /**
   * `playNextInQueue`: a failed join clears `isProcessing` and stops; the empty-queue check
   * comes first, so an empty queue disconnects and clears the current song and
   * `isProcessing` even while processing; then a busy bot does nothing; otherwise the head
   * becomes the current song and stays queued.
   */
  function PlayNext(s: State, joinOk: bool): (r: State)
    ensures r.queue == s.queue && r.volume == s.volume
    ensures !s.connected && !joinOk ==> r == s.(processing := false)
    ensures (s.connected || joinOk) && s.queue == [] ==> r.current.None? && !r.processing && !r.connected
    ensures s.connected && s.queue != [] && s.processing ==> r == s
    ensures (s.connected || joinOk) && s.queue != [] && !s.processing ==>
              r.processing && r.current == Some(s.queue[0])
    ensures HeadIsCurrent(s) ==> HeadIsCurrent(r)
  {
    if !s.connected && !joinOk then s.(processing := false)
    else
      var s1 := s.(connected := true);
      if s1.queue == [] then s1.(connected := false, current := None, processing := false)
      else if s1.processing then s1
      else s1.(processing := true, current := Some(s1.queue[0]))
  }

  /** `queue.shift(); isProcessing = false; playNextInQueue()`. */
  function DropHead(s: State, joinOk: bool): (r: State)
    ensures r.queue == Shift(s.queue)
    ensures s.connected && |s.queue| > 1 ==> r.processing && r.current == Some(s.queue[1])
    ensures HeadIsCurrent(s) ==> HeadIsCurrent(r)
  {
    PlayNext(s.(queue := Shift(s.queue), processing := false), joinOk)
  }

  /** How the `exec` of yt-dlp came back: an error, a file too small, no ready connection, or playing. */
  datatype Fetched = ExecError | Written(size: int, ready: bool)

  /**
   * The `exec` callback: an error or a file under 10000 bytes drops the head and moves on; a
   * connection that is not ready clears `isProcessing` but keeps the head; otherwise the song
   * plays and nothing changes.
   */
  function DownloadDone(s: State, f: Fetched, joinOk: bool): (r: State)
    ensures f.ExecError? || (f.Written? && f.size < MinFileSize) ==> r == DropHead(s, joinOk)
    ensures f.Written? && f.size >= MinFileSize && !f.ready ==> r == s.(processing := false)
    ensures f.Written? && f.size >= MinFileSize && f.ready ==> r == s
    ensures HeadIsCurrent(s) ==> HeadIsCurrent(r)
  {
    match f
    case ExecError => DropHead(s, joinOk)
    case Written(size, ready) =>
      if size < MinFileSize then DropHead(s, joinOk)
      else if !ready then s.(processing := false)
      else s
  }

  /**
   * When the connection was not ready the head was never played, yet it stays queued and
   * nothing is processing: the next call of `playNextInQueue` starts the same song again.
   */
  lemma NotReadyRetriesHead(s: State, size: int, joinOk: bool)
    requires HeadIsCurrent(s) && s.current.Some? && size >= MinFileSize
    ensures var r := DownloadDone(s, Written(size, false), joinOk);
      r.queue == s.queue && !r.processing && PlayNext(r, joinOk).current == Some(s.queue[0])
  {
  }

  /** `!play url` for a single video: pushed without any duplicate check, and played if idle. */
  function Play(s: State, url: string, joinOk: bool): (r: State)
    ensures r.queue == s.queue + [UrlOnly(url)]
    ensures HeadIsCurrent(s) ==> HeadIsCurrent(r)
  {
    var s1 := s.(queue := s.queue + [UrlOnly(url)]);
    if !s1.processing then PlayNext(s1, joinOk) else s1
  }

  /** `!play` of a URL already queued queues it a second time. */
  lemma PlayQueuesDuplicates(s: State, url: string, joinOk: bool)
    requires HasUrl(s.queue, url)
    ensures !UniqueUrls(Play(s, url, joinOk).queue)
  {
    var q := Play(s, url, joinOk).queue;
    var i :| 0 <= i < |s.queue| && s.queue[i].url == url;
    assert q[i].url == q[|s.queue|].url;
  }

  /** `!skip` stops the player exactly when a song follows the head; it changes no state. */
  function SkipStops(s: State): (stops: bool)
    ensures stops <==> |s.queue| > 1
  {
    |s.queue| > 1
  }

  /**
   * `!stop`: only with a player, the queue is emptied and the current song cleared;
   * `isProcessing` is left as it was.
   */
  function Stop(s: State, hasPlayer: bool): (r: State)
    ensures !hasPlayer ==> r == s
    ensures hasPlayer ==> r.queue == [] && r.current.None? && r.processing == s.processing
    ensures hasPlayer ==> r.connected == s.connected && r.volume == s.volume
  {
    if hasPlayer then s.(queue := [], current := None) else s
  }

  /**
   * The player's stop ends the song: its Idle callback then clears `isProcessing`, so the bot
   * settles with nothing queued, nothing current and nothing processing.
   */
  lemma StopThenIdleSettles(s: State, joinOk: bool)
    ensures var r := DropHead(Stop(s, true), joinOk);
      r.queue == [] && r.current.None? && !r.processing
  {
  }

  /**
   * `!volume v`: accepted exactly when `parseFloat(v)` is a finite number in [0, 100] (an
   * infinity fails the range test); the volume becomes `v / 100`, and with songs queued
   * `playNextInQueue` is called again.
   */
  function SetVolume(s: State, arg: string, joinOk: bool): (r: (State, bool))
    ensures r.1 <==> FiniteValue(ParseFloatOf(arg)).Some? && 0.0 <= FiniteValue(ParseFloatOf(arg)).value <= 100.0
    ensures !r.1 ==> r.0 == s
    ensures r.1 ==> r.0.volume == FiniteValue(ParseFloatOf(arg)).value / 100.0 && VolumeInRange(r.0)
    ensures r.1 && s.queue == [] ==> r.0 == s.(volume := FiniteValue(ParseFloatOf(arg)).value / 100.0)
    ensures r.0.queue == s.queue
    ensures HeadIsCurrent(s) ==> HeadIsCurrent(r.0)
  {
    match ParseFloatOf(arg)
    case Some(Finite(v)) =>
      if 0.0 <= v <= 100.0 then
        var s1 := s.(volume := v / 100.0);
        (if |s1.queue| > 0 then PlayNext(s1, joinOk) else s1, true)
      else (s, false)
    case _ => (s, false)
  }

  /** Changing the volume while a song is being processed leaves the playback alone. */
  lemma VolumeWhileBusy(s: State, arg: string, joinOk: bool)
    requires s.connected && s.processing && SetVolume(s, arg, joinOk).1
    ensures SetVolume(s, arg, joinOk).0 == s.(volume := FiniteValue(ParseFloatOf(arg)).value / 100.0)
  {
  }

  /** `!volume 1e2`: `parseFloat` reads the exponent, so the volume is set to full. */
  lemma VolumeWithExponent(s: State, joinOk: bool)
    ensures SetVolume(s, "1e2", joinOk).1 && SetVolume(s, "1e2", joinOk).0.volume == 1.0
  {
    assert "1e2" == "1" + "e" + "" + "2";
    assert DigitsValue("1") == 1 && DigitsValue("2") == 2;
    ExponentLiteral("1", "", "2");
    assert Scale10(1.0, false, 2) == 100.0;
  }

  /** `!shuffle`: the whole queue is mixed, with no check on its length. */
  function Shuffled(s: State, picks: seq<int>): (r: State)
    requires ValidPicks(picks, |s.queue|)
    ensures multiset(r.queue) == multiset(s.queue) && |r.queue| == |s.queue|
    ensures |s.queue| < 2 ==> r == s
    ensures r == s.(queue := r.queue)
  {
    FisherYatesPermutes(s.queue, picks);
    assert |s.queue| < 2 ==> FisherYates(s.queue, picks) == s.queue by {
      if |s.queue| < 2 {
        assert |s.queue| == 0 || FisherYatesFrom(s.queue, picks, 0) == s.queue;
      }
    }
    s.(queue := FisherYates(s.queue, picks))
  }

  /** Every transition of the bot. */
  datatype Event =
    | PlayCmd(url: string, joinOk: bool)
    | Advance(joinOk: bool)
    | Downloaded(outcome: Fetched, joinOk: bool)
    | Ended(joinOk: bool)
    | PlayerFailed(joinOk: bool)
    | StopCmd(hasPlayer: bool)
    | VolumeCmd(arg: string, joinOk: bool)
    | ShuffleCmd(picks: seq<int>)

  function Step(s: State, e: Event): State
  {
    match e
    case PlayCmd(url, joinOk) => Play(s, url, joinOk)
    case Advance(joinOk) => PlayNext(s, joinOk)
    case Downloaded(f, joinOk) => DownloadDone(s, f, joinOk)
    case Ended(joinOk) => DropHead(s, joinOk)
    case PlayerFailed(joinOk) => DropHead(s, joinOk)
    case StopCmd(p) => Stop(s, p)
    case VolumeCmd(arg, joinOk) => SetVolume(s, arg, joinOk).0
    case ShuffleCmd(picks) => if ValidPicks(picks, |s.queue|) then Shuffled(s, picks) else s
  }

  function Run(s: State, es: seq<Event>): State
    decreases |es|
  {
    if es == [] then s else Run(Step(s, es[0]), es[1..])
  }

  /** Every transition keeps the volume a fraction in [0, 1]. */
  lemma StepKeepsVolume(s: State, e: Event)
    requires VolumeInRange(s)
    ensures VolumeInRange(Step(s, e))
  {
  }

  /** From start-up, whatever is typed, the volume stays in [0, 1]. */
  lemma {:induction false} RunKeepsVolume(s: State, es: seq<Event>)
    requires VolumeInRange(s)
    ensures VolumeInRange(Run(s, es))
    decreases |es|
  {
    if es != [] {
      StepKeepsVolume(s, es[0]);
      RunKeepsVolume(Step(s, es[0]), es[1..]);
    }
  }

  /** Every transition but the shuffle keeps the current song at the head. */
  lemma StepKeepsHead(s: State, e: Event)
    requires HeadIsCurrent(s) && !e.ShuffleCmd?
    ensures HeadIsCurrent(Step(s, e))
  {
  }

  /** Along a run without shuffles, the song playing stays queued at the head. */
  lemma {:induction false} RunKeepsHead(s: State, es: seq<Event>)
    requires HeadIsCurrent(s)
    requires forall k :: 0 <= k < |es| ==> !es[k].ShuffleCmd?
    ensures HeadIsCurrent(Run(s, es))
    decreases |es|
  {
    if es != [] {
      StepKeepsHead(s, es[0]);
      assert forall k :: 0 <= k < |es[1..]| ==> es[1..][k] == es[k + 1];
      RunKeepsHead(Step(s, es[0]), es[1..]);
    }
  }

  class Bot {
    var queue: seq<Song>
    var current: Option<Song>
    var processing: bool
    var connected: bool
    var volume: real

    function Snapshot(): State
      reads this
    {
      State(queue, current, processing, connected, volume)
    }

    constructor()
      ensures Snapshot() == Initial
    {
      queue, current, processing, connected, volume := [], None, false, false, InitialVolume;
    }

    /** `playNextInQueue(voiceChannel)` up to the `exec` of the download. */
    method PlayNextInQueue(joinOk: bool)
      modifies this
      ensures Snapshot() == PlayNext(old(Snapshot()), joinOk)
    {
      if !connected {
        if !joinOk {
          processing := false;
          return;
        }
        connected := true;
      }
      if |queue| == 0 {
        connected := false;
        current := None;
        processing := false;
        return;
      }
      if processing {
        return;
      }
      processing := true;
      current := Some(queue[0]);
    }

    /** What the failure handlers and the Idle callback do. */
    method ShiftAndAdvance(joinOk: bool)
      modifies this
      ensures Snapshot() == DropHead(old(Snapshot()), joinOk)
    {
      if |queue| > 0 {
        queue := queue[1..];
      }
      processing := false;
      PlayNextInQueue(joinOk);
    }

    /** The `exec` callback. */
    method OnDownloaded(f: Fetched, joinOk: bool)
      modifies this
      ensures Snapshot() == DownloadDone(old(Snapshot()), f, joinOk)
    {
      if f.ExecError? {
        ShiftAndAdvance(joinOk);
        return;
      }
      if f.size < MinFileSize {
        ShiftAndAdvance(joinOk);
        return;
      }
      if !f.ready {
        processing := false;
      }
    }

    /** `!play url` for a single video. */
    method PlayCommand(url: string, joinOk: bool)
      modifies this
      ensures Snapshot() == Play(old(Snapshot()), url, joinOk)
    {
      queue := queue + [UrlOnly(url)];
      if !processing {
        PlayNextInQueue(joinOk);
      }
    }

    /** `!skip`: whether the player is stopped. */
    method SkipCommand() returns (stopsPlayer: bool)
      ensures stopsPlayer <==> SkipStops(Snapshot())
    {
      stopsPlayer := |queue| > 1;
    }

    /** `!stop`. */
    method StopCommand(hasPlayer: bool)
      modifies this
      ensures Snapshot() == Stop(old(Snapshot()), hasPlayer)
    {
      if hasPlayer {
        queue := [];
        current := None;
      }
    }

    /** `!volume v`: whether the volume changed. */
    method VolumeCommand(arg: string, joinOk: bool) returns (changed: bool)
      modifies this
      ensures (Snapshot(), changed) == SetVolume(old(Snapshot()), arg, joinOk)
    {
      var v := ParseFloatOf(arg);
      if v.None? || v.value.Infinite? || !(0.0 <= v.value.value <= 100.0) {
        return false;
      }
      volume := v.value.value / 100.0;
      changed := true;
      if |queue| > 0 {
        PlayNextInQueue(joinOk);
      }
    }

    /** `!shuffle`: `shuffleQueue(queue)` swapping the cells of the whole queue in place. */
    method ShuffleCommand(picks: seq<int>)
      requires ValidPicks(picks, |queue|)
      modifies this
      ensures Snapshot() == Shuffled(old(Snapshot()), picks)
    {
      var cells := new Song[|queue|](i requires 0 <= i < |queue| reads this => queue[i]);
      assert cells[..] == queue;
      ShuffleQueue(cells, picks);
      queue := cells[..];
    }
  }
}
