/**
 * The song records the queue holds and the look-ups by URL the bot performs on them
 * (`queue.some(song => song.url === url)`, `findIndex`, `splice`).
 */
module Songs {
  import opened Wrappers
  import opened Sequences

  /**
   * A queued song: its URL, title, the duration text yt-dlp printed ("" when the song has
   * none yet, as for playlist entries) and whether it is played by streaming.
   * The Discord member and channel it carries are not modelled.
   */
  datatype Song = Song(url: string, title: string, duration: string, shouldStream: bool)

  /** `q.some(song => song.url === url)`. */
  predicate HasUrl(q: seq<Song>, url: string)
  {
    exists i :: 0 <= i < |q| && q[i].url == url
  }

  /** `q.findIndex(song => song.url === url)`, `None` standing for -1. */
  function FindUrl(q: seq<Song>, url: string): (r: Option<nat>)
    ensures r.None? <==> !HasUrl(q, url)
    ensures r.Some? ==> r.value < |q| && q[r.value].url == url
    ensures r.Some? ==> forall k :: 0 <= k < r.value ==> q[k].url != url
  {
    if q == [] then None
    else if q[0].url == url then Some(0)
    else match FindUrl(q[1..], url)
      case None => None
      case Some(i) => Some(i + 1)
  }

  /** Removes the first song with this URL, if there is one. */
  function RemoveFirstWithUrl(q: seq<Song>, url: string): seq<Song>
  {
    match FindUrl(q, url)
    case None => q
    case Some(i) => RemoveAt(q, i)
  }

  /** Appends `song` unless a song with the same URL is already there. */
  function AppendIfAbsent(q: seq<Song>, song: Song): seq<Song>
  {
    if HasUrl(q, song.url) then q else q + [song]
  }

  /** No two entries share a URL. */
  predicate UniqueUrls(q: seq<Song>)
  {
    forall i, j :: 0 <= i < j < |q| ==> q[i].url != q[j].url
  }

  /** Appending when absent keeps URLs unique and never loses the URL. */
  lemma AppendIfAbsentUnique(q: seq<Song>, song: Song)
    requires UniqueUrls(q)
    ensures UniqueUrls(AppendIfAbsent(q, song)) && HasUrl(AppendIfAbsent(q, song), song.url)
  {
    if !HasUrl(q, song.url) {
      var r := q + [song];
      assert r[|q|].url == song.url;
      forall i, j | 0 <= i < j < |r|
        ensures r[i].url != r[j].url
      {
        if j == |q| {
          assert r[i] == q[i];
        }
      }
    }
  }

  /** Removing an entry keeps URLs unique. */
  lemma RemoveAtUnique(q: seq<Song>, i: nat)
    requires UniqueUrls(q) && i < |q|
    ensures UniqueUrls(RemoveAt(q, i))
  {
    var r := RemoveAt(q, i);
    forall a, b | 0 <= a < b < |r|
      ensures r[a].url != r[b].url
    {
      var a' := if a < i then a else a + 1;
      var b' := if b < i then b else b + 1;
      assert r[a] == q[a'] && r[b] == q[b'];
    }
  }

  /**
   * With unique URLs, removing the first entry with a URL removes the URL entirely and
   * keeps the others unique.
   */
  lemma RemoveFirstWithUrlUnique(q: seq<Song>, url: string)
    requires UniqueUrls(q)
    ensures UniqueUrls(RemoveFirstWithUrl(q, url)) && !HasUrl(RemoveFirstWithUrl(q, url), url)
  {
    match FindUrl(q, url)
    case None =>
    case Some(i) =>
      RemoveAtUnique(q, i);
      var r := RemoveAt(q, i);
      forall k | 0 <= k < |r|
        ensures r[k].url != url
      {
        if k < i {
          assert r[k] == q[k];
        } else {
          assert r[k] == q[k + 1];
        }
      }
  }

  /** What is left after songs are taken off the front keeps its URLs distinct. */
  lemma SuffixUnique(q: seq<Song>, k: nat)
    requires UniqueUrls(q) && k <= |q|
    ensures UniqueUrls(q[k..])
  {
    forall a, b | 0 <= a < b < |q[k..]|
      ensures q[k..][a].url != q[k..][b].url
    {
      assert q[k..][a] == q[k + a] && q[k..][b] == q[k + b];
    }
  }

  /** Appending a song whose URL is not there yet keeps the URLs distinct; appending one that is breaks them. */
  lemma AppendUnique(q: seq<Song>, song: Song)
    ensures UniqueUrls(q) && !HasUrl(q, song.url) ==> UniqueUrls(q + [song])
    ensures HasUrl(q, song.url) ==> !UniqueUrls(q + [song])
  {
    if UniqueUrls(q) && !HasUrl(q, song.url) {
      AppendIfAbsentUnique(q, song);
    }
    if HasUrl(q, song.url) {
      var i :| 0 <= i < |q| && q[i].url == song.url;
      assert (q + [song])[i].url == (q + [song])[|q|].url;
    }
  }

  /** A permutation of a sequence with unique URLs has unique URLs. */
  lemma PermutationUnique(q: seq<Song>, r: seq<Song>)
    requires UniqueUrls(q) && multiset(q) == multiset(r)
    ensures UniqueUrls(r)
  {
    forall a, b | 0 <= a < b < |r|
      ensures r[a].url != r[b].url
    {
      assert r[a] in multiset(q) && r[b] in multiset(q);
      var i :| 0 <= i < |q| && q[i] == r[a];
      var j :| 0 <= j < |q| && q[j] == r[b];
      if r[a] == r[b] {
        OccursTwice(r, a, b);
        OccursOnce(q, i);
        assert false;
      }
    }
  }

  lemma OccursTwice(r: seq<Song>, a: nat, b: nat)
    requires a < b < |r| && r[a] == r[b]
    ensures multiset(r)[r[a]] >= 2
  {
    assert r == r[..a] + [r[a]] + r[a + 1..b] + [r[b]] + r[b + 1..];
  }

  lemma OccursOnce(q: seq<Song>, i: nat)
    requires UniqueUrls(q) && i < |q|
    ensures multiset(q)[q[i]] == 1
  {
    assert q == q[..i] + [q[i]] + q[i + 1..];
    assert forall k :: 0 <= k < i ==> q[..i][k] != q[i];
    var rest := q[i + 1..];
    assert forall k :: 0 <= k < |rest| ==> rest[k] == q[i + 1 + k];
    assert q[i] !in q[..i] && q[i] !in rest;
  }
}
