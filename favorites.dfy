/**
 * The per-user favorites of the optimized bot: `addFavorite`, `removeFavorite`,
 * `getUserFavorites` and the `!fav play`, `!fav remove` and `!fav clear` commands.
 *
 * The JSON file the source reads before and writes after every change is an in-memory map from
 * user id to that user's list; the timestamp `new Date().toISOString()` is a parameter.
 */
module Favorites {
  import opened Wrappers
  import opened Sequences
  import opened Songs
  import opened JsText

  /** A saved favorite: the fields copied from the song, and when it was added. */
  datatype Favorite = Favorite(url: string, title: string, duration: string, shouldStream: bool, addedAt: string)

  function FavoriteOf(song: Song, now: string): Favorite
  {
    Favorite(song.url, song.title, song.duration, song.shouldStream, now)
  }

  /** `favs.some(fav => fav.url === url)`. */
  predicate Listed(favs: seq<Favorite>, url: string)
  {
    exists i :: 0 <= i < |favs| && favs[i].url == url
  }

  /** No URL is saved twice in one user's list. */
  predicate DistinctUrls(favs: seq<Favorite>)
  {
    forall i, j :: 0 <= i < j < |favs| ==> favs[i].url != favs[j].url
  }

  /** `addFavorite` on one user's list: refused (`None`) when the URL is already saved. */
  function AddTo(favs: seq<Favorite>, song: Song, now: string): (r: Option<seq<Favorite>>)
    ensures r.None? <==> Listed(favs, song.url)
    ensures r.Some? ==> |r.value| == |favs| + 1 && r.value[..|favs|] == favs && r.value[|favs|] == FavoriteOf(song, now)
  {
    if Listed(favs, song.url) then None else Some(favs + [FavoriteOf(song, now)])
  }

  /**
   * `removeFavorite` on one user's list with a 1-based position: refused (`None`) outside
   * [1, length], otherwise the removed favorite and the list without it.
   */
  function RemoveFrom(favs: seq<Favorite>, position: int): (r: Option<(Favorite, seq<Favorite>)>)
    ensures r.None? <==> position < 1 || position > |favs|
    ensures r.Some? ==> r.value.0 == favs[position - 1]
    ensures r.Some? ==> multiset(r.value.1) + multiset{r.value.0} == multiset(favs)
    ensures r.Some? ==> |r.value.1| == |favs| - 1
  {
    if position < 1 || position > |favs| then None
    else
      RemoveAtMultiset(favs, position - 1);
      Some((favs[position - 1], RemoveAt(favs, position - 1)))
  }

  /** Adding keeps the URLs of a list distinct, and the URL is saved afterwards. */
  lemma AddKeepsDistinct(favs: seq<Favorite>, song: Song, now: string)
    requires DistinctUrls(favs) && AddTo(favs, song, now).Some?
    ensures DistinctUrls(AddTo(favs, song, now).value)
    ensures Listed(AddTo(favs, song, now).value, song.url)
  {
    var r := AddTo(favs, song, now).value;
    assert r[|favs|].url == song.url;
    forall i, j | 0 <= i < j < |r| ensures r[i].url != r[j].url {
      assert r[i] == favs[i];
      if j < |favs| {
        assert r[j] == favs[j];
      }
    }
  }

  /** Adding the same song twice is refused the second time. */
  lemma AddTwiceRefused(favs: seq<Favorite>, song: Song, now: string, later: string)
    requires AddTo(favs, song, now).Some?
    ensures AddTo(AddTo(favs, song, now).value, song, later).None?
  {
    var r := AddTo(favs, song, now).value;
    assert r[|favs|].url == song.url;
  }

  /** Removing keeps the URLs of a list distinct, and the removed URL is gone. */
  lemma RemoveKeepsDistinct(favs: seq<Favorite>, position: int)
    requires DistinctUrls(favs) && RemoveFrom(favs, position).Some?
    ensures DistinctUrls(RemoveFrom(favs, position).value.1)
    ensures !Listed(RemoveFrom(favs, position).value.1, favs[position - 1].url)
  {
    var i := position - 1;
    var r := RemoveAt(favs, i);
    forall a, b | 0 <= a < b < |r| ensures r[a].url != r[b].url {
      var a' := if a < i then a else a + 1;
      var b' := if b < i then b else b + 1;
      assert r[a] == favs[a'] && r[b] == favs[b'];
    }
    forall k | 0 <= k < |r| ensures r[k].url != favs[i].url {
      if k < i {
        assert r[k] == favs[k];
      } else {
        assert r[k] == favs[k + 1];
      }
    }
  }

  /** Removing the favorite just added, at the last position, gives the list back. */
  lemma AddThenRemoveLast(favs: seq<Favorite>, song: Song, now: string)
    requires AddTo(favs, song, now).Some?
    ensures RemoveFrom(AddTo(favs, song, now).value, |favs| + 1) == Some((FavoriteOf(song, now), favs))
  {
    var r := AddTo(favs, song, now).value;
    assert RemoveAt(r, |favs|) == favs;
  }

  /**
   * The favorite `!fav play n` queues: `parseInt(n)` must give a non-zero number (`!position`
   * rejects 0 and `NaN`) within [1, length]; the result is its URL.
   */
  function PlayTarget(favs: seq<Favorite>, arg: string): (r: Option<string>)
    ensures r.Some? <==> ParseIntOf(arg).Some? && 1 <= ParseIntOf(arg).value <= |favs|
    ensures r.Some? ==> r.value == favs[ParseIntOf(arg).value - 1].url && Listed(favs, r.value)
  {
    match ParseIntOf(arg)
    case None => None
    case Some(position) =>
      if position == 0 then None
      else if position < 1 || position > |favs| then None
      else Some(favs[position - 1].url)
  }

  /** The favorites file, held in memory: user id to that user's list. */
  class Store {
    var byUser: map<string, seq<Favorite>>

    /** Each user's list has distinct URLs. */
    ghost predicate Valid()
      reads this
    {
      forall u :: u in byUser ==> DistinctUrls(byUser[u])
    }

    /** `getUserFavorites(userId)`: the user's list, or `[]` for an unknown user. */
    function ListOf(user: string): seq<Favorite>
      reads this
    {
      if user in byUser then byUser[user] else []
    }

    constructor()
      ensures byUser == map[] && Valid()
    {
      byUser := map[];
    }

    /** `addFavorite(userId, song)`: whether the song was added. */
    method AddFavorite(user: string, song: Song, now: string) returns (added: bool)
      requires Valid()
      modifies this
      ensures Valid()
      ensures added <==> !Listed(old(ListOf(user)), song.url)
      ensures added ==> byUser == old(byUser)[user := AddTo(old(ListOf(user)), song, now).value]
      ensures !added ==> byUser == old(byUser)
    {
      var favs := ListOf(user);
      var r := AddTo(favs, song, now);
      if r.None? {
        return false;
      }
      AddKeepsDistinct(favs, song, now);
      byUser := byUser[user := r.value];
      added := true;
    }

    /** `!fav add`: the song playing is added; with nothing playing nothing changes. */
    method AddCommand(user: string, current: Option<Song>, now: string) returns (added: bool)
      requires Valid()
      modifies this
      ensures Valid()
      ensures current.None? ==> !added && byUser == old(byUser)
      ensures current.Some? ==> (added <==> !Listed(old(ListOf(user)), current.value.url))
      ensures added ==> byUser == old(byUser)[user := AddTo(old(ListOf(user)), current.value, now).value]
      ensures !added ==> byUser == old(byUser)
    {
      if current.None? {
        return false;
      }
      added := AddFavorite(user, current.value, now);
    }

    /** `removeFavorite(userId, position)`: the removed favorite, or `None` for `null`. */
    method RemoveFavorite(user: string, position: int) returns (removed: Option<Favorite>)
      requires Valid()
      modifies this
      ensures Valid()
      ensures removed.None? <==> user !in old(byUser) || RemoveFrom(old(byUser)[user], position).None?
      ensures removed.None? ==> byUser == old(byUser)
      ensures removed.Some? ==>
                var r := RemoveFrom(old(byUser)[user], position).value;
                removed.value == r.0 && byUser == old(byUser)[user := r.1]
    {
      if user !in byUser {
        return None;
      }
      var r := RemoveFrom(byUser[user], position);
      if r.None? {
        return None;
      }
      RemoveKeepsDistinct(byUser[user], position);
      byUser := byUser[user := r.value.1];
      removed := Some(r.value.0);
    }

    /** `!fav remove n`: `parseInt(n)` must give a non-zero number before anything is removed. */
    method RemoveCommand(user: string, arg: string) returns (removed: Option<Favorite>)
      requires Valid()
      modifies this
      ensures Valid()
      ensures (ParseIntOf(arg).None? || ParseIntOf(arg).value == 0) ==> removed.None? && byUser == old(byUser)
      ensures removed.Some? ==>
                ParseIntOf(arg).Some? && user in old(byUser) && user in byUser
                && RemoveFrom(old(byUser)[user], ParseIntOf(arg).value) == Some((removed.value, byUser[user]))
    {
      var position := ParseIntOf(arg);
      if position.None? || position.value == 0 {
        return None;
      }
      removed := RemoveFavorite(user, position.value);
    }

    /** `!fav clear`: the number of favorites cleared; nothing is written when there were none. */
    method Clear(user: string) returns (count: nat)
      requires Valid()
      modifies this
      ensures Valid()
      ensures count == |old(ListOf(user))|
      ensures count == 0 ==> byUser == old(byUser)
      ensures count > 0 ==> byUser == old(byUser)[user := []] && ListOf(user) == []
    {
      count := |ListOf(user)|;
      if count == 0 {
        return;
      }
      byUser := byUser[user := []];
    }
  }
}
