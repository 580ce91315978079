/**
 * The YouTube link normalisers and the link validator.
 *
 * Three revisions of `cleanYouTubeUrl` exist: the bot's (percent-decoding, bracket stripping,
 * 11-character video ids, `youtu.be/` links found anywhere in the text), the hostname-based one
 * of the video-info probe, and the list/v one of the playlist probe. All three either return the
 * input untouched or rewrite it to one of three canonical link shapes, modelled by `Canonical`.
 *
 * `decodeURIComponent` and `new URL(...)` are library calls: they are parameters here, `None`
 * standing for the exception they throw, and a parsed URL is given as hostname, pathname and the
 * decoded query pairs in order.
 */
module YouTubeUrls {
  import opened Wrappers
  import opened JsText

  /** What `new URL(s)` exposes to the normalisers. */
  datatype UrlParts = UrlParts(hostname: string, pathname: string, query: seq<(string, string)>)

  /** `urlObj.searchParams.get(name)`: the value of the first pair with that name. */
  function SearchParam(query: seq<(string, string)>, name: string): (r: Option<string>)
    ensures r.None? <==> forall i :: 0 <= i < |query| ==> query[i].0 != name
    ensures r.Some? ==> exists i :: 0 <= i < |query| && query[i] == (name, r.value)
  {
    if query == [] then None
    else if query[0].0 == name then Some(query[0].1)
    else
      var r := SearchParam(query[1..], name);
      assert forall i :: 1 <= i < |query| ==> query[i] == query[1..][i - 1];
      r
  }

  /** A JavaScript truthiness test on `get`'s result: present and not the empty string. */
  predicate Truthy(o: Option<string>) { o.Some? && o.value != "" }

  // ---------------------------------------------------------------------------
  // Canonical links

  const Https: string := "https://"
  const Http: string := "http://"
  const Www: string := "www."
  const WatchPath: string := "youtube.com/watch?v="
  const PlaylistPath: string := "youtube.com/playlist?list="
  const WatchPrefix: string := Https + Www + WatchPath
  const PlaylistPrefix: string := Https + Www + PlaylistPath
  const ListSeparator: string := "&list="
  const ShortHost: string := "youtu.be/"

  /** The outcome of a normaliser: the input as it was, or one of the rewritten shapes. */
  datatype Canonical =
    | Unchanged
    | Watch(video: string)
    | WatchInList(video: string, list: string)
    | PlaylistOnly(list: string)

  /** The string a normaliser returns for an outcome. */
  function Link(url: string, t: Canonical): (r: string)
    ensures t.Unchanged? ==> r == url
    ensures t.Watch? || t.WatchInList? ==> StartsWith(r, WatchPrefix)
    ensures t.PlaylistOnly? ==> StartsWith(r, PlaylistPrefix)
  {
    match t
    case Unchanged => url
    case Watch(v) => WatchPrefix + v
    case WatchInList(v, l) => WatchPrefix + v + ListSeparator + l
    case PlaylistOnly(l) => PlaylistPrefix + l
  }

  /** A character of the class `[a-zA-Z0-9_-]`. */
  predicate IsIdChar(c: char) { 'a' <= c <= 'z' || 'A' <= c <= 'Z' || '0' <= c <= '9' || c == '_' || c == '-' }

  /** `/^[a-zA-Z0-9_-]{11}$/`: a video id as the bot accepts it. */
  predicate IsVideoId(s: string) { |s| == 11 && forall i :: 0 <= i < |s| ==> IsIdChar(s[i]) }

  // ---------------------------------------------------------------------------
  // isValidYouTubeUrl

  /** The text after `https://` or `http://`. */
  function AfterScheme(s: string): Option<string>
  {
    if StartsWith(s, Https) then Some(s[|Https|..])
    else if StartsWith(s, Http) then Some(s[|Http|..])
    else None
  }

  /**
   * The text after an optional `www.`. The regex never needs to backtrack over it: every
   * alternative that can follow starts with `y`.
   */
  function AfterWww(s: string): string
  {
    if StartsWith(s, Www) then s[|Www|..] else s
  }

  /** The text after `youtube.com/watch?v=`, `youtube.com/playlist?list=` or `youtu.be/`. */
  function AfterPath(s: string): Option<string>
  {
    if StartsWith(s, WatchPath) then Some(s[|WatchPath|..])
    else if StartsWith(s, PlaylistPath) then Some(s[|PlaylistPath|..])
    else if StartsWith(s, ShortHost) then Some(s[|ShortHost|..])
    else None
  }

  /**
   * `/^https?:\/\/(www\.)?(youtube\.com\/(watch\?v=|playlist\?list=)|youtu\.be\/)([a-zA-Z0-9_-]+)/`
   * read left to right: the fixed prefix, then at least one id character.
   */
  predicate IsValidYouTubeUrl(url: string)
  {
    match AfterScheme(url)
    case None => false
    case Some(a) =>
      match AfterPath(AfterWww(a))
      case None => false
      case Some(rest) => |rest| > 0 && IsIdChar(rest[0])
  }

  /** `a + b` starts with `a`, and what follows `a` is `b`. */
  lemma Concat(a: string, b: string)
    ensures StartsWith(a + b, a) && (a + b)[|a|..] == b
  {
    assert (a + b)[..|a|] == a;
  }

  /** `https://www.` + `rest` is read by the validator as `rest` after scheme and `www.`. */
  lemma {:induction false} SchemeAndWww(rest: string)
    ensures AfterScheme(Https + Www + rest) == Some(Www + rest)
    ensures AfterWww(Www + rest) == rest
  {
    assert Https + Www + rest == Https + (Www + rest);
    Concat(Https, Www + rest);
    Concat(Www, rest);
  }

  /** A canonical watch link is accepted by the validator exactly when its id starts well. */
  lemma {:induction false} WatchLinkValid(v: string)
    ensures IsValidYouTubeUrl(WatchPrefix + v) <==> |v| > 0 && IsIdChar(v[0])
  {
    SchemeAndWww(WatchPath + v);
    assert WatchPrefix + v == Https + Www + (WatchPath + v);
    Concat(WatchPath, v);
    assert AfterPath(WatchPath + v) == Some(v);
  }

  /** A canonical playlist link is accepted by the validator exactly when its list id starts well. */
  lemma {:induction false} PlaylistLinkValid(l: string)
    ensures IsValidYouTubeUrl(PlaylistPrefix + l) <==> |l| > 0 && IsIdChar(l[0])
  {
    SchemeAndWww(PlaylistPath + l);
    assert PlaylistPrefix + l == Https + Www + (PlaylistPath + l);
    Concat(PlaylistPath, l);
    assert (PlaylistPath + l)[12] == 'p' && WatchPath[12] == 'w';
    assert !StartsWith(PlaylistPath + l, WatchPath);
    assert AfterPath(PlaylistPath + l) == Some(l);
  }

  /** The literal alternatives of the regex: scheme, optional `www.`, and the three paths. */
  predicate IsScheme(p: string) { p == Https || p == Http }
  predicate IsWww(p: string) { p == Www || p == "" }
  predicate IsPath(p: string) { p == WatchPath || p == PlaylistPath || p == ShortHost }

  /** The regex spelled out as one of its twelve literal prefixes followed by an id character. */
  ghost predicate MatchesSomePrefix(url: string)
  {
    exists scheme, www, path, rest ::
      IsScheme(scheme) && IsWww(www) && IsPath(path) && url == scheme + (www + (path + rest))
      && |rest| > 0 && IsIdChar(rest[0])
  }

  /** The scheme alternatives: `http://` is never mistaken for `https://`. */
  lemma {:induction false} ReadsScheme(scheme: string, x: string)
    requires IsScheme(scheme)
    ensures AfterScheme(scheme + x) == Some(x)
  {
    Concat(scheme, x);
    if scheme == Http {
      assert (scheme + x)[4] == ':' && Https[4] == 's';
    }
  }

  /** The optional `www.`: what follows it always starts with `y`, so the reading is unique. */
  lemma {:induction false} ReadsWww(www: string, y: string)
    requires IsWww(www) && |y| > 0 && y[0] == 'y'
    ensures AfterWww(www + y) == y
  {
    Concat(www, y);
    if www == "" {
      assert y[0] != Www[0];
    }
  }

  /** The three path alternatives differ, so each is read as itself. */
  lemma {:induction false} ReadsPath(path: string, rest: string)
    requires IsPath(path)
    ensures AfterPath(path + rest) == Some(rest)
  {
    Concat(path, rest);
    if path == PlaylistPath {
      assert (path + rest)[12] != WatchPath[12];
    } else if path == ShortHost {
      assert (path + rest)[5] != WatchPath[5];
      assert (path + rest)[5] != PlaylistPath[5];
    }
  }

  /** A URL beginning with one of the prefixes is accepted. */
  lemma {:induction false} PrefixIsValid(scheme: string, www: string, path: string, rest: string)
    requires IsScheme(scheme) && IsWww(www) && IsPath(path) && |rest| > 0 && IsIdChar(rest[0])
    ensures IsValidYouTubeUrl(scheme + (www + (path + rest)))
  {
    ReadsScheme(scheme, www + (path + rest));
    assert (path + rest)[0] == path[0] == 'y';
    ReadsWww(www, path + rest);
    ReadsPath(path, rest);
  }

  /** The scheme `AfterScheme` removed. */
  lemma SchemeSplit(url: string, a: string)
    requires AfterScheme(url) == Some(a)
    ensures var scheme := if StartsWith(url, Https) then Https else Http; IsScheme(scheme) && url == scheme + a
  {
    var scheme := if StartsWith(url, Https) then Https else Http;
    assert url == url[..|scheme|] + url[|scheme|..];
  }

  /** The `www.` `AfterWww` removed, if any. */
  lemma WwwSplit(a: string)
    ensures var www := if StartsWith(a, Www) then Www else ""; IsWww(www) && a == www + AfterWww(a)
  {
    if StartsWith(a, Www) {
      assert a == a[..|Www|] + a[|Www|..];
    }
  }

  /** The path `AfterPath` removed. */
  lemma PathSplit(b: string, rest: string)
    requires AfterPath(b) == Some(rest)
    ensures var path := if StartsWith(b, WatchPath) then WatchPath else if StartsWith(b, PlaylistPath) then PlaylistPath else ShortHost;
            IsPath(path) && b == path + rest
  {
    var path := if StartsWith(b, WatchPath) then WatchPath else if StartsWith(b, PlaylistPath) then PlaylistPath else ShortHost;
    assert b == b[..|path|] + b[|path|..];
  }

  /** An accepted URL begins with one of the prefixes. */
  lemma {:induction false} ValidHasPrefix(url: string)
    requires IsValidYouTubeUrl(url)
    ensures MatchesSomePrefix(url)
  {
    var a := AfterScheme(url).value;
    var b := AfterWww(a);
    var rest := AfterPath(b).value;
    SchemeSplit(url, a);
    WwwSplit(a);
    PathSplit(b, rest);
    var scheme := if StartsWith(url, Https) then Https else Http;
    var www := if StartsWith(a, Www) then Www else "";
    var path := if StartsWith(b, WatchPath) then WatchPath else if StartsWith(b, PlaylistPath) then PlaylistPath else ShortHost;
    assert url == scheme + (www + (path + rest));
  }

  /** `isValidYouTubeUrl` accepts exactly the URLs that begin with one of the regex's prefixes. */
  lemma ValidIffSomePrefix(url: string)
    ensures IsValidYouTubeUrl(url) <==> MatchesSomePrefix(url)
  {
    if IsValidYouTubeUrl(url) {
      ValidHasPrefix(url);
    }
    if MatchesSomePrefix(url) {
      var scheme, www, path, rest :|
        IsScheme(scheme) && IsWww(www) && IsPath(path) && url == scheme + (www + (path + rest))
        && |rest| > 0 && IsIdChar(rest[0]);
      PrefixIsValid(scheme, www, path, rest);
    }
  }

  // ---------------------------------------------------------------------------
  // The bot's cleanYouTubeUrl

  /** `s.replace(/[\[\]]/g, '')`. */
  function StripBrackets(s: string): (r: string)
    ensures forall i :: 0 <= i < |r| ==> r[i] != '[' && r[i] != ']'
    ensures |r| <= |s|
  {
    if s == [] then []
    else if s[0] == '[' || s[0] == ']' then StripBrackets(s[1..])
    else [s[0]] + StripBrackets(s[1..])
  }

  predicate NoBrackets(s: string) { forall i :: 0 <= i < |s| ==> s[i] != '[' && s[i] != ']' }

  /** Text without brackets is left as it is. */
  lemma {:induction false} StripNoBrackets(s: string)
    requires NoBrackets(s)
    ensures StripBrackets(s) == s
  {
    if s != [] {
      StripNoBrackets(s[1..]);
    }
  }

  /** A match of `/youtu\.be\/([a-zA-Z0-9_-]{11})/` starting at position `i`. */
  predicate ShortAt(s: string, i: nat)
  {
    i + 20 <= |s| && s[i..i + 9] == ShortHost && IsVideoId(s[i + 9..i + 20])
  }

  /** The leftmost match at or after `i`, as the regex engine finds it. */
  function FindShortLink(s: string, i: nat): (r: Option<nat>)
    requires i <= |s|
    ensures r.Some? ==> i <= r.value && ShortAt(s, r.value)
    ensures r.Some? ==> forall j :: i <= j < r.value ==> !ShortAt(s, j)
    ensures r.None? ==> forall j :: i <= j ==> !ShortAt(s, j)
    decreases |s| - i
  {
    if ShortAt(s, i) then Some(i)
    else if i + 20 >= |s| then None
    else FindShortLink(s, i + 1)
  }

  /** The `youtu.be/` fallback: the matched id, or the input unchanged. */
  function ShortLinkTarget(c: string): (t: Canonical)
    ensures t.Unchanged? || t.Watch?
    ensures t.Watch? ==> IsVideoId(t.video) && Contains(c, ShortHost + t.video)
  {
    if Contains(c, ShortHost) then
      match FindShortLink(c, 0)
      case Some(i) =>
        assert c[i..i + 20] == c[i..i + 9] + c[i + 9..i + 20];
        ContainsAt(c, ShortHost + c[i + 9..i + 20], i);
        Watch(c[i + 9..i + 20])
      case None => Unchanged
    else Unchanged
  }

  /** The bot's decision once the URL has parsed, from its `v` and `list` parameters. */
  function WatchOrListTarget(v: Option<string>, list: Option<string>): (t: Canonical)
    ensures Truthy(list) ==> (t.WatchInList? || t.PlaylistOnly?) && t.list == list.value
    ensures t.WatchInList? <==> Truthy(list) && v.Some? && IsVideoId(v.value)
    ensures t.Watch? <==> !Truthy(list) && v.Some? && IsVideoId(v.value)
    ensures t.Watch? || t.WatchInList? ==> t.video == v.value
  {
    if Truthy(list) then
      if Truthy(v) && IsVideoId(v.value) then WatchInList(v.value, list.value)
      else PlaylistOnly(list.value)
    else if Truthy(v) && IsVideoId(v.value) then Watch(v.value)
    else Unchanged
  }

  /** The outcome of the bot's `cleanYouTubeUrl` (index_optimized.js and both backups). */
  function BotTarget(url: string, decode: string -> Option<string>, parse: string -> Option<UrlParts>): (t: Canonical)
    ensures decode(url).None? ==> t.Unchanged?
    ensures t.Watch? || t.WatchInList? ==> IsVideoId(t.video)
    ensures t.WatchInList? || t.PlaylistOnly? ==> t.list != ""
  {
    match decode(url)
    case None => Unchanged
    case Some(decoded) =>
      var c := StripBrackets(decoded);
      if Contains(c, "youtube.com/watch") || Contains(c, "youtube.com/playlist") then
        match parse(c)
        case None => Unchanged
        case Some(u) =>
          var t := WatchOrListTarget(SearchParam(u.query, "v"), SearchParam(u.query, "list"));
          if t.Unchanged? then ShortLinkTarget(c) else t
      else ShortLinkTarget(c)
  }

  /** `cleanYouTubeUrl(url)` of the bot. */
  function CleanBotUrl(url: string, decode: string -> Option<string>, parse: string -> Option<UrlParts>): string
  {
    Link(url, BotTarget(url, decode, parse))
  }

  /** Every video link the bot's normaliser produces passes `isValidYouTubeUrl`. */
  lemma BotVideoLinksValid(url: string, decode: string -> Option<string>, parse: string -> Option<UrlParts>)
    requires BotTarget(url, decode, parse).Watch? || BotTarget(url, decode, parse).WatchInList?
    ensures IsValidYouTubeUrl(CleanBotUrl(url, decode, parse))
  {
    var t := BotTarget(url, decode, parse);
    if t.Watch? {
      WatchLinkValid(t.video);
    } else {
      assert WatchPrefix + t.video + ListSeparator + t.list == WatchPrefix + (t.video + ListSeparator + t.list);
      WatchLinkValid(t.video + ListSeparator + t.list);
    }
  }

  /** A playlist link of the bot passes `isValidYouTubeUrl` exactly when the list id starts well. */
  lemma BotPlaylistLinkValid(url: string, decode: string -> Option<string>, parse: string -> Option<UrlParts>)
    requires BotTarget(url, decode, parse).PlaylistOnly?
    ensures IsValidYouTubeUrl(CleanBotUrl(url, decode, parse)) <==> IsIdChar(BotTarget(url, decode, parse).list[0])
  {
    PlaylistLinkValid(BotTarget(url, decode, parse).list);
  }

  /** `youtube.com/watch` occurs in every canonical watch link. */
  lemma WatchPrefixNamesWatch(rest: string)
    ensures Contains(WatchPrefix + rest, "youtube.com/watch")
  {
    var s := WatchPrefix + rest;
    assert s == Https + Www + (WatchPath + rest);
    assert s[12..12 + 17] == WatchPath[..17];
    ContainsAt(s, "youtube.com/watch", 12);
  }

  /** `youtube.com/playlist` occurs in every canonical playlist link. */
  lemma PlaylistPrefixNamesPlaylist(rest: string)
    ensures Contains(PlaylistPrefix + rest, "youtube.com/playlist")
  {
    var s := PlaylistPrefix + rest;
    assert s == Https + Www + (PlaylistPath + rest);
    assert s[12..12 + 20] == PlaylistPath[..20];
    ContainsAt(s, "youtube.com/playlist", 12);
  }

  lemma NoBracketsAppend(a: string, b: string)
    requires NoBrackets(a) && NoBrackets(b)
    ensures NoBrackets(a + b)
  {
    forall i | 0 <= i < |a + b| ensures (a + b)[i] != '[' && (a + b)[i] != ']' {
      if i >= |a| {
        assert (a + b)[i] == b[i - |a|];
      }
    }
  }

  /** The fixed parts of the canonical links contain no brackets. */
  lemma FixedPartsHaveNoBrackets()
    ensures NoBrackets(WatchPrefix) && NoBrackets(PlaylistPrefix) && NoBrackets(ListSeparator)
  {
    NoBracketsAppend(Https, Www);
    NoBracketsAppend(Https + Www, WatchPath);
    NoBracketsAppend(Https + Www, PlaylistPath);
  }

  /**
   * Normalising a normalised video link changes nothing, as long as decoding leaves it alone and
   * the URL parser reads its single `v` parameter back.
   */
  lemma {:induction false} BotWatchIdempotent(v: string, decode: string -> Option<string>, parse: string -> Option<UrlParts>, host: string, path: string)
    requires IsVideoId(v)
    requires decode(WatchPrefix + v) == Some(WatchPrefix + v)
    requires parse(WatchPrefix + v) == Some(UrlParts(host, path, [("v", v)]))
    ensures CleanBotUrl(WatchPrefix + v, decode, parse) == WatchPrefix + v
  {
    var s := WatchPrefix + v;
    FixedPartsHaveNoBrackets();
    NoBracketsAppend(WatchPrefix, v);
    StripNoBrackets(s);
    WatchPrefixNamesWatch(v);
    assert WatchOrListTarget(Some(v), None) == Watch(v);
  }

  /**
   * The same for a normalised video-in-playlist link whose list id has no brackets: the parser
   * reads `v` and `list` back and the link comes out as it went in.
   */
  lemma {:induction false} BotWatchInListIdempotent(v: string, l: string, decode: string -> Option<string>, parse: string -> Option<UrlParts>, host: string, path: string)
    requires IsVideoId(v) && l != "" && NoBrackets(l)
    requires decode(WatchPrefix + v + ListSeparator + l) == Some(WatchPrefix + v + ListSeparator + l)
    requires parse(WatchPrefix + v + ListSeparator + l) == Some(UrlParts(host, path, [("v", v), ("list", l)]))
    ensures CleanBotUrl(WatchPrefix + v + ListSeparator + l, decode, parse) == WatchPrefix + v + ListSeparator + l
  {
    var rest := v + ListSeparator + l;
    var s := WatchPrefix + rest;
    assert s == WatchPrefix + v + ListSeparator + l;
    FixedPartsHaveNoBrackets();
    NoBracketsAppend(v, ListSeparator);
    NoBracketsAppend(v + ListSeparator, l);
    NoBracketsAppend(WatchPrefix, rest);
    StripNoBrackets(s);
    WatchPrefixNamesWatch(rest);
    var q := [("v", v), ("list", l)];
    assert SearchParam(q, "v") == Some(v);
    assert SearchParam(q, "list") == Some(l);
    assert WatchOrListTarget(Some(v), Some(l)) == WatchInList(v, l);
  }

  /** The same for a normalised playlist link whose list id has no brackets. */
  lemma {:induction false} BotPlaylistIdempotent(l: string, decode: string -> Option<string>, parse: string -> Option<UrlParts>, host: string, path: string)
    requires l != "" && NoBrackets(l)
    requires decode(PlaylistPrefix + l) == Some(PlaylistPrefix + l)
    requires parse(PlaylistPrefix + l) == Some(UrlParts(host, path, [("list", l)]))
    ensures CleanBotUrl(PlaylistPrefix + l, decode, parse) == PlaylistPrefix + l
  {
    var s := PlaylistPrefix + l;
    FixedPartsHaveNoBrackets();
    NoBracketsAppend(PlaylistPrefix, l);
    StripNoBrackets(s);
    PlaylistPrefixNamesPlaylist(l);
    assert WatchOrListTarget(None, Some(l)) == PlaylistOnly(l);
  }

  /**
   * Text naming a short link and no watch or playlist page is rewritten to the watch link of the
   * first `youtu.be/` followed by an 11-character id.
   */
  lemma {:induction false} BotShortLink(url: string, decode: string -> Option<string>, parse: string -> Option<UrlParts>, i: nat)
    requires decode(url).Some? && NoBrackets(decode(url).value)
    requires !Contains(decode(url).value, "youtube.com/watch") && !Contains(decode(url).value, "youtube.com/playlist")
    requires ShortAt(decode(url).value, i)
    requires forall j :: 0 <= j < i ==> !ShortAt(decode(url).value, j)
    ensures CleanBotUrl(url, decode, parse) == WatchPrefix + decode(url).value[i + 9..i + 20]
  {
    var d := decode(url).value;
    StripNoBrackets(d);
    assert d[i..i + |ShortHost|] == ShortHost;
    ContainsAt(d, ShortHost, i);
    var r := FindShortLink(d, 0);
    assert r == Some(i);
  }

  /**
   * Text that names neither a watch page, a playlist page nor a short link comes back unchanged,
   * whatever the parser would have said.
   */
  lemma BotLeavesOtherText(url: string, decode: string -> Option<string>, parse: string -> Option<UrlParts>)
    requires decode(url).Some?
    requires !Contains(StripBrackets(decode(url).value), "youtube.com/watch")
    requires !Contains(StripBrackets(decode(url).value), "youtube.com/playlist")
    requires !Contains(StripBrackets(decode(url).value), ShortHost)
    ensures CleanBotUrl(url, decode, parse) == url
  {
  }

  // ---------------------------------------------------------------------------
  // The video-info probe's cleanYouTubeUrl (hostname based)

  predicate IsYouTubeHost(h: string) { h == "www.youtube.com" || h == "youtube.com" || h == "m.youtube.com" }

  /** `pathname.slice(1)`. */
  function DropFirst(s: string): (r: string)
    ensures s != "" ==> [s[0]] + r == s
    ensures s == "" ==> r == ""
  {
    if s == "" then "" else s[1..]
  }

  /** The outcome of the video-info probe's normaliser. */
  function ProbeTarget(url: string, parse: string -> Option<UrlParts>): (t: Canonical)
    ensures t.Unchanged? || t.Watch?
    ensures parse(url).None? ==> t.Unchanged?
    ensures t.Watch? && parse(url).value.hostname == "youtu.be" ==> t.video == DropFirst(parse(url).value.pathname)
    ensures t.Watch? && parse(url).value.hostname != "youtu.be" ==>
              IsYouTubeHost(parse(url).value.hostname) && SearchParam(parse(url).value.query, "v") == Some(t.video) && t.video != ""
  {
    match parse(url)
    case None => Unchanged
    case Some(u) =>
      if u.hostname == "youtu.be" then Watch(DropFirst(u.pathname))
      else if IsYouTubeHost(u.hostname) then
        var v := SearchParam(u.query, "v");
        if Truthy(v) then Watch(v.value) else Unchanged
      else Unchanged
  }

  /** `cleanYouTubeUrl(url)` of the video-info probe. */
  function CleanProbeUrl(url: string, parse: string -> Option<UrlParts>): string
  {
    Link(url, ProbeTarget(url, parse))
  }

  /** A YouTube host with a `v` parameter loses every other parameter. */
  lemma ProbeKeepsOnlyVideo(url: string, parse: string -> Option<UrlParts>, v: string)
    requires parse(url).Some? && IsYouTubeHost(parse(url).value.hostname)
    requires SearchParam(parse(url).value.query, "v") == Some(v) && v != ""
    ensures CleanProbeUrl(url, parse) == WatchPrefix + v
  {
  }

  /** A short link turns into the watch link of its path, and that link is normalised already. */
  lemma {:induction false} ProbeShortLinkSettles(url: string, parse: string -> Option<UrlParts>, id: string)
    requires parse(url).Some? && parse(url).value.hostname == "youtu.be"
    requires parse(url).value.pathname == "/" + id && id != ""
    requires parse(WatchPrefix + id) == Some(UrlParts("www.youtube.com", "/watch", [("v", id)]))
    ensures CleanProbeUrl(url, parse) == WatchPrefix + id
    ensures CleanProbeUrl(CleanProbeUrl(url, parse), parse) == WatchPrefix + id
  {
    assert DropFirst("/" + id) == id;
  }

  // ---------------------------------------------------------------------------
  // The playlist probe's cleanYouTubeUrl (list and v)

  /** The outcome of the playlist probe's normaliser: no check on the shape of the ids. */
  function ListProbeTarget(url: string, parse: string -> Option<UrlParts>): (t: Canonical)
    ensures parse(url).None? ==> t.Unchanged?
    ensures !t.Unchanged? ==> Contains(parse(url).value.hostname, "youtube.com")
    ensures t.WatchInList? || t.PlaylistOnly? ==> SearchParam(parse(url).value.query, "list") == Some(t.list) && t.list != ""
    ensures t.WatchInList? || t.Watch? ==> SearchParam(parse(url).value.query, "v") == Some(t.video) && t.video != ""
    ensures t.PlaylistOnly? ==> !Truthy(SearchParam(parse(url).value.query, "v"))
    ensures t.Watch? ==> !Truthy(SearchParam(parse(url).value.query, "list"))
  {
    match parse(url)
    case None => Unchanged
    case Some(u) =>
      if Contains(u.hostname, "youtube.com") then
        var list := SearchParam(u.query, "list");
        var v := SearchParam(u.query, "v");
        if Truthy(list) then
          if Truthy(v) then WatchInList(v.value, list.value) else PlaylistOnly(list.value)
        else if Truthy(v) then Watch(v.value)
        else Unchanged
      else Unchanged
  }

  /** `cleanYouTubeUrl(url)` of the playlist probe. */
  function CleanListProbeUrl(url: string, parse: string -> Option<UrlParts>): string
  {
    Link(url, ListProbeTarget(url, parse))
  }

  /**
   * On a parsed youtube.com link the playlist probe decides as the bot does after parsing, except
   * that it takes any non-empty `v`, not only an 11-character id.
   */
  lemma ListProbeAgreesWithBot(url: string, parse: string -> Option<UrlParts>)
    requires parse(url).Some? && Contains(parse(url).value.hostname, "youtube.com")
    requires var v := SearchParam(parse(url).value.query, "v"); !Truthy(v) || IsVideoId(v.value)
    ensures ListProbeTarget(url, parse)
         == WatchOrListTarget(SearchParam(parse(url).value.query, "v"), SearchParam(parse(url).value.query, "list"))
  {
  }
}
