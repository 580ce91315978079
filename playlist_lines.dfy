/**
 * The playlist listing of test_playlist.js: `yt-dlp --flat-playlist --dump-json` prints one JSON
 * object per line; each line is parsed, a line that does not parse becomes `null`, and every
 * `null` is filtered out.
 *
 * `JSON.parse` is an input: for each line it throws, gives `null`, or gives a value.
 */
module PlaylistLines {
  import opened JsText

  /** The outcome of `JSON.parse` on one line. */
  datatype Parsed<T> = Throws | Null | Item(value: T)

  /** `lines.map(parseOrNull).filter(item => item !== null)`. */
  function KeepItems<T>(lines: seq<string>, parse: string -> Parsed<T>): (r: seq<T>)
    ensures |r| <= |lines|
    ensures forall k :: 0 <= k < |r| ==> exists i :: 0 <= i < |lines| && parse(lines[i]) == Item(r[k])
    ensures forall i :: 0 <= i < |lines| && parse(lines[i]).Item? ==> parse(lines[i]).value in r
  {
    if lines == [] then []
    else
      var tail := KeepItems(lines[1..], parse);
      assert forall i :: 1 <= i < |lines| ==> lines[i] == lines[1..][i - 1];
      match parse(lines[0])
      case Item(v) => [v] + tail
      case _ => tail
  }

  /** The entries `test_playlist.js` lists from the raw stdout. */
  function PlaylistEntries<T>(stdout: string, parse: string -> Parsed<T>): (r: seq<T>)
    ensures |r| <= |Split(Trim(stdout), '\n')|
  {
    KeepItems(Split(Trim(stdout), '\n'), parse)
  }

  /** The filter keeps order: the entries of two runs of lines are those of each run in turn. */
  lemma {:induction false} KeepItemsAppend<T>(a: seq<string>, b: seq<string>, parse: string -> Parsed<T>)
    ensures KeepItems(a + b, parse) == KeepItems(a, parse) + KeepItems(b, parse)
  {
    if a == [] {
      assert a + b == b;
    } else {
      assert (a + b)[0] == a[0] && (a + b)[1..] == a[1..] + b;
      KeepItemsAppend(a[1..], b, parse);
    }
  }

  /** A single line gives its value when it parses to one, and nothing otherwise. */
  lemma KeepItemsSingle<T>(line: string, parse: string -> Parsed<T>)
    ensures KeepItems([line], parse) == if parse(line).Item? then [parse(line).value] else []
  {
    assert [line][1..] == [];
  }

  /** The number of lines that parse to a value. */
  function CountItems<T>(lines: seq<string>, parse: string -> Parsed<T>): (n: nat)
    ensures n <= |lines|
  {
    if lines == [] then 0
    else (if parse(lines[|lines| - 1]).Item? then 1 else 0) + CountItems(lines[..|lines| - 1], parse)
  }

  /** As many entries as lines that parse to a value. */
  lemma {:induction false} KeepItemsCount<T>(lines: seq<string>, parse: string -> Parsed<T>)
    ensures |KeepItems(lines, parse)| == CountItems(lines, parse)
  {
    if lines != [] {
      var front := lines[..|lines| - 1];
      var last := lines[|lines| - 1];
      assert lines == front + [last];
      KeepItemsAppend(front, [last], parse);
      KeepItemsSingle(last, parse);
      KeepItemsCount(front, parse);
    }
  }

  /** Every line is kept exactly when every line parses to a value. */
  lemma {:induction false} AllLinesKept<T>(lines: seq<string>, parse: string -> Parsed<T>)
    ensures |KeepItems(lines, parse)| == |lines| <==> forall i :: 0 <= i < |lines| ==> parse(lines[i]).Item?
  {
    if lines != [] {
      AllLinesKept(lines[1..], parse);
      assert forall i :: 1 <= i < |lines| ==> lines[i] == lines[1..][i - 1];
      if parse(lines[0]).Item? {
        assert (forall i :: 0 <= i < |lines| ==> parse(lines[i]).Item?)
           <==> (forall i :: 0 <= i < |lines[1..]| ==> parse(lines[1..][i]).Item?);
      }
    }
  }

  /** Output that is only white space lists nothing, since the empty line does not parse. */
  lemma BlankListsNothing<T>(stdout: string, parse: string -> Parsed<T>)
    requires Trim(stdout) == "" && parse("").Throws?
    ensures PlaylistEntries(stdout, parse) == []
  {
    assert Split(Trim(stdout), '\n') == [""];
  }
}
