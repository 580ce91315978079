/**
 * `cleanupAllPartFiles` of cleanup_temp.js: in the bot's directory, every file named like a
 * download in progress or a finished temporary download is deleted, one at a time, counting the
 * deletions that worked and those that failed.
 *
 * The directory is an object holding the set of its entries. The order `readdirSync` lists
 * them in is an input, and so is the set of names whose `statSync` or `unlinkSync` throws.
 */
module TempCleanup {
  import opened JsText

  const Prefix: string := "temp_audio_"
  const Mp3: string := ".mp3"
  const Part: string := ".part"

  /** The name filter: the temp prefix and one of the download suffixes. */
  predicate IsTempFile(name: string)
  {
    StartsWith(name, Prefix)
    && (EndsWith(name, Part) || Contains(name, ".part-") || EndsWith(name, ".ytdl")
        || EndsWith(name, ".temp") || EndsWith(name, Mp3))
  }

  /** `files.filter(IsTempFile)`, in listing order. */
  function Selected(files: seq<string>): (r: seq<string>)
    ensures |r| <= |files|
    ensures forall f :: f in r <==> f in files && IsTempFile(f)
  {
    if files == [] then []
    else
      var front := Selected(files[..|files| - 1]);
      assert files == files[..|files| - 1] + [files[|files| - 1]];
      if IsTempFile(files[|files| - 1]) then front + [files[|files| - 1]] else front
  }

  /** How many of `names` are in `failing`. */
  function CountIn(names: seq<string>, failing: set<string>): (n: nat)
    ensures n <= |names|
  {
    if names == [] then 0
    else CountIn(names[..|names| - 1], failing) + (if names[|names| - 1] in failing then 1 else 0)
  }

  /** Each name appears once. */
  predicate Distinct(names: seq<string>)
  {
    forall i, j :: 0 <= i < j < |names| ==> names[i] != names[j]
  }

  /** The filter keeps distinct listings distinct. */
  lemma {:induction false} SelectedDistinct(files: seq<string>)
    requires Distinct(files)
    ensures Distinct(Selected(files))
  {
    if files != [] {
      var front := files[..|files| - 1];
      assert Distinct(front);
      SelectedDistinct(front);
      assert files[|files| - 1] !in front;
    }
  }

  /** The files the bot downloads to, `temp_audio_<id>.mp3`, are swept, and so is yt-dlp's partial `.part` file. */
  lemma DownloadFilesSelected(id: string)
    ensures IsTempFile(Prefix + id + Mp3)
    ensures IsTempFile(Prefix + id + Mp3 + Part)
  {
    var name := Prefix + id + Mp3;
    assert name[..|Prefix|] == Prefix && name[|name| - |Mp3|..] == Mp3;
    var partial := name + Part;
    assert partial[..|Prefix|] == Prefix && partial[|partial| - |Part|..] == Part;
  }

  /** A name without the prefix is never selected, whatever its suffix. */
  lemma OtherNamesKept(name: string)
    requires !StartsWith(name, Prefix)
    ensures !IsTempFile(name)
  {
  }

  class Directory {
    var entries: set<string>

    constructor(names: set<string>)
      ensures entries == names
    {
      entries := names;
    }
  }

  /**
   * `cleanupAllPartFiles()` on `dir`, listed as `listing`: the selection, and the number of
   * deletions that worked and that failed. Every selected name is tried, so a failing name
   * does not stop the others; only selected names that did not fail leave the directory.
   */
  method CleanupAllPartFiles(dir: Directory, listing: seq<string>, failing: set<string>)
    returns (selected: seq<string>, cleaned: nat, failed: nat)
    requires Distinct(listing) && forall f :: f in listing <==> f in dir.entries
    modifies dir
    ensures selected == Selected(listing)
    ensures selected == [] ==> cleaned == 0 && failed == 0 && dir.entries == old(dir.entries)
    ensures cleaned + failed == |selected|
    ensures failed == CountIn(selected, failing)
    ensures dir.entries == old(dir.entries) - (set f | f in selected && f !in failing)
  {
    selected := Selected(listing);
    cleaned, failed := 0, 0;
    if |selected| == 0 {
      return;
    }
    for i := 0 to |selected|
      invariant cleaned + failed == i
      invariant failed == CountIn(selected[..i], failing)
      invariant dir.entries == old(dir.entries) - (set f | f in selected[..i] && f !in failing)
    {
      var name := selected[i];
      assert selected[..i + 1][..i] == selected[..i];
      assert forall f :: f in selected[..i + 1] <==> f in selected[..i] || f == name;
      if name in failing {
        failed := failed + 1;
      } else {
        dir.entries := dir.entries - {name};
        cleaned := cleaned + 1;
      }
    }
    assert selected[..|selected|] == selected;
  }
}
