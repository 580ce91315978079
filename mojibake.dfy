/**
 * `normalizeUTF8`: repairs titles whose UTF-8 bytes were read as Windows-1252, where every
 * accented letter became 'Ã' (U+00C3) followed by a second character. The same function
 * appears in the three later revisions.
 */
module Mojibake {
  import opened Wrappers

  /** The character every mis-encoded pair starts with. */
  const Lead: char := 'Ã'

  /** One entry of `charMap`: the pair `Lead` + `second` stands for `fixed`. */
  datatype Repair = Repair(second: char, fixed: char)

  /** `charMap`, in its declaration order (which is the order `Object.entries` visits it). */
  const CharMap: seq<Repair> := [
    Repair('¡', 'á'),  // á
    Repair('©', 'é'),  // é
    Repair('­', 'í'),  // í
    Repair('³', 'ó'),  // ó
    Repair('º', 'ú'),  // ú
    Repair('¤', 'ä'),  // ä
    Repair('«', 'ë'),  // ë
    Repair('¯', 'ï'),  // ï
    Repair('¶', 'ö'),  // ö
    Repair('¼', 'ü'),  // ü
    Repair('±', 'ñ'),  // ñ
    Repair('‡', 'Ç'),  // Ç
    Repair('§', 'ç')   // ç
  ]

  /** `text.replace(new RegExp(Lead + r.second, 'g'), r.fixed)`: left to right, without overlaps. */
  function ReplaceAll(text: string, r: Repair): string
  {
    if |text| >= 2 && text[0] == Lead && text[1] == r.second then [r.fixed] + ReplaceAll(text[2..], r)
    else if text == [] then []
    else [text[0]] + ReplaceAll(text[1..], r)
  }

  /** The `for ... of Object.entries(charMap)` loop: each replacement in turn over the whole text. */
  function ReplaceEach(text: string, table: seq<Repair>): string
    decreases |table|
  {
    if table == [] then text else ReplaceEach(ReplaceAll(text, table[0]), table[1..])
  }

  /** `normalizeUTF8`: the empty (falsy) text is returned as it is. */
  function NormalizeUtf8(text: string): string
  {
    if text == "" then text else ReplaceEach(text, CharMap)
  }

  /** The repaired letter for the pair `Lead` + `c`, if the table has one. */
  function Lookup(table: seq<Repair>, c: char): (r: Option<char>)
    ensures r.Some? <==> exists k :: 0 <= k < |table| && table[k].second == c
  {
    if table == [] then None
    else if table[0].second == c then Some(table[0].fixed)
    else Lookup(table[1..], c)
  }

  /** The reference reading: one pass from left to right that repairs every pair in the table. */
  function RepairPass(text: string, table: seq<Repair>): string
  {
    if |text| >= 2 && text[0] == Lead && Lookup(table, text[1]).Some? then
      [Lookup(table, text[1]).value] + RepairPass(text[2..], table)
    else if text == [] then []
    else [text[0]] + RepairPass(text[1..], table)
  }

  /**
   * A table whose replacements cannot build new pairs: no repaired letter is `Lead` or the
   * second character of a pair, and no second character is `Lead`.
   */
  predicate Separated(table: seq<Repair>)
  {
    (forall k :: 0 <= k < |table| ==> table[k].fixed != Lead && table[k].second != Lead)
    && (forall k, m :: 0 <= k < |table| && 0 <= m < |table| ==> table[m].second != table[k].fixed)
  }

  /** No two entries repair the same pair. */
  predicate DistinctPairs(table: seq<Repair>)
  {
    forall k, m :: 0 <= k < m < |table| ==> table[k].second != table[m].second
  }

  lemma CharMapWellFormed()
    ensures Separated(CharMap) && DistinctPairs(CharMap)
  {
    CharMapSeparated();
    CharMapDistinct();
  }

  lemma CharMapSeparated()
    ensures Separated(CharMap)
  {
  }

  lemma CharMapDistinct()
    ensures DistinctPairs(CharMap)
  {
  }

  /** With distinct pairs, the look-up of an entry's pair finds that entry. */
  lemma {:induction false} LookupFinds(table: seq<Repair>, k: nat)
    requires DistinctPairs(table) && k < |table|
    ensures Lookup(table, table[k].second) == Some(table[k].fixed)
    decreases k
  {
    if k > 0 {
      assert table[0].second != table[k].second;
      assert table[1..][k - 1] == table[k];
      LookupFinds(table[1..], k - 1);
    }
  }

  /** What `ReplaceAll` leaves at the front of a non-empty text. */
  lemma ReplaceAllFront(text: string, r: Repair)
    requires text != []
    ensures |text| >= 2 && text[0] == Lead && text[1] == r.second ==>
              ReplaceAll(text, r) == [r.fixed] + ReplaceAll(text[2..], r)
    ensures !(|text| >= 2 && text[0] == Lead && text[1] == r.second) ==>
              ReplaceAll(text, r) == [text[0]] + ReplaceAll(text[1..], r)
  {
  }

  /**
   * Running one replacement and then the pass for the rest of the table is the pass for the
   * whole table.
   */
  lemma {:induction false} ReplaceThenPass(text: string, r: Repair, rest: seq<Repair>)
    requires Separated([r] + rest)
    ensures RepairPass(ReplaceAll(text, r), rest) == RepairPass(text, [r] + rest)
    decreases |text|
  {
    var table := [r] + rest;
    assert table[0] == r && table[1..] == rest;
    if text == [] {
    } else if |text| >= 2 && text[0] == Lead && text[1] == r.second {
      ReplaceThenPass(text[2..], r, rest);
      assert Lookup(table, text[1]) == Some(r.fixed);
      assert r.fixed != Lead;
    } else if |text| >= 2 && text[0] == Lead {
      // text[1] is not r.second
      var tail := ReplaceAll(text[1..], r);
      assert ReplaceAll(text, r) == [Lead] + tail;
      assert Lookup(table, text[1]) == Lookup(rest, text[1]);
      if |text| >= 3 && text[1] == Lead && text[2] == r.second {
        // the pair starting at text[1] turns into r.fixed, which is no second character
        ReplaceAllFront(text[1..], r);
        assert tail[0] == r.fixed;
        assert Lookup(rest, r.fixed).None? by {
          assert forall m :: 0 <= m < |rest| ==> rest[m] == table[m + 1];
        }
        ReplaceThenPass(text[1..], r, rest);
        assert Lookup(table, text[1]).None? by {
          assert table[0].second != Lead;
        }
      } else {
        ReplaceAllFront(text[1..], r);
        assert tail[0] == text[1];
        if Lookup(rest, text[1]).Some? {
          assert text[1] != Lead by {
            var k :| 0 <= k < |rest| && rest[k].second == text[1];
            assert table[k + 1].second == text[1];
          }
          assert tail[1..] == ReplaceAll(text[2..], r);
          ReplaceThenPass(text[2..], r, rest);
        } else {
          ReplaceThenPass(text[1..], r, rest);
        }
      }
    } else {
      ReplaceAllFront(text, r);
      ReplaceThenPass(text[1..], r, rest);
    }
  }

  /** A pass with an empty table changes nothing. */
  lemma {:induction false} EmptyPass(text: string)
    ensures RepairPass(text, []) == text
    decreases |text|
  {
    if text != [] {
      EmptyPass(text[1..]);
    }
  }

  /** Separation is kept when the first entry is dropped. */
  lemma SeparatedTail(table: seq<Repair>)
    requires Separated(table) && table != []
    ensures Separated(table[1..])
  {
    assert forall m :: 0 <= m < |table| - 1 ==> table[1..][m] == table[m + 1];
  }

  /** The replacements in sequence are the single left-to-right pass. */
  lemma {:induction false} ReplaceEachIsPass(text: string, table: seq<Repair>)
    requires Separated(table)
    ensures ReplaceEach(text, table) == RepairPass(text, table)
    decreases |table|
  {
    if table == [] {
      EmptyPass(text);
    } else {
      assert table == [table[0]] + table[1..];
      SeparatedTail(table);
      ReplaceEachIsPass(ReplaceAll(text, table[0]), table[1..]);
      ReplaceThenPass(text, table[0], table[1..]);
    }
  }

  /** `normalizeUTF8` is the one-pass repair with `charMap`. */
  lemma NormalizeIsRepairPass(text: string)
    ensures NormalizeUtf8(text) == RepairPass(text, CharMap)
  {
    CharMapWellFormed();
    ReplaceEachIsPass(text, CharMap);
  }

  /** Text without 'Ã' passes through the repair unchanged. */
  lemma {:induction false} NoLeadUnchanged(text: string, table: seq<Repair>)
    requires Lead !in text
    ensures RepairPass(text, table) == text
    decreases |text|
  {
    if text != [] {
      NoLeadUnchanged(text[1..], table);
    }
  }

  /** `normalizeUTF8` leaves text without 'Ã' as it is. */
  lemma NormalizeWithoutLead(text: string)
    requires Lead !in text
    ensures NormalizeUtf8(text) == text
  {
    NormalizeIsRepairPass(text);
    NoLeadUnchanged(text, CharMap);
  }

  /** Each of the 13 pairs is rewritten to its letter, wherever it stands in the text. */
  lemma NormalizeRepairsPair(before: string, k: nat, after: string)
    requires k < |CharMap| && Lead !in before
    ensures NormalizeUtf8(before + [Lead, CharMap[k].second] + after)
         == before + [CharMap[k].fixed] + RepairPass(after, CharMap)
  {
    NormalizeIsRepairPass(before + [Lead, CharMap[k].second] + after);
    CharMapWellFormed();
    PairRepairedAfter(CharMap, before, k, after);
  }

  lemma PairRepairedAfter(table: seq<Repair>, before: string, k: nat, after: string)
    requires DistinctPairs(table) && k < |table| && Lead !in before
    ensures RepairPass(before + [Lead, table[k].second] + after, table)
         == before + [table[k].fixed] + RepairPass(after, table)
  {
    assert before + [Lead, table[k].second] + after == before + ([Lead, table[k].second] + after);
    RepairPrefix(before, [Lead, table[k].second] + after, table);
    PairRepaired(table, k, after);
  }

  /** A prefix without 'Ã' is copied by the pass. */
  lemma {:induction false} RepairPrefix(before: string, rest: string, table: seq<Repair>)
    requires Lead !in before
    ensures RepairPass(before + rest, table) == before + RepairPass(rest, table)
    decreases |before|
  {
    if before != [] {
      assert before[0] in before;
      assert forall c :: c in before[1..] ==> c in before;
      assert (before + rest)[0] == before[0] && (before + rest)[1..] == before[1..] + rest;
      RepairPrefix(before[1..], rest, table);
      assert before == [before[0]] + before[1..];
    } else {
      assert before + rest == rest;
    }
  }

  /** A pair at the front is repaired to its letter. */
  lemma PairRepaired(table: seq<Repair>, k: nat, after: string)
    requires DistinctPairs(table) && k < |table|
    ensures RepairPass([Lead, table[k].second] + after, table) == [table[k].fixed] + RepairPass(after, table)
  {
    LookupFinds(table, k);
    assert ([Lead, table[k].second] + after)[2..] == after;
  }
}
