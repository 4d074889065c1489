/**
 * The emoji converter text processor: for every phrase of its table, in
 * table order, every occurrence of the phrase in lower case and then every
 * occurrence of its Title Case form is replaced by the emoji. Occurrences
 * are plain substrings, not words. The emoji themselves are kept as the
 * opaque character sequences the table holds.
 */
module EmojiConversion {
  import opened Ascii

  /** One entry of the emoji table. */
  datatype EmojiEntry = EmojiEntry(phrase: string, emoji: string)

  /** The emoji table, in insertion order. */
  function EmojiTable(): seq<EmojiEntry>
  {
    [ EmojiEntry("smiley face", "\U{F0}\U{178}\U{2DC}\U{160}"),
      EmojiEntry("happy face", "\U{F0}\U{178}\U{2DC}\U{160}"),
      EmojiEntry("sad face", "\U{F0}\U{178}\U{2DC}\U{A2}"),
      EmojiEntry("crying face", "\U{F0}\U{178}\U{2DC}\U{AD}"),
      EmojiEntry("laughing face", "\U{F0}\U{178}\U{2DC}\U{201A}"),
      EmojiEntry("heart", "\U{E2}\U{A4}\U{EF}\U{B8}"),
      EmojiEntry("thumbs up", "\U{F0}\U{178}\U{2018}"),
      EmojiEntry("thumbs down", "\U{F0}\U{178}\U{2018}\U{17D}"),
      EmojiEntry("fire", "\U{F0}\U{178}\U{201D}\U{A5}"),
      EmojiEntry("star", "\U{E2}\U{AD}"),
      EmojiEntry("check mark", "\U{E2}\U{153}\U{201C}"),
      EmojiEntry("warning", "\U{E2}\U{161}\U{A0}\U{EF}\U{B8}"),
      EmojiEntry("rocket", "\U{F0}\U{178}\U{161}\U{20AC}"),
      EmojiEntry("party popper", "\U{F0}\U{178}\U{17D}\U{2030}") ]
  }

  /** `w` occurs in `s` at position `i`. */
  predicate OccursAt(s: string, i: nat, w: string)
  {
    i + |w| <= |s| && s[i..i + |w|] == w
  }

  /** `w` occurs in `s`. */
  predicate Contains(s: string, w: string)
  {
    exists i: nat :: i <= |s| && OccursAt(s, i, w)
  }

  /** `s.replace("", r)`: `r` before every character and at the end. */
  function InsertEverywhere(s: string, r: string): string
  {
    if s == [] then r else r + [s[0]] + InsertEverywhere(s[1..], r)
  }

  /** `s.replace(w, r)`: every non-overlapping occurrence of `w`, leftmost first. */
  function ReplaceAll(s: string, w: string, r: string): string
  {
    if w == [] then InsertEverywhere(s, r) else ReplaceFrom(s, w, r, 0)
  }

  /** The replacement scan of a non-empty `w` from position `i`. */
  function ReplaceFrom(s: string, w: string, r: string, i: nat): string
    requires w != [] && i <= |s|
    decreases |s| - i
  {
    if i == |s| then []
    else if OccursAt(s, i, w) then r + ReplaceFrom(s, w, r, i + |w|)
    else [s[i]] + ReplaceFrom(s, w, r, i + 1)
  }

  /** Where `w` does not occur the text is kept as it is. */
  lemma {:induction false} ReplaceFromAbsent(s: string, w: string, r: string, i: nat)
    requires w != [] && i <= |s|
    requires forall j: nat :: i <= j ==> !OccursAt(s, j, w)
    ensures ReplaceFrom(s, w, r, i) == s[i..]
    decreases |s| - i
  {
    if i < |s| {
      ReplaceFromAbsent(s, w, r, i + 1);
      assert s[i..] == [s[i]] + s[i + 1..];
    }
  }

  /** Text in which `w` does not occur comes back unchanged. */
  lemma ReplaceAllAbsent(s: string, w: string, r: string)
    requires w != [] && !Contains(s, w)
    ensures ReplaceAll(s, w, r) == s
  {
    ReplaceFromAbsent(s, w, r, 0);
  }

  /** Where `w` does not start at `i`, the scan keeps `s[i]`: an occurrence
      found from `i + 1` on is found from `i` on, with `s[i]` kept before it. */
  lemma LeftmostStep(s: string, w: string, r: string, i: nat, j: nat)
    requires w != [] && i < j && OccursAt(s, j, w) && !OccursAt(s, i, w)
    requires ReplaceFrom(s, w, r, i + 1) == s[i + 1..j] + r + ReplaceFrom(s, w, r, j + |w|)
    ensures ReplaceFrom(s, w, r, i) == s[i..j] + r + ReplaceFrom(s, w, r, j + |w|)
  {
    assert ReplaceFrom(s, w, r, i) == [s[i]] + ReplaceFrom(s, w, r, i + 1);
    ConsSlice(s, i, j, r, ReplaceFrom(s, w, r, j + |w|));
  }

  /** The leftmost occurrence at or after `i` is replaced: what comes before it
      is kept, and the scan resumes right after it. */
  lemma {:induction false} ReplaceFromLeftmost(s: string, w: string, r: string, i: nat, j: nat)
    requires w != [] && i <= j && OccursAt(s, j, w)
    requires forall k: nat :: i <= k < j ==> !OccursAt(s, k, w)
    ensures ReplaceFrom(s, w, r, i) == s[i..j] + r + ReplaceFrom(s, w, r, j + |w|)
    decreases j - i
  {
    if i < j {
      ReplaceFromLeftmost(s, w, r, i + 1, j);
      LeftmostStep(s, w, r, i, j);
    } else {
      assert s[i..j] == [];
    }
  }

  /** One table entry: the lower-case phrase, then its Title Case form. */
  function ConvertEntry(e: EmojiEntry, s: string): string
  {
    ReplaceAll(ReplaceAll(s, e.phrase, e.emoji), Title(e.phrase), e.emoji)
  }

  /** `process_text` with emoji table `table`: the entries one after another, in order. */
  function ConvertEmoji(table: seq<EmojiEntry>, s: string): string
  {
    if table == [] then s
    else ConvertEntry(table[|table| - 1], ConvertEmoji(table[..|table| - 1], s))
  }

  /** Each phrase is dealt with fully before the next: a table in two halves
      is the first half's result run through the second half. */
  lemma {:induction false} ConvertEmojiAppend(first: seq<EmojiEntry>, second: seq<EmojiEntry>, s: string)
    ensures ConvertEmoji(first + second, s) == ConvertEmoji(second, ConvertEmoji(first, s))
    decreases |second|
  {
    if second == [] {
      assert first + second == first;
    } else {
      var init := second[..|second| - 1];
      assert (first + second)[..|first + second| - 1] == first + init;
      ConvertEmojiAppend(first, init, s);
    }
  }

  /** Text holding no phrase of the table in either spelling is returned unchanged. */
  lemma {:induction false} ConvertWithoutPhrases(table: seq<EmojiEntry>, s: string)
    requires forall k :: 0 <= k < |table| ==> table[k].phrase != []
    requires forall k :: 0 <= k < |table| ==> !Contains(s, table[k].phrase) && !Contains(s, Title(table[k].phrase))
    ensures ConvertEmoji(table, s) == s
    decreases |table|
  {
    if table != [] {
      var e := table[|table| - 1];
      ConvertWithoutPhrases(table[..|table| - 1], s);
      ReplaceAllAbsent(s, e.phrase, e.emoji);
      ReplaceAllAbsent(s, Title(e.phrase), e.emoji);
    }
  }

  /** The empty string maps to the empty string. */
  lemma ConvertEmpty(table: seq<EmojiEntry>)
    requires forall k :: 0 <= k < |table| ==> table[k].phrase != []
    ensures ConvertEmoji(table, "") == ""
  {
    ConvertWithoutPhrases(table, "");
  }

  /** A phrase that starts with a letter followed by a lower-case letter. */
  predicate StartsLetterLower(phrase: string)
  {
    |phrase| >= 2 && IsLetter(phrase[0]) && IsLower(phrase[1])
  }

  /** Every phrase of the table starts with a letter followed by a lower-case letter. */
  lemma EmojiTableShape()
    ensures forall k :: 0 <= k < |EmojiTable()| ==> StartsLetterLower(EmojiTable()[k].phrase)
  {
  }

  /** Such a phrase cannot occur, in either spelling, in text without lower-case letters. */
  lemma NoLowerNoPhrase(s: string, phrase: string)
    requires StartsLetterLower(phrase)
    requires forall i :: 0 <= i < |s| ==> !IsLower(s[i])
    ensures !Contains(s, phrase) && !Contains(s, Title(phrase))
  {
    TitleAt(phrase, 1);
    var t := Title(phrase);
    forall i: nat
      ensures !OccursAt(s, i, phrase) && !OccursAt(s, i, t)
    {
      if i + |phrase| <= |s| {
        assert s[i..i + |phrase|][1] != phrase[1];
        assert s[i..i + |t|][1] != t[1];
      }
    }
  }

  /** Only the lower-case and the Title Case spelling are replaced: text with
      no lower-case letter (text in capitals, say) comes back unchanged. */
  lemma {:induction false} NoLowerUnchanged(table: seq<EmojiEntry>, s: string)
    requires forall k :: 0 <= k < |table| ==> StartsLetterLower(table[k].phrase)
    requires forall i :: 0 <= i < |s| ==> !IsLower(s[i])
    ensures ConvertEmoji(table, s) == s
  {
    forall k | 0 <= k < |table|
      ensures !Contains(s, table[k].phrase) && !Contains(s, Title(table[k].phrase))
    {
      NoLowerNoPhrase(s, table[k].phrase);
    }
    ConvertWithoutPhrases(table, s);
  }

  /** The converter's own table leaves text in capitals alone. */
  lemma AllCapsUnchanged(s: string)
    requires forall i :: 0 <= i < |s| ==> !IsLower(s[i])
    ensures ConvertEmoji(EmojiTable(), s) == s
  {
    EmojiTableShape();
    NoLowerUnchanged(EmojiTable(), s);
  }

  /** The Title Case spelling of a phrase of lower-case words separated by
      spaces upper-cases the first letter of every word and keeps the rest. */
  lemma TitleOfLowerWords(phrase: string)
    requires forall i :: 0 <= i < |phrase| ==> IsLower(phrase[i]) || phrase[i] == ' '
    ensures forall i :: 0 <= i < |phrase| ==>
              Title(phrase)[i] == if i == 0 || phrase[i - 1] == ' ' then Upper(phrase[i]) else phrase[i]
  {
    forall i | 0 <= i < |phrase|
      ensures Title(phrase)[i] == if i == 0 || phrase[i - 1] == ' ' then Upper(phrase[i]) else phrase[i]
    {
      TitleAt(phrase, i);
    }
  }

  /** Substrings, not words: "fireplace" loses its "fire". */
  lemma FireInFireplace()
    ensures ReplaceAll("fireplace", "fire", "\U{F0}\U{178}\U{201D}\U{A5}") == "\U{F0}\U{178}\U{201D}\U{A5}" + "place"
  {
    var s := "fireplace";
    var fire := "\U{F0}\U{178}\U{201D}\U{A5}";
    assert OccursAt(s, 0, "fire");
    ReplaceFromLeftmost(s, "fire", fire, 0, 0);
    forall j: nat | 4 <= j
      ensures !OccursAt(s, j, "fire")
    {
      if j + 4 <= |s| {
        assert s[j..j + 4][0] != 'f';
      }
    }
    ReplaceFromAbsent(s, "fire", fire, 4);
    assert s[0..0] == [] && s[4..] == "place";
  }

  /** The replacement loop of `process_text` over `table`. */
  method ConvertWithTable(table: seq<EmojiEntry>, text: string) returns (result: string)
    ensures result == ConvertEmoji(table, text)
  {
    result := text;
    var i := 0;
    while i < |table|
      invariant 0 <= i <= |table|
      invariant result == ConvertEmoji(table[..i], text)
    {
      var entry := table[i];
      result := ReplaceAll(result, entry.phrase, entry.emoji);
      result := ReplaceAll(result, Title(entry.phrase), entry.emoji);
      assert table[..i + 1][..i] == table[..i];
      i := i + 1;
    }
    assert table[..i] == table;
  }

  class EmojiConverterPlugin {
    /** The emoji table (`self.emoji_map`), in insertion order. */
    var emojiMap: seq<EmojiEntry>

    constructor ()
      ensures emojiMap == []
    {
      emojiMap := [];
    }

    /** `initialize` fills the emoji table. */
    method Initialize()
      modifies this
      ensures emojiMap == EmojiTable()
    {
      emojiMap := EmojiTable();
    }

    /** `process_text`: every phrase in turn, lower case then Title Case.
        The table exists only once `initialize` has run; before that the
        call raises, so it is not part of the contract. */
    method ProcessText(text: string) returns (result: string)
      requires emojiMap == EmojiTable()
      ensures result == ConvertEmoji(emojiMap, text)
    {
      result := ConvertWithTable(emojiMap, text);
    }
  }
}
