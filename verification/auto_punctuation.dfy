/**
 * The auto-punctuation text processor: spoken punctuation markers become
 * symbols (whole words only, one marker after another in table order), the
 * first letter of every sentence is capitalised, whitespace before
 * punctuation is dropped and a space is added after punctuation that is
 * directly followed by something else. The `re` operations it uses are
 * modelled as left-to-right scanners over ASCII text.
 */
module AutoPunctuation {
  import opened Ascii

  /** One entry of the marker table: the spoken words and the symbol they stand for. */
  datatype Marker = Marker(spoken: string, symbol: string)

  /** The marker table, in insertion order. */
  function MarkerTable(): seq<Marker>
  {
    [ Marker("period", "."),
      Marker("comma", ","),
      Marker("question mark", "?"),
      Marker("exclamation point", "!"),
      Marker("exclamation mark", "!"),
      Marker("colon", ":"),
      Marker("semicolon", ";"),
      Marker("dash", "-"),
      Marker("hyphen", "-"),
      Marker("apostrophe", "'"),
      Marker("quote", "\""),
      Marker("open quote", "\""),
      Marker("close quote", "\""),
      Marker("open parenthesis", "("),
      Marker("close parenthesis", ")"),
      Marker("new line", "\n"),
      Marker("new paragraph", "\n\n") ]
  }

  // ---------------------------------------------------------------------
  // Whole-word marker replacement: `re.sub(r'\b' + re.escape(m) + r'\b', sym, s, flags=re.IGNORECASE)`
  // ---------------------------------------------------------------------

  /** `\b` at position `p`: exactly one of the characters around `p` is a word character. */
  predicate AtBoundary(s: string, p: nat)
    requires p <= |s|
  {
    (p > 0 && IsWordChar(s[p - 1])) != (p < |s| && IsWordChar(s[p]))
  }

  /** Equality under `re.IGNORECASE`. */
  predicate SameIgnoringCase(a: string, b: string)
  {
    |a| == |b| && (a == [] || (Lower(a[0]) == Lower(b[0]) && SameIgnoringCase(a[1..], b[1..])))
  }

  /** The pattern `\b w \b` matches at position `i` of `s`. */
  predicate WholeWordAt(s: string, i: nat, w: string)
  {
    |w| > 0 && i + |w| <= |s| && AtBoundary(s, i) && AtBoundary(s, i + |w|) &&
    SameIgnoringCase(s[i..i + |w|], w)
  }

  /** The substitution of every whole-word occurrence of `w` by `sym`, scanning
      `s` from position `i`, leftmost first, without overlaps. */
  function SubWholeWord(s: string, w: string, sym: string, i: nat): string
    requires i <= |s|
    decreases |s| - i
  {
    if i == |s| then []
    else if WholeWordAt(s, i, w) then sym + SubWholeWord(s, w, sym, i + |w|)
    else [s[i]] + SubWholeWord(s, w, sym, i + 1)
  }

  /** Where the word does not occur as a whole word, the text is kept as it is. */
  lemma {:induction false} SubWithoutOccurrence(s: string, w: string, sym: string, i: nat)
    requires i <= |s|
    requires forall j :: i <= j < |s| ==> !WholeWordAt(s, j, w)
    ensures SubWholeWord(s, w, sym, i) == s[i..]
    decreases |s| - i
  {
    if i < |s| {
      SubWithoutOccurrence(s, w, sym, i + 1);
      assert s[i..] == [s[i]] + s[i + 1..];
    }
  }

  /** Where no whole word starts at `i`, the scan keeps `s[i]` and moves on. */
  lemma SubSkip(s: string, w: string, sym: string, i: nat)
    requires i < |s| && !WholeWordAt(s, i, w)
    ensures SubWholeWord(s, w, sym, i) == [s[i]] + SubWholeWord(s, w, sym, i + 1)
  {
  }

  /** The leftmost whole-word occurrence at or after `i` is the one replaced:
      everything before it is kept, and the scan resumes after it. */
  lemma {:induction false} SubReplacesLeftmost(s: string, w: string, sym: string, i: nat, j: nat)
    requires i <= j < |s| && WholeWordAt(s, j, w)
    requires forall k :: i <= k < j ==> !WholeWordAt(s, k, w)
    ensures SubWholeWord(s, w, sym, i) == s[i..j] + sym + SubWholeWord(s, w, sym, j + |w|)
    decreases j - i
  {
    if i < j {
      SubReplacesLeftmost(s, w, sym, i + 1, j);
      SubSkip(s, w, sym, i);
      ConsSlice(s, i, j, sym, SubWholeWord(s, w, sym, j + |w|));
    } else {
      assert s[i..j] == [];
    }
  }

  /** The markers applied one after another, in order. */
  function ReplaceMarkers(ms: seq<Marker>, s: string): string
  {
    if ms == [] then s
    else
      var last := ms[|ms| - 1];
      var before := ReplaceMarkers(ms[..|ms| - 1], s);
      SubWholeWord(before, last.spoken, last.symbol, 0)
  }

  /** Applying a table in two halves is applying the first half and then the
      second: each marker sees the output of all the markers before it. */
  lemma {:induction false} ReplaceMarkersAppend(first: seq<Marker>, second: seq<Marker>, s: string)
    ensures ReplaceMarkers(first + second, s) == ReplaceMarkers(second, ReplaceMarkers(first, s))
    decreases |second|
  {
    if second == [] {
      assert first + second == first;
    } else {
      var init := second[..|second| - 1];
      assert (first + second)[..|first + second| - 1] == first + init;
      ReplaceMarkersAppend(first, init, s);
    }
  }

  /** Table order decides which marker wins: "quote" comes before "open quote"
      and "close quote" in the table. */
  lemma QuoteComesFirst()
    ensures MarkerTable()[10] == Marker("quote", "\"")
    ensures MarkerTable()[11] == Marker("open quote", "\"") && MarkerTable()[12] == Marker("close quote", "\"")
  {
  }

  /** The "quote" entry rewrites the last word of "open quote" ... */
  lemma QuoteRewritesOpenQuote()
    ensures SubWholeWord("open quote", "quote", "\"", 0) == "open \""
  {
    var s := "open quote";
    assert WholeWordAt(s, 5, "quote") by {
      assert s[5..10] == "quote";
    }
    assert !WholeWordAt(s, 0, "quote") by {
      assert s[0] != 'q';
    }
    assert !WholeWordAt(s, 4, "quote") by {
      assert !AtBoundary(s, 9);
    }
    forall k | 1 <= k < 4
      ensures !WholeWordAt(s, k, "quote")
    {
      assert !AtBoundary(s, k);
    }
    SubReplacesLeftmost(s, "quote", "\"", 0, 5);
    assert s[0..5] == "open ";
    assert SubWholeWord(s, "quote", "\"", 10) == [];
  }

  /** ... so that the "open quote" entry finds nothing left to rewrite. */
  lemma OpenQuoteUnreached()
    ensures SubWholeWord("open \"", "open quote", "\"", 0) == "open \""
  {
    var t := "open \"";
    SubWithoutOccurrence(t, "open quote", "\"", 0);
    assert t[0..] == t;
  }

  /** Whole words only: "periodic" keeps its letters, "a period" gets its dot. */
  lemma WholeWordsOnly()
    ensures SubWholeWord("periodic", "period", ".", 0) == "periodic"
    ensures SubWholeWord("a period", "period", ".", 0) == "a ."
  {
    var s := "periodic";
    assert !WholeWordAt(s, 0, "period") by {
      assert !AtBoundary(s, 6);
    }
    SubWithoutOccurrence(s, "period", ".", 0);
    assert s[0..] == s;
    var t := "a period";
    assert WholeWordAt(t, 2, "period") by {
      assert t[2..8] == "period";
    }
    assert !WholeWordAt(t, 0, "period");
    assert !WholeWordAt(t, 1, "period");
    SubReplacesLeftmost(t, "period", ".", 0, 2);
    assert t[0..2] == "a ";
  }

  // ---------------------------------------------------------------------
  // Sentence capitalisation: `_capitalize_sentences`
  // ---------------------------------------------------------------------

  /** The sentence-ending characters of `[.!?]`. */
  predicate IsStop(c: char) { c == '.' || c == '!' || c == '?' }

  /** The separator `[.!?]\s+` starts at `i`. */
  predicate DelimiterAt(s: string, i: nat)
  {
    i + 1 < |s| && IsStop(s[i]) && IsSpace(s[i + 1])
  }

  /** `re.split(r'([.!?]\s+)', s)` from position `i`, the current piece having
      started at `start`: pieces of text alternate with the separators,
      which are greedy and kept. */
  function SplitFrom(s: string, start: nat, i: nat): (parts: seq<string>)
    requires start <= i <= |s|
    ensures |parts| % 2 == 1
    decreases |s| - i
  {
    if i == |s| then [s[start..]]
    else if DelimiterAt(s, i) then
      var e := SpaceRunEnd(s, i + 1);
      [s[start..i], s[i..e]] + SplitFrom(s, e, e)
    else SplitFrom(s, start, i + 1)
  }

  /** `''.join(parts)`. */
  function Join(parts: seq<string>): string
  {
    if parts == [] then [] else parts[0] + Join(parts[1..])
  }

  /** Splitting loses nothing: joining the pieces and separators gives the text back. */
  lemma {:induction false} JoinSplit(s: string, start: nat, i: nat)
    requires start <= i <= |s|
    ensures Join(SplitFrom(s, start, i)) == s[start..]
    decreases |s| - i
  {
    if i == |s| {
      assert Join([s[start..]]) == s[start..] + Join([]);
    } else if DelimiterAt(s, i) {
      var e := SpaceRunEnd(s, i + 1);
      var rest := SplitFrom(s, e, e);
      JoinSplit(s, e, e);
      assert ([s[start..i], s[i..e]] + rest)[1..] == [s[i..e]] + rest;
      assert ([s[i..e]] + rest)[1..] == rest;
      assert s[start..] == s[start..i] + s[i..e] + s[e..];
    } else {
      JoinSplit(s, start, i + 1);
    }
  }

  /** `s[0].upper() + s[1:]`, and `s.upper()` for a single character. */
  function UpperFirst(s: string): string
  {
    if s == [] then s else [Upper(s[0])] + s[1..]
  }

  /** A sentence piece whose first character is lower case gets it upper-cased. */
  function CapFirst(part: string): string
  {
    if part != [] && IsLower(part[0]) then UpperFirst(part) else part
  }

  /** Every piece at an even position (text, not a separator) gets `CapFirst`. */
  function CapParts(parts: seq<string>): (r: seq<string>)
    ensures |r| == |parts|
  {
    seq(|parts|, k requires 0 <= k < |parts| => if k % 2 == 0 then CapFirst(parts[k]) else parts[k])
  }

  /** `_capitalize_sentences`, as the composition of its steps. */
  function SentenceCase(s: string): string
  {
    Join(CapParts(SplitFrom(UpperFirst(s), 0, 0)))
  }

  /** Position `j` comes right after a sentence end followed by whitespace: `s[j - 1]`
      is whitespace and the whitespace run it belongs to follows one of `.!?`. */
  predicate FollowsStop(s: string, j: nat)
    requires j <= |s|
  {
    j >= 2 && IsSpace(s[j - 1]) && (IsStop(s[j - 2]) || FollowsStop(s, j - 1))
  }

  /** The intended meaning of `_capitalize_sentences`: the first character and
      every character after a sentence end plus whitespace is upper-cased, and
      every other character is kept. */
  function SentenceCaseSpec(s: string): (r: string)
    ensures |r| == |s|
  {
    seq(|s|, j requires 0 <= j < |s| => if j == 0 || FollowsStop(s, j) then Upper(s[j]) else s[j])
  }

  /** A whitespace run after one of `.!?` puts every later position of the run,
      and the one right after it, after a sentence end. */
  lemma {:induction false} FollowsStopInRun(s: string, p: nat, j: nat)
    requires p + 2 <= j <= |s| && IsStop(s[p])
    requires forall q :: p < q < j ==> IsSpace(s[q])
    ensures FollowsStop(s, j)
    decreases j
  {
    if j > p + 2 {
      FollowsStopInRun(s, p, j - 1);
    }
  }

  /** Without a separator in `[lo, j - 1)`, position `j` does not follow a
      sentence end, provided the run cannot reach back before `lo`. */
  lemma {:induction false} NoDelimiterNoStop(s: string, lo: nat, j: nat)
    requires lo < j <= |s|
    requires lo == 0 || !IsSpace(s[lo])
    requires forall p :: lo <= p < j - 1 ==> !DelimiterAt(s, p)
    ensures !FollowsStop(s, j)
    decreases j
  {
    if j >= 2 && IsSpace(s[j - 1]) {
      assert j - 2 >= lo;
      assert !DelimiterAt(s, j - 2);
      NoDelimiterNoStop(s, lo, j - 1);
    }
  }

  /** Character `j` of the intended meaning. */
  lemma SpecAt(s: string, j: nat)
    requires j < |s|
    ensures SentenceCaseSpec(s)[j] == if j == 0 || FollowsStop(s, j) then Upper(s[j]) else s[j]
  {
  }

  /** Character `k` of a capitalised piece: the first one upper-cased, the others kept. */
  lemma CapFirstAt(part: string, k: nat)
    requires k < |part|
    ensures |CapFirst(part)| == |part|
    ensures CapFirst(part)[k] == if k == 0 then Upper(part[0]) else part[k]
  {
  }

  /** A piece with no separator inside gets exactly what the intended meaning says. */
  lemma PieceMatchesSpec(s: string, start: nat, i: nat)
    requires start <= i <= |s|
    requires forall p :: start <= p < i ==> !DelimiterAt(s, p)
    requires start == 0 || start == |s| || (!IsSpace(s[start]) && FollowsStop(s, start))
    ensures CapFirst(s[start..i]) == SentenceCaseSpec(s)[start..i]
  {
    var spec := SentenceCaseSpec(s);
    var part := s[start..i];
    var piece := CapFirst(part);
    forall k | 0 <= k < i - start
      ensures piece[k] == spec[start + k]
    {
      PieceCharMatchesSpec(s, start, i, k);
    }
    AgreeOnSlice(piece, spec, start, i);
  }

  /** Character `k` of a piece with no separator inside. */
  lemma PieceCharMatchesSpec(s: string, start: nat, i: nat, k: nat)
    requires start <= i <= |s| && k < i - start
    requires forall p :: start <= p < i ==> !DelimiterAt(s, p)
    requires start == 0 || (!IsSpace(s[start]) && FollowsStop(s, start))
    ensures CapFirst(s[start..i])[k] == SentenceCaseSpec(s)[start + k]
  {
    CapFirstAt(s[start..i], k);
    SpecAt(s, start + k);
    if k > 0 {
      NoDelimiterNoStop(s, start, start + k);
      assert CapFirst(s[start..i])[k] == s[start + k];
    } else {
      assert CapFirst(s[start..i])[0] == Upper(s[start]);
    }
  }

  /** A string that agrees position by position with `spec` on `[start, i)` is that slice. */
  lemma AgreeOnSlice(piece: string, spec: string, start: nat, i: nat)
    requires start <= i <= |spec| && |piece| == i - start
    requires forall k :: 0 <= k < i - start ==> piece[k] == spec[start + k]
    ensures piece == spec[start..i]
  {
  }

  lemma CapPartsCons2(a: string, b: string, rest: seq<string>)
    ensures CapParts([a, b] + rest) == [CapFirst(a), b] + CapParts(rest)
  {
    var parts := [a, b] + rest;
    forall k | 2 <= k < |parts|
      ensures CapParts(parts)[k] == CapParts(rest)[k - 2]
    {
      assert k % 2 == (k - 2) % 2;
    }
  }

  lemma JoinCons2(a: string, b: string, rest: seq<string>)
    ensures Join([a, b] + rest) == a + b + Join(rest)
  {
    assert ([a, b] + rest)[1..] == [b] + rest;
    assert ([b] + rest)[1..] == rest;
  }

  /** A separator is kept as it is: it holds no lower-case letter. */
  lemma SeparatorMatchesSpec(s: string, i: nat)
    requires DelimiterAt(s, i)
    ensures s[i..SpaceRunEnd(s, i + 1)] == SentenceCaseSpec(s)[i..SpaceRunEnd(s, i + 1)]
  {
    var e := SpaceRunEnd(s, i + 1);
    var spec := SentenceCaseSpec(s);
    forall j | i <= j < e
      ensures s[j] == spec[j]
    {
      assert Upper(s[j]) == s[j];
    }
  }

  /** A capitalised piece, a separator and capitalised rest that each match
      consecutive slices of `spec` make up the suffix of `spec`. */
  lemma AssembleSuffix(spec: string, start: nat, i: nat, e: nat, piece: string, sep: string, rest: seq<string>)
    requires start <= i <= e <= |spec|
    requires CapFirst(piece) == spec[start..i] && sep == spec[i..e] && Join(CapParts(rest)) == spec[e..]
    ensures Join(CapParts([piece, sep] + rest)) == spec[start..]
  {
    CapPartsCons2(piece, sep, rest);
    JoinCons2(CapFirst(piece), sep, CapParts(rest));
    assert spec[start..] == spec[start..i] + spec[i..e] + spec[e..];
  }

  /** One separator step: the piece before it, the separator and the rest,
      each matching the intended meaning, make the whole suffix match it. */
  lemma DelimiterStep(s: string, start: nat, i: nat)
    requires start <= i && DelimiterAt(s, i)
    requires forall p :: start <= p < i ==> !DelimiterAt(s, p)
    requires start == 0 || start == |s| || (!IsSpace(s[start]) && FollowsStop(s, start))
    requires Join(CapParts(SplitFrom(s, SpaceRunEnd(s, i + 1), SpaceRunEnd(s, i + 1)))) ==
             SentenceCaseSpec(s)[SpaceRunEnd(s, i + 1)..]
    ensures Join(CapParts(SplitFrom(s, start, i))) == SentenceCaseSpec(s)[start..]
  {
    var e := SpaceRunEnd(s, i + 1);
    var rest := SplitFrom(s, e, e);
    PieceMatchesSpec(s, start, i);
    SeparatorMatchesSpec(s, i);
    assert SplitFrom(s, start, i) == [s[start..i], s[i..e]] + rest;
    AssembleSuffix(SentenceCaseSpec(s), start, i, e, s[start..i], s[i..e], rest);
  }

  /** The end of the text: the last piece matches the intended meaning. */
  lemma LastPiece(s: string, start: nat)
    requires start <= |s|
    requires forall p :: start <= p < |s| ==> !DelimiterAt(s, p)
    requires start == 0 || start == |s| || (!IsSpace(s[start]) && FollowsStop(s, start))
    ensures Join(CapParts(SplitFrom(s, start, |s|))) == SentenceCaseSpec(s)[start..]
  {
    PieceMatchesSpec(s, start, |s|);
    assert s[start..|s|] == s[start..];
    JoinSingle(s[start..], SentenceCaseSpec(s), start);
  }

  /** A single capitalised piece matching the end of `spec` is all of it. */
  lemma JoinSingle(piece: string, spec: string, start: nat)
    requires start <= |spec| && CapFirst(piece) == spec[start..|spec|]
    ensures Join(CapParts([piece])) == spec[start..]
  {
    assert CapParts([piece]) == [CapFirst(piece)];
    assert Join([CapFirst(piece)]) == CapFirst(piece) + Join([]);
  }

  /** The split, the per-piece capitalisation and the join together give the
      intended meaning on the rest of the text from `start`. */
  lemma {:induction false} SplitCapMatchesSpec(s: string, start: nat, i: nat)
    requires start <= i <= |s|
    requires forall p :: start <= p < i ==> !DelimiterAt(s, p)
    requires start == 0 || start == |s| || (!IsSpace(s[start]) && FollowsStop(s, start))
    ensures Join(CapParts(SplitFrom(s, start, i))) == SentenceCaseSpec(s)[start..]
    decreases |s| - i
  {
    if i == |s| {
      LastPiece(s, start);
    } else if DelimiterAt(s, i) {
      var e := SpaceRunEnd(s, i + 1);
      if e < |s| {
        FollowsStopInRun(s, i, e);
      }
      SplitCapMatchesSpec(s, e, e);
      DelimiterStep(s, start, i);
    } else {
      SplitCapMatchesSpec(s, start, i + 1);
    }
  }

  /** Upper-casing the first character changes no character class that
      sentence ends depend on. */
  lemma {:induction false} FollowsStopUpperFirst(s: string, j: nat)
    requires j <= |s|
    ensures FollowsStop(UpperFirst(s), j) == FollowsStop(s, j)
    decreases j
  {
    if j >= 2 {
      FollowsStopUpperFirst(s, j - 1);
    }
  }

  /** `_capitalize_sentences` upper-cases the first character and every
      character right after `.`, `!` or `?` plus whitespace, and leaves every
      other character as it is. */
  lemma SentenceCaseCorrect(s: string)
    ensures SentenceCase(s) == SentenceCaseSpec(s)
  {
    var s1 := UpperFirst(s);
    SplitCapMatchesSpec(s1, 0, 0);
    assert SentenceCaseSpec(s1)[0..] == SentenceCaseSpec(s1);
    forall j | 0 <= j < |s|
      ensures SentenceCaseSpec(s1)[j] == SentenceCaseSpec(s)[j]
    {
      FollowsStopUpperFirst(s, j);
    }
  }

  // ---------------------------------------------------------------------
  // Spacing around punctuation
  // ---------------------------------------------------------------------

  /** The class `[.,!?;:]`. */
  predicate IsPunct(c: char) { c == '.' || c == ',' || c == '!' || c == '?' || c == ';' || c == ':' }

  /** The characters of `s` that are not whitespace, in order. */
  function NonBlank(s: string): string
  {
    if s == [] then [] else (if IsSpace(s[0]) then [] else [s[0]]) + NonBlank(s[1..])
  }

  lemma {:induction false} NonBlankAppend(a: string, b: string)
    ensures NonBlank(a + b) == NonBlank(a) + NonBlank(b)
    decreases |a|
  {
    if a == [] {
      assert a + b == b;
    } else {
      assert (a + b)[1..] == a[1..] + b;
      NonBlankAppend(a[1..], b);
    }
  }

  lemma {:induction false} NonBlankOfSpaces(s: string)
    requires forall q :: 0 <= q < |s| ==> IsSpace(s[q])
    ensures NonBlank(s) == []
  {
    if s != [] {
      NonBlankOfSpaces(s[1..]);
    }
  }

  /** `re.sub(r'\s+([.,!?;:])', r'\1', s)` from position `i`. */
  function DropSpaceBeforePunct(s: string, i: nat): string
    requires i <= |s|
    decreases |s| - i
  {
    if i == |s| then []
    else
      var e := SpaceRunEnd(s, i);
      if IsSpace(s[i]) && e < |s| && IsPunct(s[e]) then [s[e]] + DropSpaceBeforePunct(s, e + 1)
      else [s[i]] + DropSpaceBeforePunct(s, i + 1)
  }

  /** No whitespace is left directly before a punctuation mark. */
  lemma {:induction false} NoSpaceBeforePunct(s: string, i: nat)
    requires i <= |s|
    ensures forall k :: 0 < k < |DropSpaceBeforePunct(s, i)| && IsPunct(DropSpaceBeforePunct(s, i)[k]) ==>
              !IsSpace(DropSpaceBeforePunct(s, i)[k - 1])
    decreases |s| - i
  {
    if i < |s| {
      var e := SpaceRunEnd(s, i);
      if IsSpace(s[i]) && e < |s| && IsPunct(s[e]) {
        NoSpaceBeforePunct(s, e + 1);
      } else {
        NoSpaceBeforePunct(s, i + 1);
        var rest := DropSpaceBeforePunct(s, i + 1);
        if IsSpace(s[i]) && rest != [] {
          // the run from `i + 1` ends where the run from `i` ends, before no punctuation
          assert SpaceRunEnd(s, i) == SpaceRunEnd(s, i + 1);
          assert rest[0] == s[i + 1];
        }
      }
    }
  }

  lemma NonBlankCons(c: char, rest: string)
    ensures NonBlank([c] + rest) == (if IsSpace(c) then [] else [c]) + NonBlank(rest)
  {
    assert ([c] + rest)[1..] == rest;
  }

  /** A whitespace run before a mark is dropped together with nothing else. */
  lemma DropStep(s: string, i: nat, e: nat)
    requires i < e < |s| && e == SpaceRunEnd(s, i) && IsPunct(s[e])
    requires NonBlank(DropSpaceBeforePunct(s, e + 1)) == NonBlank(s[e + 1..])
    ensures NonBlank([s[e]] + DropSpaceBeforePunct(s, e + 1)) == NonBlank(s[i..])
  {
    assert s[i..] == s[i..e] + ([s[e]] + s[e + 1..]);
    DropRun(s[i..e], s[e], DropSpaceBeforePunct(s, e + 1), s[e + 1..]);
  }

  /** Dropping a whitespace run in front of `c` keeps the same blanks. */
  lemma DropRun(run: string, c: char, kept: string, rest: string)
    requires forall q :: 0 <= q < |run| ==> IsSpace(run[q])
    requires NonBlank(kept) == NonBlank(rest)
    ensures NonBlank([c] + kept) == NonBlank(run + ([c] + rest))
  {
    NonBlankCons(c, kept);
    NonBlankAppend(run, [c] + rest);
    NonBlankOfSpaces(run);
    NonBlankCons(c, rest);
  }

  /** Only whitespace is removed: the other characters stay, in order. */
  lemma {:induction false} DropKeepsNonBlank(s: string, i: nat)
    requires i <= |s|
    ensures NonBlank(DropSpaceBeforePunct(s, i)) == NonBlank(s[i..])
    decreases |s| - i
  {
    if i < |s| {
      var e := SpaceRunEnd(s, i);
      if IsSpace(s[i]) && e < |s| && IsPunct(s[e]) {
        DropKeepsNonBlank(s, e + 1);
        DropStep(s, i, e);
      } else {
        DropKeepsNonBlank(s, i + 1);
        KeepStep(s, i, DropSpaceBeforePunct(s, i + 1));
      }
    }
  }

  /** A character that is kept is kept with the same blanks. */
  lemma KeepStep(s: string, i: nat, rest: string)
    requires i < |s| && NonBlank(rest) == NonBlank(s[i + 1..])
    ensures NonBlank([s[i]] + rest) == NonBlank(s[i..])
  {
    NonBlankCons(s[i], rest);
    assert s[i..] == [s[i]] + s[i + 1..];
    NonBlankCons(s[i], s[i + 1..]);
  }

  /** Text with no whitespace before punctuation is left as it is. */
  lemma {:induction false} DropFixpoint(s: string, i: nat)
    requires i <= |s|
    requires forall k :: i < k < |s| && IsPunct(s[k]) ==> !IsSpace(s[k - 1])
    ensures DropSpaceBeforePunct(s, i) == s[i..]
    decreases |s| - i
  {
    if i < |s| {
      var e := SpaceRunEnd(s, i);
      if IsSpace(s[i]) && e < |s| {
        assert IsSpace(s[e - 1]);
      }
      DropFixpoint(s, i + 1);
      assert s[i..] == [s[i]] + s[i + 1..];
    }
  }

  /** Removing whitespace before punctuation twice is removing it once. */
  lemma DropIdempotent(s: string)
    ensures DropSpaceBeforePunct(DropSpaceBeforePunct(s, 0), 0) == DropSpaceBeforePunct(s, 0)
  {
    var r := DropSpaceBeforePunct(s, 0);
    NoSpaceBeforePunct(s, 0);
    DropFixpoint(r, 0);
  }

  /** Whether the step keeps the character at `k`: everything but whitespace
      whose run ends right before a punctuation mark. */
  predicate KeptBeforePunct(s: string, k: nat)
    requires k < |s|
  {
    !IsSpace(s[k]) || SpaceRunEnd(s, k) == |s| || !IsPunct(s[SpaceRunEnd(s, k)])
  }

  /** The characters from `i` on that the step keeps, in order. */
  function KeptFrom(s: string, i: nat): string
    requires i <= |s|
    decreases |s| - i
  {
    if i == |s| then [] else (if KeptBeforePunct(s, i) then [s[i]] else []) + KeptFrom(s, i + 1)
  }

  /** A whitespace run ending before a mark contributes nothing. */
  lemma {:induction false} KeptSkipsRun(s: string, i: nat, e: nat)
    requires i <= |s| && e == SpaceRunEnd(s, i) && e < |s| && IsPunct(s[e])
    ensures KeptFrom(s, i) == KeptFrom(s, e)
    decreases e - i
  {
    if i < e {
      assert SpaceRunEnd(s, i) == SpaceRunEnd(s, i + 1);
      KeptSkipsRun(s, i + 1, e);
      assert !KeptBeforePunct(s, i);
    }
  }

  /** The step keeps exactly the characters `KeptBeforePunct` names, in
      order: whitespace that does not end right before a mark stays, as in
      "a b ," becoming "a b,". */
  lemma {:induction false} DropKeepsExactly(s: string, i: nat)
    requires i <= |s|
    ensures DropSpaceBeforePunct(s, i) == KeptFrom(s, i)
    decreases |s| - i
  {
    if i < |s| {
      var e := SpaceRunEnd(s, i);
      if IsSpace(s[i]) && e < |s| && IsPunct(s[e]) {
        KeptSkipsRun(s, i, e);
        assert KeptBeforePunct(s, e);
        DropKeepsExactly(s, e + 1);
      } else {
        assert KeptBeforePunct(s, i);
        DropKeepsExactly(s, i + 1);
      }
    }
  }

  /** A punctuation mark directly followed by a non-whitespace character at `i`. */
  predicate TightAfterPunct(s: string, i: nat)
  {
    i + 1 < |s| && IsPunct(s[i]) && !IsSpace(s[i + 1])
  }

  /** `re.sub(r'([.,!?;:])([^\s])', r'\1 \2', s)` from position `i`: the
      character after the mark is consumed with it, so it is not itself
      looked at as a mark. */
  function SpaceAfterPunct(s: string, i: nat): string
    requires i <= |s|
    decreases |s| - i
  {
    if i == |s| then []
    else if TightAfterPunct(s, i) then [s[i], ' ', s[i + 1]] + SpaceAfterPunct(s, i + 2)
    else [s[i]] + SpaceAfterPunct(s, i + 1)
  }

  /** A mark and the character after it get a space between them and nothing else. */
  lemma SpaceStep(s: string, i: nat)
    requires TightAfterPunct(s, i)
    requires NonBlank(SpaceAfterPunct(s, i + 2)) == NonBlank(s[i + 2..])
    ensures NonBlank([s[i], ' ', s[i + 1]] + SpaceAfterPunct(s, i + 2)) == NonBlank(s[i..])
  {
    var rest := SpaceAfterPunct(s, i + 2);
    assert [s[i], ' ', s[i + 1]] + rest == [s[i]] + ([' '] + ([s[i + 1]] + rest));
    NonBlankCons(s[i], [' '] + ([s[i + 1]] + rest));
    NonBlankCons(' ', [s[i + 1]] + rest);
    NonBlankCons(s[i + 1], rest);
    assert s[i..] == [s[i]] + ([s[i + 1]] + s[i + 2..]);
    NonBlankCons(s[i], [s[i + 1]] + s[i + 2..]);
    NonBlankCons(s[i + 1], s[i + 2..]);
  }

  /** Only spaces are inserted: the other characters stay, in order. */
  lemma {:induction false} SpaceAfterKeepsNonBlank(s: string, i: nat)
    requires i <= |s|
    ensures NonBlank(SpaceAfterPunct(s, i)) == NonBlank(s[i..])
    decreases |s| - i
  {
    if i < |s| {
      if TightAfterPunct(s, i) {
        SpaceAfterKeepsNonBlank(s, i + 2);
        SpaceStep(s, i);
      } else {
        SpaceAfterKeepsNonBlank(s, i + 1);
        NonBlankCons(s[i], SpaceAfterPunct(s, i + 1));
        assert s[i..] == [s[i]] + s[i + 1..];
        NonBlankCons(s[i], s[i + 1..]);
      }
    }
  }

  /** When no two punctuation marks are adjacent, every mark in the result is
      followed by whitespace or ends the text. */
  lemma {:induction false} SpaceFollowsPunct(s: string, i: nat)
    requires i <= |s|
    requires forall k :: i < k < |s| ==> !(IsPunct(s[k - 1]) && IsPunct(s[k]))
    ensures forall k :: 0 <= k < |SpaceAfterPunct(s, i)| && IsPunct(SpaceAfterPunct(s, i)[k]) ==>
              k + 1 == |SpaceAfterPunct(s, i)| || IsSpace(SpaceAfterPunct(s, i)[k + 1])
    decreases |s| - i
  {
    if i < |s| {
      if TightAfterPunct(s, i) {
        SpaceFollowsPunct(s, i + 2);
        assert !IsPunct(s[i + 1]);
      } else {
        SpaceFollowsPunct(s, i + 1);
        if i + 1 < |s| {
          assert SpaceAfterPunct(s, i + 1)[0] == s[i + 1];
        }
      }
    }
  }

  /** Text whose every mark is already followed by whitespace or ends it is left as it is. */
  lemma {:induction false} SpaceAfterFixpoint(s: string, i: nat)
    requires i <= |s|
    requires forall k :: i <= k < |s| - 1 && IsPunct(s[k]) ==> IsSpace(s[k + 1])
    ensures SpaceAfterPunct(s, i) == s[i..]
    decreases |s| - i
  {
    if i < |s| {
      SpaceAfterFixpoint(s, i + 1);
      assert s[i..] == [s[i]] + s[i + 1..];
    }
  }

  /** The consumed character is not looked at again: in "a.,b" the comma,
      swallowed as the character after the period, gets no space after it. */
  lemma SecondMarkNotSpaced()
    ensures SpaceAfterPunct("a.,b", 0) == "a. ,b"
  {
    var s := "a.,b";
    assert !TightAfterPunct(s, 0);
    assert TightAfterPunct(s, 1);
    assert !TightAfterPunct(s, 3);
  }

  // ---------------------------------------------------------------------
  // The whole of `process_text`
  // ---------------------------------------------------------------------

  /** `process_text` with marker table `ms`. */
  function Punctuate(ms: seq<Marker>, text: string): string
  {
    var replaced := ReplaceMarkers(ms, LowerStr(text));
    SpaceAfterPunct(DropSpaceBeforePunct(SentenceCase(replaced), 0), 0)
  }

  lemma {:induction false} ReplaceMarkersEmpty(ms: seq<Marker>)
    ensures ReplaceMarkers(ms, "") == ""
    decreases |ms|
  {
    if ms != [] {
      ReplaceMarkersEmpty(ms[..|ms| - 1]);
    }
  }

  /** The empty string maps to the empty string. */
  lemma PunctuateEmpty(ms: seq<Marker>)
    ensures Punctuate(ms, "") == ""
  {
    ReplaceMarkersEmpty(ms);
    assert LowerStr("") == "";
    assert SplitFrom("", 0, 0) == [""];
    assert CapParts([""]) == [""];
    assert Join([""]) == "" + Join([]);
  }

  /** The input is lower-cased first, so its original capitals make no difference. */
  lemma PunctuateIgnoresCase(ms: seq<Marker>, text: string)
    ensures Punctuate(ms, text) == Punctuate(ms, LowerStr(text))
  {
    LowerStrIdempotent(text);
  }

  /** The result keeps every non-whitespace character of the capitalised,
      marker-replaced text, in order. */
  lemma PunctuateKeepsNonBlank(ms: seq<Marker>, text: string)
    ensures var cased := SentenceCase(ReplaceMarkers(ms, LowerStr(text)));
            NonBlank(Punctuate(ms, text)) == NonBlank(cased)
  {
    var cased := SentenceCase(ReplaceMarkers(ms, LowerStr(text)));
    DropKeepsNonBlank(cased, 0);
    SpaceAfterKeepsNonBlank(DropSpaceBeforePunct(cased, 0), 0);
    assert cased[0..] == cased;
    var dropped := DropSpaceBeforePunct(cased, 0);
    assert dropped[0..] == dropped;
  }

  class AutoPunctuationPlugin {
    /** The marker table (`self.markers`), in insertion order. */
    var markers: seq<Marker>

    constructor ()
      ensures markers == []
    {
      markers := [];
    }

    /** `initialize` fills the marker table. */
    method Initialize()
      modifies this
      ensures markers == MarkerTable()
    {
      markers := MarkerTable();
    }

    /** `process_text`: lower-case, replace the markers one after another,
        capitalise sentences, then fix the spacing around punctuation. The
        table exists only once `initialize` has run; before that the call
        raises, so it is not part of the contract. */
    method ProcessText(text: string) returns (processed: string)
      requires markers == MarkerTable()
      ensures processed == Punctuate(markers, text)
    {
      processed := LowerStr(text);
      var i := 0;
      while i < |markers|
        invariant 0 <= i <= |markers|
        invariant processed == ReplaceMarkers(markers[..i], LowerStr(text))
      {
        processed := SubWholeWord(processed, markers[i].spoken, markers[i].symbol, 0);
        assert markers[..i + 1][..i] == markers[..i];
        i := i + 1;
      }
      assert markers[..i] == markers;
      SentenceCaseCorrect(processed);
      processed := CapitalizeSentences(processed);
      processed := DropSpaceBeforePunct(processed, 0);
      processed := SpaceAfterPunct(processed, 0);
    }

    /** `_capitalize_sentences`: upper-cases the first character and every
        character right after `.`, `!` or `?` plus whitespace, nothing else. */
    method CapitalizeSentences(text: string) returns (r: string)
      ensures r == SentenceCaseSpec(text)
    {
      var first := UpperFirst(text);
      var sentences := SplitFrom(first, 0, 0);
      var result: seq<string> := [];
      var i := 0;
      while i < |sentences|
        invariant 0 <= i <= |sentences|
        invariant result == CapParts(sentences)[..i]
      {
        var part := sentences[i];
        if i % 2 == 0 && part != [] {
          if IsLower(part[0]) {
            part := UpperFirst(part);
          }
        }
        result := result + [part];
        i := i + 1;
      }
      assert result == CapParts(sentences);
      r := Join(result);
      SentenceCaseCorrect(text);
    }
  }
}
