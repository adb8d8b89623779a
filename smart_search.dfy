/** The relevance scorer of the file-name search (`SmartSearch` in
    explorer/views.py): text normalisation, stop-word filtering, the table of
    Russian suffix rewrites, the tiered word similarity and the per-word
    aggregation into a relevance between 0 and 100.

    `difflib.SequenceMatcher(None, a, b).ratio()` is foreign library code; it
    enters the model as the parameter `ratio`, about which nothing is assumed
    except, where a lemma says so, that it lies in [0, 1]. */
module SmartSearch {
  import opened Strings

  type Ratio = (string, string) -> real

  /** What `SequenceMatcher.ratio()` promises: a value in [0, 1]. */
  ghost predicate RatioBounded(ratio: Ratio) {
    forall a, b :: 0.0 <= ratio(a, b) <= 1.0
  }

  function Max(a: real, b: real): real { if a >= b then a else b }
  function Min(a: real, b: real): real { if a <= b then a else b }

  // ---------------------------------------------------------------------
  // Stop words

  /** `SmartSearch.STOP_WORDS`: prepositions, conjunctions, pronouns and
      English function words, listed as the source's set literal lists them
      (its repeated entries included; membership is all that matters). */
  const StopWordList: seq<string> := [
    "для", "на", "в", "с", "по", "из", "у", "о", "от", "до", "за", "к", "со", "во", "не", "ни",
    "об", "под", "над", "при", "про", "до", "после", "через", "между", "среди", "вокруг",
    "перед", "возле", "около", "вдоль", "поперек", "сквозь", "благодаря", "вопреки", "согласно",
    "вследствие", "ввиду", "насчет", "вроде", "включая", "исключая", "не считая", "спустя",
    "the", "a", "an", "and", "or", "but", "in", "on", "at", "to", "for", "of", "with", "by",
    "из-за", "из-под", "по-над", "по-под", "и", "или", "да", "но", "зато", "однако", "же", "ведь",
    "что", "как", "когда", "где", "куда", "откуда", "почему", "зачем", "сколько", "который",
    "какой", "чей", "кто", "что", "это", "то", "все", "всё", "весь", "каждый", "любой", "никакой",
    "некий", "некоторый", "мой", "твой", "его", "её", "наш", "ваш", "их", "свой", "сам", "самый",
    "другой", "иной", "каковой", "который", "чей", "сколько", "столько", "такой", "эдакий",
    "оный", "сей", "всякий", "каждый", "любой", "никакой", "некий", "некоторый"
  ]

  /** `w` occurs in `words`. */
  predicate Listed(w: string, words: seq<string>)
    decreases |words|
  {
    words != [] && (words[0] == w || Listed(w, words[1..]))
  }

  lemma {:induction false} ListedIsMembership(w: string, words: seq<string>)
    ensures Listed(w, words) <==> w in words
    decreases |words|
  {
    if words != [] {
      ListedIsMembership(w, words[1..]);
      assert words == [words[0]] + words[1..];
    }
  }

  /** `word in SmartSearch.STOP_WORDS`, for a given stop-word list. */
  predicate IsStopWord(w: string, stopWords: seq<string>) {
    Listed(w, stopWords)
  }

  // ---------------------------------------------------------------------
  // Normalisation

  /** The characters `[\w\s\-\.]` that the punctuation substitution keeps. */
  predicate KeptByNormalize(c: char) {
    IsWordChar(c) || IsSpace(c) || c == '-' || c == '.'
  }

  /** `re.sub(r'[^\w\s\-\.]', ' ', text)`: every other character becomes one space. */
  function ReplacePunctuation(s: string): (r: string)
    ensures |r| == |s|
    ensures forall i :: 0 <= i < |s| ==> r[i] == (if KeptByNormalize(s[i]) then s[i] else ' ')
  {
    seq(|s|, i requires 0 <= i < |s| => if KeptByNormalize(s[i]) then s[i] else ' ')
  }

  /** What the substitution means: only kept characters remain, a text of
      kept characters is left as it is (and only such a text), and
      substituting again changes nothing. */
  lemma {:induction false} ReplacePunctuationMeaning(s: string)
    ensures var r := ReplacePunctuation(s);
            (forall i :: 0 <= i < |r| ==> KeptByNormalize(r[i]))
            && ((forall i :: 0 <= i < |s| ==> KeptByNormalize(s[i])) <==> r == s)
            && ReplacePunctuation(r) == r
  {
    var r := ReplacePunctuation(s);
    if r == s {
      assert forall i :: 0 <= i < |s| ==> KeptByNormalize(s[i]) by {
        forall i | 0 <= i < |s| ensures KeptByNormalize(s[i]) {
          assert KeptByNormalize(r[i]);
        }
      }
    }
  }

  /** `re.sub(r'\s+', ' ', text)`: every maximal run of whitespace becomes one space. */
  function CollapseSpaces(s: string): (r: string)
    ensures s == [] <==> r == []
    ensures s != [] ==> r[0] == (if IsSpace(s[0]) then ' ' else s[0])
    ensures forall i, j :: 0 <= i && j == i + 1 && j < |r| ==> !(IsSpace(r[i]) && IsSpace(r[j]))
    ensures forall i :: 0 <= i < |r| && IsSpace(r[i]) ==> r[i] == ' '
    ensures (forall i :: 0 <= i < |s| ==> KeptByNormalize(s[i])) ==>
              forall i :: 0 <= i < |r| ==> KeptByNormalize(r[i])
    decreases |s|
  {
    if s == [] then []
    else if IsSpace(s[0]) then
      var t := TrimStart(s);
      assert forall i :: 0 <= i < |t| ==> t[i] == s[|s| - |t| + i];
      [' '] + CollapseSpaces(t)
    else [s[0]] + CollapseSpaces(s[1..])
  }

  /** Collapsing keeps the text's content: the same `split()` tokens. */
  lemma {:induction false} CollapseSpacesWords(s: string)
    ensures Words(CollapseSpaces(s)) == Words(s)
    decreases |s|
  {
    if s != [] {
      if IsSpace(s[0]) {
        var t := TrimStart(s);
        CollapseSpacesWords(t);
        CollapseLeadingSpace(s);
      } else {
        CollapseSpacesWords(s[1..]);
        CollapseLeadingWord(s);
      }
    }
  }

  lemma {:induction false} CollapseLeadingSpace(s: string)
    requires s != [] && IsSpace(s[0])
    requires Words(CollapseSpaces(TrimStart(s))) == Words(TrimStart(s))
    ensures Words(CollapseSpaces(s)) == Words(s)
  {
    var t := TrimStart(s);
    var x := CollapseSpaces(t);
    assert Words(CollapseSpaces(s)) == Words(x) by {
      assert CollapseSpaces(s) == [' '] + x;
      assert AllSpace([' ']);
      WordsLeadingSpaces([' '], x);
    }
    WordsTrimStart(s);
  }

  lemma {:induction false} CollapseLeadingWord(s: string)
    requires s != [] && !IsSpace(s[0])
    requires Words(CollapseSpaces(s[1..])) == Words(s[1..])
    ensures Words(CollapseSpaces(s)) == Words(s)
  {
    var s1 := s[1..];
    var x := CollapseSpaces(s1);
    assert CollapseSpaces(s) == [s[0]] + x;
    assert s == [s[0]] + s1;
    assert x == [] <==> s1 == [];
    assert x != [] ==> (IsSpace(x[0]) <==> IsSpace(s1[0]));
    WordsCons(s[0], x);
    WordsCons(s[0], s1);
  }

  /** Collapsing ends in whitespace exactly when the text does. */
  lemma {:induction false} CollapseSpacesLast(s: string)
    requires s != []
    ensures IsSpace(CollapseSpaces(s)[|CollapseSpaces(s)| - 1]) <==> IsSpace(s[|s| - 1])
    decreases |s|, 1
  {
    if IsSpace(s[0]) {
      CollapseLastAfterSpace(s);
    } else {
      CollapseLastAfterWord(s);
    }
  }

  /** The step of `CollapseSpacesLast` past leading whitespace. */
  lemma {:induction false} CollapseLastAfterSpace(s: string)
    requires s != [] && IsSpace(s[0])
    ensures IsSpace(CollapseSpaces(s)[|CollapseSpaces(s)| - 1]) <==> IsSpace(s[|s| - 1])
    decreases |s|, 0
  {
    var t := TrimStart(s);
    assert CollapseSpaces(s) == [' '] + CollapseSpaces(t);
    if t != [] {
      CollapseSpacesLast(t);
      assert t[|t| - 1] == s[|s| - 1];
    } else {
      assert IsSpace(s[|s| - 1]);
    }
  }

  /** The step of `CollapseSpacesLast` past a first character that is not
      whitespace. */
  lemma {:induction false} CollapseLastAfterWord(s: string)
    requires s != [] && !IsSpace(s[0])
    ensures IsSpace(CollapseSpaces(s)[|CollapseSpaces(s)| - 1]) <==> IsSpace(s[|s| - 1])
    decreases |s|, 0
  {
    var t := s[1..];
    assert CollapseSpaces(s) == [s[0]] + CollapseSpaces(t);
    if t != [] {
      CollapseSpacesLast(t);
      assert t[|t| - 1] == s[|s| - 1];
    }
  }

  /** `SmartSearch.normalize_text`: lower-case, strip, punctuation to spaces,
      whitespace runs to one space. The strip comes before the substitution,
      so leading or trailing punctuation leaves one space at that edge. */
  function Normalize(text: string): (r: string)
    ensures text == [] ==> r == []
  {
    if text == [] then []
    else CollapseSpaces(ReplacePunctuation(Strip(LowerStr(text))))
  }

  /** The normalised text holds only word characters, spaces, hyphens and
      dots, and never two whitespace characters in a row. */
  lemma {:induction false} NormalizeCharset(text: string)
    ensures var r := Normalize(text);
            (forall i :: 0 <= i < |r| ==> IsWordChar(r[i]) || r[i] == ' ' || r[i] == '-' || r[i] == '.')
            && (forall i, j :: 0 <= i && j == i + 1 && j < |r| ==> !(IsSpace(r[i]) && IsSpace(r[j])))
  {
    if text != [] {
      var replaced := ReplacePunctuation(Strip(LowerStr(text)));
      assert forall i :: 0 <= i < |replaced| ==> KeptByNormalize(replaced[i]);
      var r := CollapseSpaces(replaced);
      assert r == Normalize(text);
      forall i | 0 <= i < |r| ensures IsWordChar(r[i]) || r[i] == ' ' || r[i] == '-' || r[i] == '.' {
        assert KeptByNormalize(r[i]);
      }
    }
  }

  /** The substitution works character by character: it commutes with
      slicing and leaves whitespace alone. */
  lemma {:induction false} ReplaceSlice(x: string, y: string, k: nat, e: nat)
    requires k <= e <= |x| && y == x[k..e]
    ensures ReplacePunctuation(y) == ReplacePunctuation(x)[k..e]
    ensures AllSpace(x[..k]) ==> AllSpace(ReplacePunctuation(x)[..k])
    ensures AllSpace(x[e..]) ==> AllSpace(ReplacePunctuation(x)[e..])
  {
    var r := ReplacePunctuation(x);
    assert ReplacePunctuation(y) == r[k..e] by {
      forall j | 0 <= j < e - k ensures ReplacePunctuation(y)[j] == r[k..e][j] {
        assert y[j] == x[k + j];
      }
    }
    if AllSpace(x[..k]) {
      forall j | 0 <= j < k ensures IsSpace(r[..k][j]) {
        assert IsSpace(x[..k][j]);
      }
    }
    if AllSpace(x[e..]) {
      forall j | 0 <= j < |x| - e ensures IsSpace(r[e..][j]) {
        assert IsSpace(x[e..][j]);
      }
    }
  }

  /** The normalised text has the tokens of the lower-cased text with its
      punctuation turned into spaces: stripping and collapsing move no
      token boundary. */
  lemma {:induction false} NormalizeWords(text: string)
    ensures Words(Normalize(text)) == Words(ReplacePunctuation(LowerStr(text)))
  {
    if text != [] {
      var lowered := LowerStr(text);
      var replaced := ReplacePunctuation(Strip(lowered));
      assert Normalize(text) == CollapseSpaces(replaced);
      CollapseSpacesWords(replaced);
      StripReplacedWords(lowered);
    }
  }

  /** Stripping before replacing the punctuation changes no word. */
  lemma {:induction false} StripReplacedWords(x: string)
    ensures Words(ReplacePunctuation(Strip(x))) == Words(ReplacePunctuation(x))
  {
    var k, e := StripEnds(x);
    ReplacedCutWords(x, Strip(x), k, e);
  }

  /** Cutting whitespace off both ends before replacing the punctuation
      changes no word. */
  lemma {:induction false} ReplacedCutWords(x: string, y: string, k: nat, e: nat)
    requires k <= e <= |x| && y == x[k..e] && AllSpace(x[..k]) && AllSpace(x[e..])
    ensures Words(ReplacePunctuation(y)) == Words(ReplacePunctuation(x))
  {
    ReplaceSlice(x, y, k, e);
    WordsBetweenSpaces(ReplacePunctuation(x), ReplacePunctuation(y), k, e);
  }

  /** A text made only of whitespace normalises to "". */
  lemma {:induction false} NormalizeBlank(text: string)
    requires forall i :: 0 <= i < |text| ==> IsSpace(text[i])
    ensures Normalize(text) == []
  {
    if text != [] {
      var lowered := LowerStr(text);
      assert forall i :: 0 <= i < |text| ==> IsSpace(lowered[i]) by {
        forall i | 0 <= i < |text| ensures IsSpace(lowered[i]) {
          assert !IsWordChar(text[i]);
        }
      }
    }
  }

  // ---------------------------------------------------------------------
  // Stop-word filtering

  /** A query word that survives `filter_stop_words`. */
  predicate Significant(w: string, stopWords: seq<string>) {
    !IsStopWord(w, stopWords) && |w| > 2
  }

  /** `SmartSearch.filter_stop_words`: the words that are not stop words and
      are longer than two characters, in their original order. The class
      constant `STOP_WORDS` is the parameter `stopWords` (the source passes
      `StopWordList`). */
  function FilterStopWords(words: seq<string>, stopWords: seq<string>): (r: seq<string>)
    ensures |r| <= |words|
    ensures forall k :: 0 <= k < |r| ==> Significant(r[k], stopWords)
    decreases |words|
  {
    if words == [] then []
    else (if Significant(words[0], stopWords) then [words[0]] else []) + FilterStopWords(words[1..], stopWords)
  }

  /** Filtering distributes over concatenation: it keeps the surviving words
      of each part, in order, and nothing else. */
  lemma {:induction false} FilterStopWordsAppend(a: seq<string>, b: seq<string>, stopWords: seq<string>)
    ensures FilterStopWords(a + b, stopWords) == FilterStopWords(a, stopWords) + FilterStopWords(b, stopWords)
    decreases |a|
  {
    if a == [] {
      assert a + b == b;
    } else {
      assert (a + b)[0] == a[0];
      assert (a + b)[1..] == a[1..] + b;
      FilterStopWordsAppend(a[1..], b, stopWords);
    }
  }

  /** A word is in the filtered list exactly when it is in the input, is
      longer than two characters and is not a stop word. */
  lemma {:induction false} FilterStopWordsMembers(words: seq<string>, stopWords: seq<string>, w: string)
    ensures w in FilterStopWords(words, stopWords) <==> w in words && |w| > 2 && w !in stopWords
    decreases |words|
  {
    ListedIsMembership(w, stopWords);
    if words != [] {
      FilterStopWordsMembers(words[1..], stopWords, w);
      assert words == [words[0]] + words[1..];
    }
  }

  /** The file-name side of the comparison: `[w for w in words if len(w) > 2]`
      (no stop-word removal). */
  function LongWords(words: seq<string>): (r: seq<string>)
    ensures |r| <= |words|
    ensures forall k :: 0 <= k < |r| ==> |r[k]| > 2 && r[k] in words
    decreases |words|
  {
    if words == [] then []
    else (if |words[0]| > 2 then [words[0]] else []) + LongWords(words[1..])
  }

  /** A word is kept exactly when it is an input word longer than two characters. */
  lemma {:induction false} LongWordsMembers(words: seq<string>, w: string)
    ensures w in LongWords(words) <==> w in words && |w| > 2
    decreases |words|
  {
    if words != [] {
      LongWordsMembers(words[1..], w);
      assert words == [words[0]] + words[1..];
    }
  }

  /** The kept words keep their input order. */
  lemma {:induction false} LongWordsAppend(a: seq<string>, b: seq<string>)
    ensures LongWords(a + b) == LongWords(a) + LongWords(b)
    decreases |a|
  {
    if a == [] {
      assert a + b == b;
    } else {
      assert (a + b)[0] == a[0];
      assert (a + b)[1..] == a[1..] + b;
      LongWordsAppend(a[1..], b);
    }
  }

  // ---------------------------------------------------------------------
  // Word variations

  /** `word.endswith(c)` for a one-letter suffix. */
  predicate EndsWith1(word: string, c: char) {
    |word| >= 1 && word[|word| - 1] == c
  }

  /** `word.endswith(c1 + c2)` for a two-letter suffix. */
  predicate EndsWith2(word: string, c1: char, c2: char) {
    |word| >= 2 && word[|word| - 2] == c1 && word[|word| - 1] == c2
  }

  lemma {:induction false} EndsWithLetters(word: string, c1: char, c2: char)
    ensures EndsWith1(word, c2) <==> EndsWith(word, [c2])
    ensures EndsWith2(word, c1, c2) <==> EndsWith(word, [c1, c2])
  {
    if |word| >= 2 {
      assert word[|word| - 2..] == [word[|word| - 2], word[|word| - 1]];
    }
  }

  /** The word ends in one of the adjective endings that the base drops. */
  predicate HasAdjectiveEnding(word: string) {
    EndsWith2(word, 'о', 'й') || EndsWith2(word, 'а', 'я') || EndsWith2(word, 'о', 'е')
    || EndsWith2(word, 'ы', 'е') || EndsWith2(word, 'и', 'й') || EndsWith2(word, 'ы', 'й')
  }

  /** The word ends in one of the one-letter endings that the base drops. */
  predicate HasLetterEnding(word: string) {
    EndsWith1(word, 'ь') || EndsWith1(word, 'и') || EndsWith1(word, 'ы')
    || EndsWith1(word, 'а') || EndsWith1(word, 'я') || EndsWith1(word, 'о')
    || EndsWith1(word, 'е') || EndsWith1(word, 'у') || EndsWith1(word, 'ю')
  }

  /** The base form of a word longer than four characters: a two-letter
      adjective ending taken off, else a one-letter ending taken off, else
      the word itself. */
  function Base(word: string): (b: string)
    requires |word| > 4
    ensures |word| - 2 <= |b| <= |word| && b == word[..|b|]
    ensures HasAdjectiveEnding(word) <==> |b| == |word| - 2
    ensures |b| == |word| <==> !HasAdjectiveEnding(word) && !HasLetterEnding(word)
  {
    if HasAdjectiveEnding(word) then word[..|word| - 2]
    else if HasLetterEnding(word) then word[..|word| - 1]
    else word
  }

  /** The suffix rewrites of `get_word_variations` that apply to `word`. */
  function Rewrites(word: string): set<string>
  {
    (if EndsWith1(word, 'ь') then {word[..|word| - 1]} else {})
    + (if EndsWith1(word, 'и') then {word[..|word| - 1] + "а", word[..|word| - 1] + "ь"} else {})
    + (if EndsWith2(word, 'о', 'й') then {word[..|word| - 2] + "ая"} else {})
    + (if EndsWith2(word, 'а', 'я') then {word[..|word| - 2] + "ой"} else {})
    + (if EndsWith2(word, 'ы', 'й') then {word[..|word| - 2] + "ая"} else {})
    + (if EndsWith2(word, 'о', 'м') then {word[..|word| - 2]} else {})
    + (if EndsWith2(word, 'а', 'м') then {word[..|word| - 2]} else {})
  }

  /** The variants of `word`: the word, every applicable rewrite, and the
      base when it is longer than three characters. A word of at most three
      characters is its only variant. */
  function Variations(word: string): (v: set<string>)
    ensures word in v
    ensures |word| <= 3 ==> v == {word}
  {
    if |word| <= 3 then {word}
    else {word} + Rewrites(word) + (if |word| > 4 && |Base(word)| > 3 then {Base(word)} else {})
  }

  /** Every variant keeps all but at most the last two characters of the word. */
  lemma {:induction false} VariationsLengths(word: string)
    ensures forall x :: x in Variations(word) ==>
              |word| - 2 <= |x| <= |word| && (|word| > 3 ==> x[..|word| - 2] == word[..|word| - 2])
  {
  }

  /** `SmartSearch.get_word_variations`, step by step as the source fills its
      `variations` set. Python returns `list(variations)`, whose order is
      arbitrary; the model returns the set. */
  method GetWordVariations(word: string) returns (variations: set<string>)
    ensures variations == Variations(word)
  {
    if |word| <= 3 {
      return {word};
    }
    variations := {word};
    var n := |word|;
    if EndsWith1(word, 'ь') {
      variations := variations + {word[..n - 1]};
    }
    if EndsWith1(word, 'и') {
      variations := variations + {word[..n - 1] + "а"};
      variations := variations + {word[..n - 1] + "ь"};
    }
    if EndsWith2(word, 'о', 'й') {
      variations := variations + {word[..n - 2] + "ая"};
    }
    if EndsWith2(word, 'а', 'я') {
      variations := variations + {word[..n - 2] + "ой"};
    }
    if EndsWith2(word, 'ы', 'й') {
      variations := variations + {word[..n - 2] + "ая"};
    }
    if EndsWith2(word, 'о', 'м') {
      variations := variations + {word[..n - 2]};
    }
    if EndsWith2(word, 'а', 'м') {
      variations := variations + {word[..n - 2]};
    }
    assert variations == {word} + Rewrites(word);
    var base := word;
    if n > 4 {
      if EndsWith2(word, 'о', 'й') || EndsWith2(word, 'а', 'я') || EndsWith2(word, 'о', 'е')
         || EndsWith2(word, 'ы', 'е') || EndsWith2(word, 'и', 'й') || EndsWith2(word, 'ы', 'й') {
        base := word[..n - 2];
      } else if EndsWith1(word, 'ь') || EndsWith1(word, 'и') || EndsWith1(word, 'ы')
                || EndsWith1(word, 'а') || EndsWith1(word, 'я') || EndsWith1(word, 'о')
                || EndsWith1(word, 'е') || EndsWith1(word, 'у') || EndsWith1(word, 'ю') {
        base := word[..n - 1];
      }
      assert base == Base(word);
      if base != [] && |base| > 3 {
        variations := variations + {base};
      }
    }
  }

  // ---------------------------------------------------------------------
  // Word similarity

  /** Some variant of `word1` equals some variant of `word2`. */
  predicate SharesVariant(word1: string, word2: string) {
    Variations(word1) * Variations(word2) != {}
  }

  /** Some variant of one word occurs inside some variant of the other, both
      variants having at least three characters. */
  predicate VariantContained(word1: string, word2: string) {
    exists v1, v2 :: v1 in Variations(word1) && v2 in Variations(word2)
      && (Contains(v2, v1) || Contains(v1, v2)) && |v1| >= 3 && |v2| >= 3
  }

  /** `SmartSearch.calculate_similarity`: 0 for an empty word, 1.0 for equal
      words, 0.95 for a shared variant, 0.8 for contained variants, else the
      sequence ratio when it exceeds 0.7 and 0 otherwise. It never lies in
      (0, 0.7]. */
  function WordSimilarity(ratio: Ratio, word1: string, word2: string): (r: real)
    ensures word1 == [] || word2 == [] ==> r == 0.0
    ensures word1 != [] && word1 == word2 ==> r == 1.0
    ensures word1 != [] && word2 != [] && word1 != word2 && SharesVariant(word1, word2) ==> r == 0.95
    ensures r == 0.0 || r > 0.7
    ensures ratio(word1, word2) <= 1.0 ==> r <= 1.0
  {
    if word1 == [] || word2 == [] then 0.0
    else if word1 == word2 then 1.0
    else if SharesVariant(word1, word2) then 0.95
    else if VariantContained(word1, word2) then 0.8
    else if ratio(word1, word2) > 0.7 then ratio(word1, word2)
    else 0.0
  }

  /** The two lower tiers, for distinct non-empty words without a shared
      variant: 0.8 when a variant of one occurs inside a variant of the
      other (both at least three long); otherwise the sequence ratio when it
      exceeds 0.7, and 0 when it does not. */
  lemma {:induction false} SimilarityLowerTiers(ratio: Ratio, word1: string, word2: string)
    requires word1 != [] && word2 != [] && word1 != word2 && !SharesVariant(word1, word2)
    ensures VariantContained(word1, word2) ==> WordSimilarity(ratio, word1, word2) == 0.8
    ensures !VariantContained(word1, word2) && ratio(word1, word2) > 0.7 ==>
              WordSimilarity(ratio, word1, word2) == ratio(word1, word2)
    ensures !VariantContained(word1, word2) && ratio(word1, word2) <= 0.7 ==>
              WordSimilarity(ratio, word1, word2) == 0.0
  {
  }

  /** With a ratio in [0, 1], the similarity is in [0, 1] too. */
  lemma {:induction false} SimilarityRange(ratio: Ratio, word1: string, word2: string)
    requires RatioBounded(ratio)
    ensures 0.0 <= WordSimilarity(ratio, word1, word2) <= 1.0
  {
    assert 0.0 <= ratio(word1, word2) <= 1.0;
  }

  /** "двери" and "дверь" share the variant "дверь" (the и→ь rewrite). */
  lemma {:induction false} DoorPluralMatchesSingular(ratio: Ratio)
    ensures WordSimilarity(ratio, "двери", "дверь") == 0.95
  {
    var w1, w2 := "двери", "дверь";
    assert EndsWith1(w1, 'и');
    assert w1[..|w1| - 1] + "ь" == w2;
    assert w2 in Variations(w1) && w2 in Variations(w2);
  }

  // ---------------------------------------------------------------------
  // Aggregation
  //
  // The aggregation is stated for any word similarity `sim`; `smart_search`
  // uses `SimilarityWith(ratio)`.

  type SimilarityFn = (string, string) -> real

  /** `calculate_similarity` for a given sequence ratio, as a function value. */
  function SimilarityWith(ratio: Ratio): SimilarityFn {
    (word1: string, word2: string) => WordSimilarity(ratio, word1, word2)
  }

  /** A similarity that, like `calculate_similarity`, is 0 or above 0.7. */
  ghost predicate Tiered(sim: SimilarityFn) {
    forall a, b :: sim(a, b) == 0.0 || sim(a, b) > 0.7
  }

  lemma {:induction false} SimilarityWithTiered(ratio: Ratio)
    ensures Tiered(SimilarityWith(ratio))
  {
    forall a, b ensures SimilarityWith(ratio)(a, b) == 0.0 || SimilarityWith(ratio)(a, b) > 0.7 {
      assert SimilarityWith(ratio)(a, b) == WordSimilarity(ratio, a, b);
    }
  }

  /** The weight one file word earns for a query word of the given similarity. */
  function Weight(similarity: real): real
  {
    if similarity > 0.9 then 1.0
    else if similarity > 0.8 then 0.8
    else if similarity > 0.7 then 0.6
    else if similarity > 0.6 then 0.4
    else 0.0
  }

  /** The best weight a query word earns against the file words: the largest
      weight over all of them, one of 0, 0.4, 0.6, 0.8 and 1.0. */
  function BestWeight(sim: SimilarityFn, query: string, fileWords: seq<string>): (w: real)
    ensures w == 0.0 || w == 0.4 || w == 0.6 || w == 0.8 || w == 1.0
    decreases |fileWords|
  {
    if fileWords == [] then 0.0
    else
      var n := |fileWords| - 1;
      Max(BestWeight(sim, query, fileWords[..n]), Weight(sim(query, fileWords[n])))
  }

  /** `BestWeight` is the maximum: no file word earns more, and a positive
      best weight is earned by some file word. */
  lemma {:induction false} BestWeightIsMax(sim: SimilarityFn, query: string, fileWords: seq<string>)
    ensures forall k :: 0 <= k < |fileWords| ==>
              Weight(sim(query, fileWords[k])) <= BestWeight(sim, query, fileWords)
    ensures BestWeight(sim, query, fileWords) > 0.0 ==>
              exists k :: 0 <= k < |fileWords| &&
                Weight(sim(query, fileWords[k])) == BestWeight(sim, query, fileWords)
    decreases |fileWords|
  {
    if fileWords != [] {
      var n := |fileWords| - 1;
      var prefix := fileWords[..n];
      BestWeightIsMax(sim, query, prefix);
      assert forall k :: 0 <= k < n ==> prefix[k] == fileWords[k];
      var last := Weight(sim(query, fileWords[n]));
      if BestWeight(sim, query, fileWords) > 0.0 {
        if BestWeight(sim, query, prefix) >= last {
          var k :| 0 <= k < n && Weight(sim(query, prefix[k])) == BestWeight(sim, query, prefix);
          assert fileWords[k] == prefix[k];
        } else {
          assert Weight(sim(query, fileWords[n])) == BestWeight(sim, query, fileWords);
        }
      }
    }
  }

  /** With a tiered similarity (such as `calculate_similarity`) the weight
      0.4 is never earned: a matched query word weighs 0.6, 0.8 or 1.0. */
  lemma {:induction false} BestWeightTiered(sim: SimilarityFn, query: string, fileWords: seq<string>)
    requires Tiered(sim)
    ensures var w := BestWeight(sim, query, fileWords);
            w == 0.0 || w == 0.6 || w == 0.8 || w == 1.0
    decreases |fileWords|
  {
    if fileWords != [] {
      var n := |fileWords| - 1;
      BestWeightTiered(sim, query, fileWords[..n]);
      assert sim(query, fileWords[n]) == 0.0 || sim(query, fileWords[n]) > 0.7;
    }
  }

  /** One more file word raises the best weight to its own weight, if higher. */
  lemma {:induction false} BestWeightStep(sim: SimilarityFn, query: string, fileWords: seq<string>, j: nat)
    requires j < |fileWords|
    ensures BestWeight(sim, query, fileWords[..j + 1])
            == Max(BestWeight(sim, query, fileWords[..j]), Weight(sim(query, fileWords[j])))
  {
    assert fileWords[..j + 1][..j] == fileWords[..j];
  }

  /** Once some file word earns the top weight 1.0, the best weight is 1.0,
      whatever the later file words are: the source's `break` is safe. */
  lemma {:induction false} BestWeightTop(sim: SimilarityFn, query: string, fileWords: seq<string>, j: nat)
    requires j <= |fileWords| && BestWeight(sim, query, fileWords[..j]) == 1.0
    ensures BestWeight(sim, query, fileWords) == 1.0
    decreases |fileWords| - j
  {
    if j < |fileWords| {
      assert fileWords[..j + 1][..j] == fileWords[..j];
      BestWeightTop(sim, query, fileWords, j + 1);
    } else {
      assert fileWords[..j] == fileWords;
    }
  }

  /** The sum of the best weights of the query words. */
  function TotalWeight(sim: SimilarityFn, queryWords: seq<string>, fileWords: seq<string>): real
    decreases |queryWords|
  {
    if queryWords == [] then 0.0
    else
      var n := |queryWords| - 1;
      TotalWeight(sim, queryWords[..n], fileWords) + BestWeight(sim, queryWords[n], fileWords)
  }

  /** The number of query words with a positive best weight. */
  function MatchedCount(sim: SimilarityFn, queryWords: seq<string>, fileWords: seq<string>): (m: nat)
    ensures m <= |queryWords|
    decreases |queryWords|
  {
    if queryWords == [] then 0
    else
      var n := |queryWords| - 1;
      MatchedCount(sim, queryWords[..n], fileWords)
        + (if BestWeight(sim, queryWords[n], fileWords) > 0.0 then 1 else 0)
  }

  /** One more query word adds its best weight to the total, and one to the
      count when that is positive. */
  lemma {:induction false} TotalStep(sim: SimilarityFn, queryWords: seq<string>, fileWords: seq<string>, i: nat)
    requires i < |queryWords|
    ensures TotalWeight(sim, queryWords[..i + 1], fileWords)
            == TotalWeight(sim, queryWords[..i], fileWords) + BestWeight(sim, queryWords[i], fileWords)
    ensures MatchedCount(sim, queryWords[..i + 1], fileWords)
            == MatchedCount(sim, queryWords[..i], fileWords)
               + (if BestWeight(sim, queryWords[i], fileWords) > 0.0 then 1 else 0)
  {
    assert queryWords[..i + 1][..i] == queryWords[..i];
  }

  /** Unmatched words weigh nothing and a matched word weighs at most 1.0,
      and at least 0.6 when the similarity is tiered. */
  lemma {:induction false} TotalWeightBounds(sim: SimilarityFn, queryWords: seq<string>, fileWords: seq<string>)
    ensures 0.4 * MatchedCount(sim, queryWords, fileWords) as real
              <= TotalWeight(sim, queryWords, fileWords)
              <= MatchedCount(sim, queryWords, fileWords) as real
    ensures Tiered(sim) ==>
              0.6 * MatchedCount(sim, queryWords, fileWords) as real <= TotalWeight(sim, queryWords, fileWords)
    decreases |queryWords|
  {
    if queryWords != [] {
      var n := |queryWords| - 1;
      TotalWeightBounds(sim, queryWords[..n], fileWords);
      if Tiered(sim) {
        BestWeightTiered(sim, queryWords[n], fileWords);
      }
    }
  }

  /** The average weight of the query words lies in [0, 1]. */
  lemma {:induction false} AverageBounds(total: real, n: nat)
    requires n > 0 && 0.0 <= total <= n as real
    ensures 0.0 <= total / (n as real) <= 1.0
  {
  }

  /** The token path of `smart_search`, on the filtered word lists: 0 when
      no query word is left or none matches, else the average best weight
      scaled to 80, plus 20 when every query word matched, capped at 100. */
  function TokenScore(sim: SimilarityFn, queryWords: seq<string>, fileWords: seq<string>): (r: real)
    ensures 0.0 <= r <= 100.0
  {
    if queryWords == [] then 0.0
    else
      var matched := MatchedCount(sim, queryWords, fileWords);
      if matched == 0 then 0.0
      else
        TotalWeightBounds(sim, queryWords, fileWords);
        AverageBounds(TotalWeight(sim, queryWords, fileWords), |queryWords|);
        var base := TotalWeight(sim, queryWords, fileWords) / (|queryWords| as real) * 80.0;
        Min(100.0, if matched == |queryWords| then base + 20.0 else base)
  }

  /** When some query word matched, the score is exactly
      (total weight / number of query words) * 80, plus 20 when every query
      word matched: the cap at 100 never bites. */
  lemma {:induction false} TokenScoreFormula(sim: SimilarityFn, queryWords: seq<string>, fileWords: seq<string>)
    requires MatchedCount(sim, queryWords, fileWords) > 0
    ensures var base := TotalWeight(sim, queryWords, fileWords) / (|queryWords| as real) * 80.0;
            TokenScore(sim, queryWords, fileWords) ==
              if MatchedCount(sim, queryWords, fileWords) == |queryWords| then base + 20.0 else base
  {
    TotalWeightBounds(sim, queryWords, fileWords);
    AverageBounds(TotalWeight(sim, queryWords, fileWords), |queryWords|);
  }

  /** The score is 0 exactly when no query word matched (which includes the
      case of no query words at all). */
  lemma {:induction false} TokenScoreZero(sim: SimilarityFn, queryWords: seq<string>, fileWords: seq<string>)
    ensures TokenScore(sim, queryWords, fileWords) == 0.0 <==> MatchedCount(sim, queryWords, fileWords) == 0
  {
    var m := MatchedCount(sim, queryWords, fileWords);
    if m > 0 {
      var total := TotalWeight(sim, queryWords, fileWords);
      TotalWeightBounds(sim, queryWords, fileWords);
      TokenScoreFormula(sim, queryWords, fileWords);
      PositiveAverage(total, |queryWords|);
    }
  }

  lemma {:induction false} PositiveAverage(total: real, n: nat)
    requires n > 0 && total > 0.0
    ensures total / (n as real) * 80.0 > 0.0
  {
  }

  /** With a tiered similarity: when every query word matched the score is
      at least 68 (each weight is at least 0.6); when some query word did
      not match it is below 80. */
  lemma {:induction false} TokenScoreAllWordsBonus(sim: SimilarityFn, queryWords: seq<string>, fileWords: seq<string>)
    requires Tiered(sim)
    requires MatchedCount(sim, queryWords, fileWords) > 0
    ensures MatchedCount(sim, queryWords, fileWords) == |queryWords| ==>
              TokenScore(sim, queryWords, fileWords) >= 68.0
    ensures MatchedCount(sim, queryWords, fileWords) < |queryWords| ==>
              TokenScore(sim, queryWords, fileWords) < 80.0
  {
    var n := |queryWords|;
    var m := MatchedCount(sim, queryWords, fileWords);
    var total := TotalWeight(sim, queryWords, fileWords);
    TotalWeightBounds(sim, queryWords, fileWords);
    TokenScoreFormula(sim, queryWords, fileWords);
    if m == n {
      AverageAtLeast(total, n);
    } else {
      AverageBelow(total, m, n);
    }
  }

  lemma {:induction false} AverageAtLeast(total: real, n: nat)
    requires n > 0 && 0.6 * (n as real) <= total
    ensures total / (n as real) * 80.0 + 20.0 >= 68.0
  {
  }

  lemma {:induction false} AverageBelow(total: real, m: nat, n: nat)
    requires m < n && total <= m as real
    ensures total / (n as real) * 80.0 < 80.0
  {
  }

  /** The query words that the token path compares. */
  function QueryWords(queryNorm: string): seq<string> {
    FilterStopWords(Words(queryNorm), StopWordList)
  }

  /** The file words that the token path compares. */
  function FileWords(nameNorm: string): seq<string> {
    LongWords(Words(nameNorm))
  }

  /** `SmartSearch.smart_search` as a function of its inputs: 0 for an empty
      input, 100 when the normalised query occurs in the normalised name,
      else the token score. */
  function Relevance(ratio: Ratio, query: string, fileName: string): (r: real)
    ensures 0.0 <= r <= 100.0
  {
    if query == [] || fileName == [] then 0.0
    else
      var queryNorm := Normalize(query);
      var nameNorm := Normalize(fileName);
      if Contains(nameNorm, queryNorm) then 100.0
      else TokenScore(SimilarityWith(ratio), QueryWords(queryNorm), FileWords(nameNorm))
  }

  /** The phrase fast path: when the normalised query occurs in the
      normalised name, the relevance is 100. */
  lemma {:induction false} PhraseScoresFull(ratio: Ratio, query: string, fileName: string)
    requires query != [] && fileName != []
    requires Contains(Normalize(fileName), Normalize(query))
    ensures Relevance(ratio, query, fileName) == 100.0
  {
  }

  /** A non-empty query made only of whitespace normalises to "", which
      occurs in every name, so it scores 100 against every non-empty name. */
  lemma {:induction false} BlankQueryScoresFull(ratio: Ratio, query: string, fileName: string)
    requires query != [] && fileName != []
    requires forall i :: 0 <= i < |query| ==> IsSpace(query[i])
    ensures Relevance(ratio, query, fileName) == 100.0
  {
    NormalizeBlank(query);
    ContainsEmpty(Normalize(fileName));
  }

  /** The relevance is 0 exactly when an input is empty, or the phrase does
      not occur and no query word matches (in particular when every query
      word is a stop word or shorter than three characters). */
  lemma {:induction false} RelevanceZero(ratio: Ratio, query: string, fileName: string)
    ensures Relevance(ratio, query, fileName) == 0.0 <==>
      query == [] || fileName == [] ||
      (!Contains(Normalize(fileName), Normalize(query)) &&
       MatchedCount(SimilarityWith(ratio), QueryWords(Normalize(query)), FileWords(Normalize(fileName))) == 0)
  {
    if query != [] && fileName != [] {
      TokenScoreZero(SimilarityWith(ratio), QueryWords(Normalize(query)), FileWords(Normalize(fileName)));
    }
  }

  /** The inner loop of `SmartSearch.smart_search`: scan the file words
      keeping the best weight for one query word, stopping at the first
      similarity above 0.9. `sim` is `calculate_similarity`, which the
      caller passes as `SimilarityWith(ratio)`. */
  method ScoreQueryWord(sim: SimilarityFn, qWord: string, fileWords: seq<string>)
    returns (wordFound: bool, wordScore: real)
    ensures wordScore == BestWeight(sim, qWord, fileWords)
    ensures wordFound <==> wordScore > 0.0
  {
    wordFound := false;
    wordScore := 0.0;
    var j := 0;
    while j < |fileWords|
      invariant 0 <= j <= |fileWords|
      invariant wordScore == BestWeight(sim, qWord, fileWords[..j])
      invariant wordFound <==> wordScore > 0.0
    {
      var similarity := sim(qWord, fileWords[j]);
      BestWeightStep(sim, qWord, fileWords, j);
      if similarity > 0.9 {
        wordScore := Max(wordScore, 1.0);
        wordFound := true;
        BestWeightTop(sim, qWord, fileWords, j + 1);
        return;
      } else if similarity > 0.8 {
        wordScore := Max(wordScore, 0.8);
        wordFound := true;
      } else if similarity > 0.7 {
        wordScore := Max(wordScore, 0.6);
        wordFound := true;
      } else if similarity > 0.6 {
        wordScore := Max(wordScore, 0.4);
        wordFound := true;
      }
      j := j + 1;
    }
    assert fileWords[..j] == fileWords;
  }

  /** The loop of `SmartSearch.smart_search` over the query words, then the
      aggregation: the token score of the filtered word lists, with `sim`
      standing for `calculate_similarity`. */
  method ScoreWords(sim: SimilarityFn, queryWords: seq<string>, fileWords: seq<string>) returns (score: real)
    ensures score == TokenScore(sim, queryWords, fileWords)
  {
    if queryWords == [] {
      return 0.0;
    }
    var totalScore := 0.0;
    var matchedWords := 0;
    var i := 0;
    while i < |queryWords|
      invariant 0 <= i <= |queryWords|
      invariant totalScore == TotalWeight(sim, queryWords[..i], fileWords)
      invariant matchedWords == MatchedCount(sim, queryWords[..i], fileWords)
    {
      var wordFound, wordScore := ScoreQueryWord(sim, queryWords[i], fileWords);
      TotalStep(sim, queryWords, fileWords, i);
      if wordFound {
        totalScore := totalScore + wordScore;
        matchedWords := matchedWords + 1;
      }
      i := i + 1;
    }
    assert queryWords[..i] == queryWords;
    if matchedWords == 0 {
      return 0.0;
    }
    TokenScoreFormula(sim, queryWords, fileWords);
    var baseScore := (totalScore / |queryWords| as real) * 80.0;
    if matchedWords == |queryWords| {
      baseScore := baseScore + 20.0;
    }
    score := Min(100.0, baseScore);
  }

  /** `SmartSearch.smart_search`: the empty-input and phrase fast paths,
      then the token path. */
  method SmartSearchScore(ratio: Ratio, query: string, fileName: string) returns (score: real)
    ensures score == Relevance(ratio, query, fileName)
  {
    if query == [] || fileName == [] {
      return 0.0;
    }
    var queryNorm := Normalize(query);
    var nameNorm := Normalize(fileName);
    if Contains(nameNorm, queryNorm) {
      return 100.0;
    }
    var queryWords := FilterStopWords(Words(queryNorm), StopWordList);
    var fileWords := LongWords(Words(nameNorm));
    score := ScoreWords(SimilarityWith(ratio), queryWords, fileWords);
  }
}
