/** The Python string built-ins the search core relies on: character classes
    (the `\w` and `\s` of Python's `re` module and `str.isspace`), `str.lower`,
    `startswith`/`endswith`, the `in` substring test, `strip`, `lstrip`,
    `split`, `split(sep)` and `sep.join`.

    Python classifies and lower-cases characters with the Unicode database.
    The model fixes one concrete table for Latin and Cyrillic (the scripts
    the indexed file names use); the lemmas elsewhere rely only on the
    structural facts proved here, not on the table's contents. */
module Strings {

  datatype Option<+T> = None | Some(value: T) {
    function GetOr(default: T): T {
      match this
      case Some(v) => v
      case None => default
    }
  }

  /** Python `str.isspace` / regex `\s`: the space, the controls from tab to
      carriage return and from U+001C to U+001F, and the Unicode spaces. */
  predicate IsSpace(c: char) {
    c == ' ' || ('\t' <= c <= '\r') || ('\U{001C}' <= c <= '\U{001F}')
    || c == '\U{0085}' || c == '\U{00A0}' || c == '\U{1680}' || ('\U{2000}' <= c <= '\U{200A}')
    || c == '\U{2028}' || c == '\U{2029}' || c == '\U{202F}' || c == '\U{205F}' || c == '\U{3000}'
  }

  /** Python regex `\w`: letters, digits and the underscore. */
  predicate IsWordChar(c: char) {
    ('a' <= c <= 'z') || ('A' <= c <= 'Z') || ('0' <= c <= '9') || c == '_'
    || ('\U{0400}' <= c <= '\U{045F}')
  }

  /** `str.lower` on one character. */
  function Lower(c: char): (r: char)
    ensures !IsWordChar(c) ==> r == c
    ensures IsWordChar(r) <==> IsWordChar(c)
  {
    if 'A' <= c <= 'Z' then (c as int + 32) as char
    else if '\U{0410}' <= c <= '\U{042F}' then (c as int + 32) as char
    else if '\U{0400}' <= c <= '\U{040F}' then (c as int + 80) as char
    else c
  }

  /** Lower-casing a lower-cased character changes nothing. */
  lemma {:induction false} LowerIdempotent(c: char)
    ensures Lower(Lower(c)) == Lower(c)
  {
  }

  function LowerStr(s: string): (r: string)
    ensures |r| == |s|
    ensures forall i :: 0 <= i < |s| ==> r[i] == Lower(s[i])
  {
    seq(|s|, i requires 0 <= i < |s| => Lower(s[i]))
  }

  /** What `str.lower` does to a text: every character keeps its place and
      its word/non-word class, the characters that are not word characters
      (whitespace, punctuation, `.`, `/`) are unchanged, and lower-casing
      again changes nothing. */
  lemma {:induction false} LowerStrMeaning(s: string)
    ensures var r := LowerStr(s);
            |r| == |s|
            && (forall i :: 0 <= i < |s| ==> (IsWordChar(r[i]) <==> IsWordChar(s[i])))
            && (forall i :: 0 <= i < |s| && !IsWordChar(s[i]) ==> r[i] == s[i])
            && LowerStr(r) == r
  {
    var r := LowerStr(s);
    forall i | 0 <= i < |s| ensures Lower(r[i]) == r[i] {
      LowerIdempotent(s[i]);
    }
  }

  /** A character that is not a word character survives lower-casing. */
  lemma {:induction false} LowerKeeps(s: string, c: char)
    requires c in s && !IsWordChar(c)
    ensures c in LowerStr(s)
  {
    var k :| 0 <= k < |s| && s[k] == c;
    assert LowerStr(s)[k] == c;
  }

  predicate StartsWith(s: string, prefix: string) {
    |prefix| <= |s| && s[..|prefix|] == prefix
  }

  predicate EndsWith(s: string, suffix: string) {
    |suffix| <= |s| && s[|s| - |suffix|..] == suffix
  }

  /** Dropping a prefix leaves a suffix. */
  lemma {:induction false} DropEndsWith(s: string, k: nat)
    requires k <= |s|
    ensures EndsWith(s, s[k..])
  {
  }

  /** A suffix of a suffix is a suffix. */
  lemma {:induction false} EndsWithTransitive(a: string, b: string, c: string)
    requires EndsWith(a, b) && EndsWith(b, c)
    ensures EndsWith(a, c)
  {
    assert a[|a| - |c|..] == b[|b| - |c|..];
  }

  /** Python `needle in s` for strings: `needle` occurs as a contiguous
      piece of `s` (the empty string occurs in every string). */
  predicate Contains(s: string, needle: string)
    decreases |s|
  {
    StartsWith(s, needle) || (s != [] && Contains(s[1..], needle))
  }

  /** A needle occurring at some offset is contained. */
  lemma {:induction false} ContainsAt(s: string, needle: string, i: nat)
    requires OccursAt(s, needle, i)
    ensures Contains(s, needle)
    decreases i
  {
    if i > 0 {
      assert s[1..][i - 1..i - 1 + |needle|] == needle;
      assert OccursAt(s[1..], needle, i - 1);
      ContainsAt(s[1..], needle, i - 1);
    }
  }

  /** Every string contains the empty string. */
  lemma {:induction false} ContainsEmpty(s: string)
    ensures Contains(s, [])
  {
    assert StartsWith(s, []);
  }

  /** `needle` occurs in `s` at offset `i`. */
  predicate OccursAt(s: string, needle: string, i: nat) {
    i + |needle| <= |s| && s[i..i + |needle|] == needle
  }

  /** Conversely, a contained needle occurs at some offset. */
  lemma {:induction false} ContainsOffset(s: string, needle: string)
    requires Contains(s, needle)
    ensures exists i: nat :: OccursAt(s, needle, i)
    decreases |s|
  {
    if StartsWith(s, needle) {
      assert OccursAt(s, needle, 0);
    } else {
      ContainsOffset(s[1..], needle);
      var i: nat :| OccursAt(s[1..], needle, i);
      assert s[1..][i..i + |needle|] == s[i + 1..i + 1 + |needle|];
      assert OccursAt(s, needle, i + 1);
    }
  }

  /** The number of whitespace characters the text starts with. */
  function LeadingSpaces(s: string): (n: nat)
    ensures n <= |s| && (n == |s| || !IsSpace(s[n]))
    ensures forall k :: 0 <= k < n ==> IsSpace(s[k])
    decreases |s|
  {
    if s != [] && IsSpace(s[0]) then LeadingSpaces(s[1..]) + 1 else 0
  }

  /** Where the whitespace the text ends with starts. */
  function TrailingStart(s: string): (n: nat)
    ensures n <= |s| && (n == 0 || !IsSpace(s[n - 1]))
    ensures forall k :: n <= k < |s| ==> IsSpace(s[k])
    decreases |s|
  {
    if s != [] && IsSpace(s[|s| - 1]) then TrailingStart(s[..|s| - 1]) else |s|
  }

  /** Drops the leading whitespace (Python `lstrip()`). */
  function TrimStart(s: string): (r: string)
    ensures |r| <= |s| && r == s[|s| - |r|..]
    ensures r == [] || !IsSpace(r[0])
    ensures forall k :: 0 <= k < |s| - |r| ==> IsSpace(s[k])
  {
    s[LeadingSpaces(s)..]
  }

  /** Drops the trailing whitespace (Python `rstrip()`). */
  function TrimEnd(s: string): (r: string)
    ensures |r| <= |s| && r == s[..|r|]
    ensures r == [] || !IsSpace(r[|r| - 1])
    ensures forall k :: |r| <= k < |s| ==> IsSpace(s[k])
  {
    s[..TrailingStart(s)]
  }

  /** Python `str.strip()`. */
  function Strip(s: string): (r: string)
    ensures r == [] || (!IsSpace(r[0]) && !IsSpace(r[|r| - 1]))
    ensures (forall k :: 0 <= k < |s| ==> IsSpace(s[k])) ==> r == []
  {
    TrimEnd(TrimStart(s))
  }

  /** `strip()` keeps exactly the middle of the text: what is left after
      the leading and the trailing whitespace, and nothing but whitespace
      is removed at either end. */
  lemma {:induction false} StripInfix(s: string)
    ensures var r := Strip(s);
            var k := |s| - |TrimStart(s)|;
            k + |r| <= |s| && r == s[k..k + |r|]
            && (forall j :: 0 <= j < k ==> IsSpace(s[j]))
            && (forall j :: k + |r| <= j < |s| ==> IsSpace(s[j]))
  {
    StripMiddle(s);
    StripTrailing(s);
  }

  /** `strip()` cuts the text into whitespace, what it keeps, whitespace. */
  lemma {:induction false} StripEnds(s: string) returns (k: nat, e: nat)
    ensures k <= e <= |s| && Strip(s) == s[k..e] && AllSpace(s[..k]) && AllSpace(s[e..])
  {
    StripInfix(s);
    k := |s| - |TrimStart(s)|;
    e := k + |Strip(s)|;
    assert AllSpace(s[..k]) by {
      forall j | 0 <= j < k ensures IsSpace(s[..k][j]) {
        assert s[..k][j] == s[j];
      }
    }
    assert AllSpace(s[e..]) by {
      forall j | 0 <= j < |s| - e ensures IsSpace(s[e..][j]) {
        assert s[e..][j] == s[e + j];
      }
    }
  }

  /** What `strip()` keeps is a slice of the text. */
  lemma {:induction false} StripMiddle(s: string)
    ensures var k := |s| - |TrimStart(s)|;
            k + |Strip(s)| <= |s| && Strip(s) == s[k..k + |Strip(s)|]
  {
    var t := TrimStart(s);
    SliceOfSuffix(s, t, TrimEnd(t), |s| - |t|);
  }

  /** A prefix of a suffix is a slice. */
  lemma {:induction false} SliceOfSuffix<T>(s: seq<T>, t: seq<T>, r: seq<T>, k: nat)
    requires k <= |s| && t == s[k..] && |r| <= |t| && r == t[..|r|]
    ensures k + |r| <= |s| && r == s[k..k + |r|]
  {
  }

  /** What `strip()` drops after what it keeps is whitespace. */
  lemma {:induction false} StripTrailing(s: string)
    ensures var k := |s| - |TrimStart(s)|;
            forall j :: k + |Strip(s)| <= j < |s| ==> IsSpace(s[j])
  {
    var t := TrimStart(s);
    var k := |s| - |t|;
    var r := TrimEnd(t);
    forall j | k + |r| <= j < |s| ensures IsSpace(s[j]) {
      assert s[j] == t[j - k];
    }
  }

  /** Python `s.lstrip(c)` for a single character `c`. */
  function LStripChar(s: string, c: char): (r: string)
    ensures |r| <= |s| && r == s[|s| - |r|..]
    ensures r == [] || r[0] != c
    ensures forall k :: 0 <= k < |s| - |r| ==> s[k] == c
    decreases |s|
  {
    if s != [] && s[0] == c then LStripChar(s[1..], c) else s
  }

  /** Python `s.split(c)` for a one-character separator: always at least one
      piece (possibly empty); each separator ends one piece and starts the next. */
  function Split(s: string, c: char): (r: seq<string>)
    ensures |r| >= 1
    decreases |s|
  {
    if s == [] then [[]]
    else
      var rest := Split(s[1..], c);
      if s[0] == c then [[]] + rest else [[s[0]] + rest[0]] + rest[1..]
  }

  /** No piece of the split contains the separator. */
  lemma {:induction false} SplitPieces(s: string, c: char)
    ensures forall k :: 0 <= k < |Split(s, c)| ==> c !in Split(s, c)[k]
    decreases |s|
  {
    if s != [] {
      SplitPieces(s[1..], c);
      var rest := Split(s[1..], c);
      if s[0] != c {
        assert c !in [s[0]] + rest[0];
        forall k | 1 <= k < |rest| ensures c !in Split(s, c)[k] {
          assert Split(s, c)[k] == rest[k];
        }
      }
    }
  }

  /** The split has more than one piece exactly when the separator occurs. */
  lemma {:induction false} SplitSingle(s: string, c: char)
    ensures |Split(s, c)| == 1 <==> c !in s
    decreases |s|
  {
    if s != [] {
      SplitSingle(s[1..], c);
      assert s == [s[0]] + s[1..];
    }
  }

  /** Python `sep.join(parts)`. */
  function Join(parts: seq<string>, sep: string): string
    decreases |parts|
  {
    if parts == [] then []
    else if |parts| == 1 then parts[0]
    else parts[0] + sep + Join(parts[1..], sep)
  }

  /** Prepending to the first part prepends to the join. */
  lemma {:induction false} JoinPrependFirst(x: string, p: string, ps: seq<string>, sep: string)
    ensures Join([x + p] + ps, sep) == x + Join([p] + ps, sep)
  {
    if ps != [] {
      assert ([x + p] + ps)[1..] == ps;
      assert ([p] + ps)[1..] == ps;
    }
  }

  /** Splitting on a character and joining on it again gives back the string. */
  lemma {:induction false} JoinSplit(s: string, c: char)
    ensures Join(Split(s, c), [c]) == s
    decreases |s|
  {
    if s != [] {
      JoinSplit(s[1..], c);
      var rest := Split(s[1..], c);
      if s[0] == c {
        assert ([[]] + rest)[1..] == rest;
      } else {
        JoinPrependFirst([s[0]], rest[0], rest[1..], [c]);
        assert [rest[0]] + rest[1..] == rest;
      }
      assert s == [s[0]] + s[1..];
    }
  }

  /** Joining all but the last part, then the separator and the last part,
      is joining all parts. */
  lemma {:induction false} JoinLast(parts: seq<string>, sep: string)
    requires |parts| >= 2
    ensures Join(parts, sep) == Join(parts[..|parts| - 1], sep) + sep + parts[|parts| - 1]
    decreases |parts|
  {
    if |parts| > 2 {
      JoinLast(parts[1..], sep);
      assert parts[1..][..|parts| - 2] == parts[..|parts| - 1][1..];
    }
  }

  /** Joining a non-empty prefix of the parts gives a prefix of the whole join. */
  lemma {:induction false} JoinPrefix(parts: seq<string>, sep: string, k: nat)
    requires 1 <= k <= |parts|
    ensures StartsWith(Join(parts, sep), Join(parts[..k], sep))
    decreases |parts|
  {
    if k < |parts| {
      JoinPrefix(parts[..|parts| - 1], sep, k);
      assert parts[..|parts| - 1][..k] == parts[..k];
      JoinLast(parts, sep);
    } else {
      assert parts[..k] == parts;
    }
  }

  /** A suffix of `s[1..]` is a suffix of `s`, one position further on. */
  lemma {:induction false} SuffixOfTail(s: string, last: string)
    requires s != [] && EndsWith(s[1..], last)
    ensures EndsWith(s, last) && |last| < |s|
    ensures |last| < |s| - 1 ==> s[|s| - |last| - 1] == s[1..][|s| - 1 - |last| - 1]
  {
    assert s[|s| - |last|..] == s[1..][|s| - 1 - |last|..];
  }

  /** The last piece of the split ends the string. */
  lemma {:induction false} SplitLastSuffix(s: string, c: char)
    ensures var parts := Split(s, c);
            EndsWith(s, parts[|parts| - 1])
    decreases |s|
  {
    if s != [] {
      var tail := s[1..];
      var rest := Split(tail, c);
      SplitLastSuffix(tail, c);
      var last := rest[|rest| - 1];
      if s[0] == c || |rest| > 1 {
        assert Split(s, c)[|Split(s, c)| - 1] == last;
        SuffixOfTail(s, last);
      } else {
        JoinSplit(tail, c);
        assert Split(s, c) == [[s[0]] + tail];
        assert s == [s[0]] + tail;
      }
    }
  }

  /** When the split has several pieces, the last one is preceded by the separator. */
  lemma {:induction false} SplitLastSeparator(s: string, c: char)
    requires |Split(s, c)| > 1
    ensures var parts := Split(s, c);
            var last := parts[|parts| - 1];
            |last| < |s| && s[|s| - |last| - 1] == c
    decreases |s|
  {
    var tail := s[1..];
    var rest := Split(tail, c);
    SplitLastSuffix(tail, c);
    var last := rest[|rest| - 1];
    assert Split(s, c)[|Split(s, c)| - 1] == last;
    if |rest| > 1 {
      SplitLastSeparator(tail, c);
      SuffixOfTail(s, last);
    } else {
      JoinSplit(tail, c);
      assert last == tail;
      assert s[0] == c;
    }
  }

  /** The last piece of `Split(s, c)` is what follows the last `c` in `s`
      (all of `s` when there is none). */
  lemma {:induction false} SplitLast(s: string, c: char)
    ensures var parts := Split(s, c);
            var last := parts[|parts| - 1];
            EndsWith(s, last) && (c in s ==> |last| < |s| && s[|s| - |last| - 1] == c)
  {
    SplitLastSuffix(s, c);
    SplitSingle(s, c);
    if c in s {
      SplitLastSeparator(s, c);
    }
  }

  /** When the separator occurs, the last piece is the text after its last
      occurrence: a suffix, without the separator, right after one. */
  lemma {:induction false} SplitLastPiece(s: string, c: char)
    requires c in s
    ensures var parts := Split(s, c);
            var last := parts[|parts| - 1];
            |last| < |s| && EndsWith(s, last) && s[|s| - |last| - 1] == c && c !in last
  {
    SplitLastSuffix(s, c);
    SplitSingle(s, c);
    SplitLastSeparator(s, c);
    SplitPieces(s, c);
  }

  /** The end of the leading run of non-whitespace characters of `s`. */
  function TokenEnd(s: string): (n: nat)
    ensures n <= |s|
    ensures forall k :: 0 <= k < n ==> !IsSpace(s[k])
    ensures n == |s| || IsSpace(s[n])
    decreases |s|
  {
    if s == [] || IsSpace(s[0]) then 0 else TokenEnd(s[1..]) + 1
  }

  /** Python `s.split()` with no separator: the maximal runs of
      non-whitespace characters, in order. */
  function Words(s: string): (r: seq<string>)
    ensures forall k :: 0 <= k < |r| ==> r[k] != [] && forall j :: 0 <= j < |r[k]| ==> !IsSpace(r[k][j])
    ensures (forall k :: 0 <= k < |s| ==> IsSpace(s[k])) ==> r == []
    decreases |s|
  {
    if s == [] then []
    else if IsSpace(s[0]) then Words(s[1..])
    else
      var n := TokenEnd(s);
      [s[..n]] + Words(s[n..])
  }

  /** Every character of `p` is whitespace. */
  predicate AllSpace(p: string) {
    forall i :: 0 <= i < |p| ==> IsSpace(p[i])
  }

  /** A token that a whitespace character follows ends before it. */
  lemma {:induction false} TokenEndAppend(a: string, t: string)
    requires t != [] && IsSpace(t[0])
    ensures TokenEnd(a + t) == TokenEnd(a)
    decreases |a|
  {
    if a != [] && !IsSpace(a[0]) {
      assert (a + t)[1..] == a[1..] + t;
      TokenEndAppend(a[1..], t);
    } else if a == [] {
      assert a + t == t;
    }
  }

  /** Leading whitespace does not change the tokens. */
  lemma {:induction false} WordsLeadingSpaces(p: string, x: string)
    requires AllSpace(p)
    ensures Words(p + x) == Words(x)
    decreases |p|
  {
    if p == [] {
      assert p + x == x;
    } else {
      assert (p + x)[0] == p[0];
      assert (p + x)[1..] == p[1..] + x;
      WordsLeadingSpaces(p[1..], x);
    }
  }

  /** `lstrip()` does not change the tokens. */
  lemma {:induction false} WordsTrimStart(s: string)
    ensures Words(TrimStart(s)) == Words(s)
  {
    var t := TrimStart(s);
    var k := |s| - |t|;
    assert s == s[..k] + t;
    assert AllSpace(s[..k]);
    WordsLeadingSpaces(s[..k], t);
  }

  /** A whitespace character separates the tokens of the text before it
      from those of the text after it. */
  lemma {:induction false} WordsSeparated(a: string, c: char, b: string)
    requires IsSpace(c)
    ensures Words(a + [c] + b) == Words(a) + Words(b)
    decreases |a|
  {
    var s := a + [c] + b;
    if a == [] {
      assert s == [c] + b;
      assert s[1..] == b;
    } else if IsSpace(a[0]) {
      assert s[1..] == a[1..] + [c] + b;
      WordsSeparated(a[1..], c, b);
    } else {
      WordsSeparated(a[TokenEnd(a)..], c, b);
      WordsSeparatedToken(a, c, b);
    }
  }

  /** The step of `WordsSeparated` past the first word of `a`. */
  lemma {:induction false} WordsSeparatedToken(a: string, c: char, b: string)
    requires IsSpace(c) && a != [] && !IsSpace(a[0])
    requires Words(a[TokenEnd(a)..] + [c] + b) == Words(a[TokenEnd(a)..]) + Words(b)
    ensures Words(a + [c] + b) == Words(a) + Words(b)
  {
    var n := TokenEnd(a);
    var w := a[..n];
    TokenSplitAppend(a, c, b);
    WordsUnfold(a + [c] + b);
    WordsUnfold(a);
    ConcatAssoc([w], Words(a[n..]), Words(b));
  }

  /** The tokens of a text are those of its middle when the text is
      whitespace on both sides of it. */
  lemma {:induction false} WordsBetweenSpaces(w: string, y: string, k: nat, e: nat)
    requires k <= e <= |w| && y == w[k..e] && AllSpace(w[..k]) && AllSpace(w[e..])
    ensures Words(y) == Words(w)
  {
    assert w == w[..k] + (y + w[e..]);
    WordsTrailingSpaces(y, w[e..]);
    WordsLeadingSpaces(w[..k], y + w[e..]);
  }

  /** Words of a text that starts with one: that word, then the rest. */
  lemma {:induction false} WordsUnfold(s: string)
    requires s != [] && !IsSpace(s[0])
    ensures Words(s) == [s[..TokenEnd(s)]] + Words(s[TokenEnd(s)..])
  {
  }

  /** Appending a separated text leaves the first word of `a` alone. */
  lemma {:induction false} TokenSplitAppend(a: string, c: char, b: string)
    requires IsSpace(c)
    ensures var s := a + [c] + b;
            TokenEnd(s) == TokenEnd(a) && s[..TokenEnd(a)] == a[..TokenEnd(a)]
            && s[TokenEnd(a)..] == a[TokenEnd(a)..] + [c] + b
  {
    var n := TokenEnd(a);
    ConcatAssoc(a, [c], b);
    TokenEndAppend(a, [c] + b);
    SlicesOfAppend(a, [c] + b, n);
    ConcatAssoc(a[n..], [c], b);
  }

  /** A prefix one element longer. */
  lemma {:induction false} TakeSnoc<T>(s: seq<T>, i: nat)
    requires i < |s|
    ensures s[..i + 1] == s[..i] + [s[i]]
  {
  }

  /** Cutting `a + t` inside `a`. */
  lemma {:induction false} SlicesOfAppend<T>(a: seq<T>, t: seq<T>, n: nat)
    requires n <= |a|
    ensures (a + t)[..n] == a[..n] && (a + t)[n..] == a[n..] + t
  {
  }

  /** Concatenation is associative. */
  lemma {:induction false} ConcatAssoc<T>(x: seq<T>, y: seq<T>, z: seq<T>)
    ensures (x + y) + z == x + (y + z)
  {
  }

  /** Trailing whitespace does not change the tokens. */
  lemma {:induction false} WordsTrailingSpaces(x: string, p: string)
    requires AllSpace(p)
    ensures Words(x + p) == Words(x)
  {
    if p != [] {
      assert x + p == x + [p[0]] + p[1..];
      WordsSeparated(x, p[0], p[1..]);
    } else {
      assert x + p == x;
    }
  }

  /** A non-empty text without whitespace is one token. */
  lemma {:induction false} WordsToken(t: string)
    requires t != [] && forall j :: 0 <= j < |t| ==> !IsSpace(t[j])
    ensures Words(t) == [t]
  {
    assert t[..TokenEnd(t)] == t;
  }

  /** A character that is not whitespace joins the first token of the text
      it is put before, unless that text starts with whitespace or is empty. */
  lemma {:induction false} WordsCons(c: char, x: string)
    requires !IsSpace(c)
    ensures x == [] || IsSpace(x[0]) ==> Words([c] + x) == [[c]] + Words(x)
    ensures x != [] && !IsSpace(x[0]) ==> Words([c] + x) == [[c] + Words(x)[0]] + Words(x)[1..]
  {
    var s := [c] + x;
    assert s[1..] == x;
    if x == [] || IsSpace(x[0]) {
      assert TokenEnd(s) == 1;
      assert s[..1] == [c];
    } else {
      var m := TokenEnd(x);
      assert TokenEnd(s) == m + 1;
      assert s[..m + 1] == [c] + x[..m];
      assert s[m + 1..] == x[m..];
    }
  }

  /** The end of the leading run of word characters of `s`. */
  function WordRunEnd(s: string): (n: nat)
    ensures n <= |s|
    ensures s != [] && IsWordChar(s[0]) ==> n > 0
    decreases |s|
  {
    if s == [] || !IsWordChar(s[0]) then 0 else WordRunEnd(s[1..]) + 1
  }

  /** The run ends at the first character that is not a word character. */
  lemma {:induction false} WordRunEndIsMaximal(s: string)
    ensures forall k :: 0 <= k < WordRunEnd(s) ==> IsWordChar(s[k])
    ensures WordRunEnd(s) == |s| || !IsWordChar(s[WordRunEnd(s)])
    decreases |s|
  {
    if s != [] && IsWordChar(s[0]) {
      WordRunEndIsMaximal(s[1..]);
    }
  }

  /** `re.findall(r'\b\w+\b', s)`: the maximal runs of word characters, in order. */
  function WordRuns(s: string): seq<string>
    decreases |s|
  {
    if s == [] then []
    else if !IsWordChar(s[0]) then WordRuns(s[1..])
    else
      var n := WordRunEnd(s);
      [s[..n]] + WordRuns(s[n..])
  }

  /** Every run is non-empty and made of word characters only. */
  lemma {:induction false} WordRunsAreWords(s: string)
    ensures forall k :: 0 <= k < |WordRuns(s)| ==>
              WordRuns(s)[k] != [] && forall j :: 0 <= j < |WordRuns(s)[k]| ==> IsWordChar(WordRuns(s)[k][j])
    decreases |s|
  {
    if s != [] {
      if !IsWordChar(s[0]) {
        WordRunsAreWords(s[1..]);
      } else {
        var n := WordRunEnd(s);
        WordRunEndIsMaximal(s);
        WordRunsAreWords(s[n..]);
        assert WordRuns(s) == [s[..n]] + WordRuns(s[n..]);
      }
    }
  }

  /** A run that a non-word character follows ends before it. */
  lemma {:induction false} WordRunEndAppend(a: string, t: string)
    requires t != [] && !IsWordChar(t[0])
    ensures WordRunEnd(a + t) == WordRunEnd(a)
    decreases |a|
  {
    if a != [] && IsWordChar(a[0]) {
      assert (a + t)[1..] == a[1..] + t;
      WordRunEndAppend(a[1..], t);
    } else if a == [] {
      assert a + t == t;
    }
  }

  /** A text without word characters has no runs. */
  lemma {:induction false} WordRunsNone(s: string)
    requires forall j :: 0 <= j < |s| ==> !IsWordChar(s[j])
    ensures WordRuns(s) == []
    decreases |s|
  {
    if s != [] {
      WordRunsNone(s[1..]);
    }
  }

  /** A non-word character separates the runs of the text before it from
      those of the text after it. */
  lemma {:induction false} WordRunsSeparated(a: string, c: char, b: string)
    requires !IsWordChar(c)
    ensures WordRuns(a + [c] + b) == WordRuns(a) + WordRuns(b)
    decreases |a|
  {
    var s := a + [c] + b;
    if a == [] {
      assert s == [c] + b;
      assert s[1..] == b;
    } else if !IsWordChar(a[0]) {
      assert s[1..] == a[1..] + [c] + b;
      WordRunsSeparated(a[1..], c, b);
    } else {
      WordRunEndAppend(a, [c] + b);
      assert s == a + ([c] + b);
      var n := WordRunEnd(a);
      assert s[..n] == a[..n];
      assert s[n..] == a[n..] + [c] + b;
      WordRunsSeparated(a[n..], c, b);
    }
  }

  /** A non-empty text of word characters only is one run. */
  lemma {:induction false} WordRunsToken(t: string)
    requires t != [] && forall j :: 0 <= j < |t| ==> IsWordChar(t[j])
    ensures WordRuns(t) == [t]
  {
    WordRunEndIsMaximal(t);
    assert WordRunEnd(t) == |t|;
    assert t[..WordRunEnd(t)] == t;
  }
}
