/** The pure parts of `YandexDiskClient` (explorer/utils/yandex_disk.py):
    turning a folder path into a full `disk:/` path, turning a full path
    back into a path relative to the configured root folder, and the
    word-to-files search index built from a file list.

    The configured root folder (`settings.YANDEX_DISK_CONFIG['ROOT_FOLDER']`)
    is the parameter `root`. */
module YandexDisk {
  import opened Strings

  /** The scheme prefix of full paths on the disk. */
  const DiskPrefix: string := "disk:/"

  /** One file of the flat file list: its name, full path and size. */
  datatype DiskFile = DiskFile(name: string, path: string, size: int)

  // ---------------------------------------------------------------------
  // Paths

  /** The path without one leading `disk:/`, if there is one. */
  function StripDiskPrefix(path: string): (r: string)
    ensures StartsWith(path, DiskPrefix) ==> DiskPrefix + r == path
    ensures !StartsWith(path, DiskPrefix) ==> r == path
  {
    if StartsWith(path, DiskPrefix) then path[|DiskPrefix|..] else path
  }

  /** The top of `get_folder_contents`: an empty path means the root folder,
      and a path without the `disk:/` prefix gets it. The result always
      carries the prefix, and what follows the prefix is the requested path
      (or the root) unless that already carried it. */
  function FolderFullPath(path: string, root: string): (r: string)
    ensures StartsWith(r, DiskPrefix)
    ensures var p := if path == [] then root else path;
            (StartsWith(p, DiskPrefix) ==> r == p) && (!StartsWith(p, DiskPrefix) ==> r[|DiskPrefix|..] == p)
  {
    var p := if path == [] then root else path;
    if !StartsWith(p, DiskPrefix) then DiskPrefix + p else p
  }

  /** Prefixing is idempotent: a full path is its own full path, whatever the root. */
  lemma {:induction false} FolderFullPathIdempotent(path: string, root: string, root2: string)
    ensures FolderFullPath(FolderFullPath(path, root), root2) == FolderFullPath(path, root)
  {
  }

  /** `YandexDiskClient.get_relative_path`: drop one leading `disk:/`; when
      the rest starts with the root folder, drop the root and every `/`
      after it; otherwise keep the rest unchanged. The result is always a
      suffix of the input. */
  function RelativePath(fullPath: string, root: string): (r: string)
    ensures EndsWith(fullPath, r)
  {
    var rest := StripDiskPrefix(fullPath);
    assert EndsWith(fullPath, rest) by {
      if StartsWith(fullPath, DiskPrefix) {
        DropEndsWith(fullPath, |DiskPrefix|);
      }
    }
    if StartsWith(rest, root) then
      var tail := rest[|root|..];
      var r := LStripChar(tail, '/');
      DropEndsWith(rest, |root|);
      DropEndsWith(tail, |tail| - |r|);
      EndsWithTransitive(rest, tail, r);
      EndsWithTransitive(fullPath, rest, r);
      r
    else rest
  }

  /** Below the root, the relative path is what follows the root with all
      leading `/` removed, so it never starts with `/`; elsewhere it is the
      path without its `disk:/` prefix. */
  lemma {:induction false} RelativePathCases(fullPath: string, root: string)
    ensures var rest := StripDiskPrefix(fullPath);
            var r := RelativePath(fullPath, root);
            (StartsWith(rest, root) ==>
               (r == [] || r[0] != '/') && |root| + |r| <= |rest| && r == rest[|rest| - |r|..]
               && forall k :: |root| <= k < |rest| - |r| ==> rest[k] == '/')
            && (!StartsWith(rest, root) ==> r == rest)
  {
    var rest := StripDiskPrefix(fullPath);
    if StartsWith(rest, root) {
      var tail := rest[|root|..];
      var r := LStripChar(tail, '/');
      assert forall k :: |root| <= k < |rest| - |r| ==> rest[k] == tail[k - |root|];
    }
  }

  /** Relative and full paths are inverse: the relative path of the full
      path of `root/rel` is `rel`, for a relative path that does not start
      with `/` (below a root that does not itself carry the prefix). */
  lemma {:induction false} RelativeOfFullPath(root: string, rel: string)
    requires !StartsWith(root + "/" + rel, DiskPrefix)
    requires rel == [] || rel[0] != '/'
    ensures RelativePath(FolderFullPath(root + "/" + rel, root), root) == rel
  {
    var p := root + "/" + rel;
    var full := FolderFullPath(p, root);
    assert full == DiskPrefix + p;
    assert StartsWith(full, DiskPrefix);
    assert StripDiskPrefix(full) == p;
    assert p[..|root|] == root;
    assert p[|root|..] == "/" + rel;
    assert ("/" + rel)[1..] == rel;
  }

  // ---------------------------------------------------------------------
  // Search index

  /** The words of a file name that the index sees: `\w` runs of the
      lower-cased name. */
  function NameWords(f: DiskFile): seq<string> {
    WordRuns(LowerStr(f.name))
  }

  /** The entries that the words `words` of file `f` add under the key `w`:
      `f` once per occurrence of `w`, when `w` is longer than two characters. */
  function Hits(f: DiskFile, words: seq<string>, w: string): seq<DiskFile>
    decreases |words|
  {
    if words == [] then []
    else
      var n := |words| - 1;
      Hits(f, words[..n], w) + (if words[n] == w && |w| > 2 then [f] else [])
  }

  /** The list the index keeps under `w` for the files `files`: each file's
      hits, in the order of the files. */
  function Postings(files: seq<DiskFile>, w: string): seq<DiskFile>
    decreases |files|
  {
    if files == [] then []
    else
      var n := |files| - 1;
      Postings(files[..n], w) + Hits(files[n], NameWords(files[n]), w)
  }

  /** The hits of a file are the file, once per occurrence of the word, and
      none at all for a word of at most two characters. */
  lemma {:induction false} HitsCount(f: DiskFile, words: seq<string>, w: string)
    ensures |Hits(f, words, w)| == (if |w| > 2 then multiset(words)[w] else 0)
    ensures forall g :: g in Hits(f, words, w) ==> g == f
    decreases |words|
  {
    if words != [] {
      var n := |words| - 1;
      HitsCount(f, words[..n], w);
      assert words == words[..n] + [words[n]];
      assert multiset(words) == multiset(words[..n]) + multiset{words[n]};
    }
  }

  /** Every entry under `w` is one of the files, and `w` is a word of its
      name longer than two characters: a file whose name has no such word
      appears in no list. */
  lemma {:induction false} PostingsMembers(files: seq<DiskFile>, w: string, g: DiskFile)
    requires g in Postings(files, w)
    ensures g in files && |w| > 2 && w in NameWords(g)
    decreases |files|
  {
    var n := |files| - 1;
    if g in Postings(files[..n], w) {
      PostingsMembers(files[..n], w, g);
    } else {
      HitsMembers(files[n], NameWords(files[n]), w, g);
    }
  }

  lemma {:induction false} HitsMembers(f: DiskFile, words: seq<string>, w: string, g: DiskFile)
    requires g in Hits(f, words, w)
    ensures g == f && |w| > 2 && w in words
    decreases |words|
  {
    var n := |words| - 1;
    if g in Hits(f, words[..n], w) {
      HitsMembers(f, words[..n], w, g);
    }
  }

  /** The lists keep the order of the input files: indexing `a + b` lists
      the entries from `a` before those from `b`. */
  lemma {:induction false} PostingsAppend(a: seq<DiskFile>, b: seq<DiskFile>, w: string)
    ensures Postings(a + b, w) == Postings(a, w) + Postings(b, w)
    decreases |b|
  {
    if b == [] {
      assert a + b == a;
    } else {
      var n := |b| - 1;
      var h := Hits(b[n], NameWords(b[n]), w);
      assert Postings(a + b, w) == Postings(a + b[..n], w) + h by {
        var ab := a + b;
        assert ab[..|ab| - 1] == a + b[..n];
        assert ab[|ab| - 1] == b[n];
      }
      PostingsAppend(a, b[..n], w);
      assert Postings(b, w) == Postings(b[..n], w) + h;
      assert (Postings(a, w) + Postings(b[..n], w)) + h == Postings(a, w) + (Postings(b[..n], w) + h);
    }
  }

  /** The index maps exactly the words with a non-empty list to that list. */
  ghost predicate IndexOf(index: map<string, seq<DiskFile>>, files: seq<DiskFile>) {
    forall w :: (w in index <==> Postings(files, w) != []) && (w in index ==> index[w] == Postings(files, w))
  }

  /** The index after the files `done` and the first words `words` of file `f`. */
  ghost predicate PartlyIndexed(index: map<string, seq<DiskFile>>, done: seq<DiskFile>, f: DiskFile, words: seq<string>) {
    forall w :: (w in index <==> Postings(done, w) + Hits(f, words, w) != [])
                && (w in index ==> index[w] == Postings(done, w) + Hits(f, words, w))
  }

  /** One step of the inner loop: `f` appended under `word` when that is
      longer than two characters. */
  function AddHit(index: map<string, seq<DiskFile>>, word: string, f: DiskFile): map<string, seq<DiskFile>> {
    if |word| > 2 then
      var prepared := if word in index then index else index[word := []];
      prepared[word := prepared[word] + [f]]
    else index
  }

  lemma {:induction false} AddHitStep(index: map<string, seq<DiskFile>>, done: seq<DiskFile>, f: DiskFile, words: seq<string>, j: nat)
    requires j < |words| && PartlyIndexed(index, done, f, words[..j])
    ensures PartlyIndexed(AddHit(index, words[j], f), done, f, words[..j + 1])
  {
    assert words[..j + 1][..j] == words[..j];
    var next := AddHit(index, words[j], f);
    forall w ensures (w in next <==> Postings(done, w) + Hits(f, words[..j + 1], w) != [])
                     && (w in next ==> next[w] == Postings(done, w) + Hits(f, words[..j + 1], w))
    {
      assert Hits(f, words[..j + 1], w)
        == Hits(f, words[..j], w) + (if words[j] == w && |w| > 2 then [f] else []);
    }
  }

  lemma {:induction false} StartFile(index: map<string, seq<DiskFile>>, done: seq<DiskFile>, f: DiskFile)
    requires IndexOf(index, done)
    ensures PartlyIndexed(index, done, f, [])
  {
    forall w ensures Postings(done, w) + Hits(f, [], w) == Postings(done, w) { }
  }

  lemma {:induction false} FinishFile(index: map<string, seq<DiskFile>>, done: seq<DiskFile>, f: DiskFile)
    requires PartlyIndexed(index, done, f, NameWords(f))
    ensures IndexOf(index, done + [f])
  {
    assert (done + [f])[..|done|] == done;
    forall w ensures Postings(done + [f], w) == Postings(done, w) + Hits(f, NameWords(f), w) { }
  }

  /** The inner loop of `YandexDiskClient.build_search_index`: file `f` is
      appended under each of its name words longer than two characters,
      once per occurrence. */
  method IndexFile(index0: map<string, seq<DiskFile>>, ghost done: seq<DiskFile>, f: DiskFile)
    returns (index: map<string, seq<DiskFile>>)
    requires IndexOf(index0, done)
    ensures IndexOf(index, done + [f])
  {
    index := index0;
    var words := WordRuns(LowerStr(f.name));
    var j := 0;
    StartFile(index, done, f);
    assert words[..0] == [];
    while j < |words|
      invariant 0 <= j <= |words|
      invariant PartlyIndexed(index, done, f, words[..j])
    {
      var word := words[j];
      AddHitStep(index, done, f, words, j);
      ghost var next := AddHit(index, word, f);
      if |word| > 2 {
        if word !in index {
          index := index[word := []];
        }
        index := index[word := index[word] + [f]];
      }
      assert index == next;
      j := j + 1;
    }
    assert words[..j] == words == NameWords(f);
    FinishFile(index, done, f);
  }

  /** The index-building loop of `YandexDiskClient.build_search_index`,
      over a supplied file list: every word longer than two characters of
      some lower-cased file name maps to the files in which it occurs, in
      input order, once per occurrence. */
  method BuildSearchIndex(files: seq<DiskFile>) returns (index: map<string, seq<DiskFile>>)
    ensures IndexOf(index, files)
  {
    index := map[];
    var i := 0;
    while i < |files|
      invariant 0 <= i <= |files|
      invariant IndexOf(index, files[..i])
    {
      assert files[..i + 1] == files[..i] + [files[i]];
      index := IndexFile(index, files[..i], files[i]);
      i := i + 1;
    }
    assert files[..i] == files;
  }
}
