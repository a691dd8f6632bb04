/** `getNewFiles` (app.js:59): the directory listing taken after the
    downloader ran, filtered down to the names the listing taken before did not
    hold. Listings are sequences because `readdirSync` returns an array; the
    filter keeps the order of the after-listing and keeps its duplicates. */
module Diff {

  /** `newFiles.filter((file) => !oldFiles.includes(file))`. */
  function NewFiles(before: seq<string>, after: seq<string>): (r: seq<string>)
    ensures forall x :: x in r <==> x in after && x !in before
    ensures |r| <= |after|
  {
    if after == [] then []
    else (if after[0] in before then [] else [after[0]]) + NewFiles(before, after[1..])
  }

  /** Every name keeps its multiplicity from the after-listing unless the
      before-listing holds it, in which case it is gone entirely. */
  lemma {:induction false} NewFilesCount(before: seq<string>, after: seq<string>, x: string)
    ensures multiset(NewFiles(before, after))[x] == if x in before then 0 else multiset(after)[x]
  {
    if after != [] {
      NewFilesCount(before, after[1..], x);
      assert after == [after[0]] + after[1..];
    }
  }

  /** `xs` is obtained from `ys` by deleting elements, keeping the order of
      what remains. */
  predicate IsSubsequence(xs: seq<string>, ys: seq<string>)
    decreases |ys|
  {
    if xs == [] then true
    else if ys == [] then false
    else (xs[0] == ys[0] && IsSubsequence(xs[1..], ys[1..])) || IsSubsequence(xs, ys[1..])
  }

  /** The new files appear in the order the after-listing gave them. */
  lemma {:induction false} NewFilesIsSubsequence(before: seq<string>, after: seq<string>)
    ensures IsSubsequence(NewFiles(before, after), after)
  {
    if after != [] {
      NewFilesIsSubsequence(before, after[1..]);
      var rest := NewFiles(before, after[1..]);
      if after[0] !in before {
        assert ([after[0]] + rest)[1..] == rest;
      } else {
        assert [] + rest == rest;
        SubsequenceSkipHead(rest, after);
      }
    }
  }

  lemma {:induction false} SubsequenceSkipHead(xs: seq<string>, ys: seq<string>)
    requires ys != []
    ensures IsSubsequence(xs, ys[1..]) ==> IsSubsequence(xs, ys)
  {
  }

  lemma {:induction false} SubsequenceMultiset(xs: seq<string>, ys: seq<string>)
    requires IsSubsequence(xs, ys)
    ensures multiset(xs) <= multiset(ys)
    decreases |ys|
  {
    if xs != [] {
      assert ys == [ys[0]] + ys[1..];
      if xs[0] == ys[0] && IsSubsequence(xs[1..], ys[1..]) {
        SubsequenceMultiset(xs[1..], ys[1..]);
        assert xs == [xs[0]] + xs[1..];
      } else {
        SubsequenceMultiset(xs, ys[1..]);
      }
    }
  }

  lemma SubsequenceCount(xs: seq<string>, ys: seq<string>, x: string)
    ensures IsSubsequence(xs, ys) ==> multiset(xs)[x] <= multiset(ys)[x]
  {
    if IsSubsequence(xs, ys) {
      SubsequenceMultiset(xs, ys);
    }
  }

  /** The filter is the only subsequence of the after-listing with those
      multiplicities: order and counts together pin the result down. */
  lemma {:induction false} NewFilesUnique(before: seq<string>, after: seq<string>, r: seq<string>)
    requires IsSubsequence(r, after)
    requires forall x :: multiset(r)[x] == if x in before then 0 else multiset(after)[x]
    ensures r == NewFiles(before, after)
    decreases |after|
  {
    if after == [] {
      assert r == [];
    } else {
      var h, t := after[0], after[1..];
      assert after == [h] + t;
      if h in before {
        if r != [] {
          assert r[0] in multiset(r);
        }
        forall x ensures multiset(r)[x] == if x in before then 0 else multiset(t)[x] {
        }
        NewFilesUnique(before, t, r);
      } else {
        assert multiset(r)[h] == multiset(t)[h] + 1;
        assert h in multiset(r);
        SubsequenceCount(r, t, h);
        assert r[0] == h && IsSubsequence(r[1..], t);
        assert r == [h] + r[1..];
        forall x ensures multiset(r[1..])[x] == if x in before then 0 else multiset(t)[x] {
        }
        NewFilesUnique(before, t, r[1..]);
      }
    }
  }

  /** Diffing distributes over concatenated after-listings. */
  lemma {:induction false} NewFilesAppend(before: seq<string>, a1: seq<string>, a2: seq<string>)
    ensures NewFiles(before, a1 + a2) == NewFiles(before, a1) + NewFiles(before, a2)
  {
    if a1 != [] {
      assert (a1 + a2)[0] == a1[0];
      assert (a1 + a2)[1..] == a1[1..] + a2;
      NewFilesAppend(before, a1[1..], a2);
      var head := if a1[0] in before then [] else [a1[0]];
      assert NewFiles(before, a1 + a2) == head + NewFiles(before, a1[1..] + a2);
      assert NewFiles(before, a1) == head + NewFiles(before, a1[1..]);
    } else {
      assert a1 + a2 == a2;
    }
  }

  /** A listing that shares no name with the before-listing comes back whole. */
  lemma {:induction false} NewFilesDisjoint(before: seq<string>, after: seq<string>)
    requires forall x :: x in after ==> x !in before
    ensures NewFiles(before, after) == after
  {
    if after != [] {
      NewFilesDisjoint(before, after[1..]);
      assert after == [after[0]] + after[1..];
    }
  }

  /** Nothing is new when nothing changed. */
  lemma NewFilesSelf(files: seq<string>)
    ensures NewFiles(files, files) == []
  {
    if NewFiles(files, files) != [] {
      assert NewFiles(files, files)[0] in NewFiles(files, files);
    }
  }

  /** Files appended to an unchanged listing are exactly what is reported, in
      the order they were listed (for names that did not exist before). */
  lemma NewFilesOfAddition(before: seq<string>, added: seq<string>)
    requires forall x :: x in added ==> x !in before
    ensures NewFiles(before, before + added) == added
  {
    NewFilesAppend(before, before, added);
    NewFilesSelf(before);
    NewFilesDisjoint(before, added);
  }

  /** Only which names the before-listing holds matters, not their order or
      repetition. */
  lemma {:induction false} NewFilesBeforeAsSet(b1: seq<string>, b2: seq<string>, after: seq<string>)
    requires forall x :: x in b1 <==> x in b2
    ensures NewFiles(b1, after) == NewFiles(b2, after)
  {
    if after != [] {
      NewFilesBeforeAsSet(b1, b2, after[1..]);
    }
  }

  /** The worked example: two files present, two more downloaded. */
  lemma NewFilesExample()
    ensures NewFiles(["a.jpg", "b.jpg"], ["a.jpg", "b.jpg", "c.jpg", "d.jpg"]) == ["c.jpg", "d.jpg"]
  {
    NewFilesOfAddition(["a.jpg", "b.jpg"], ["c.jpg", "d.jpg"]);
    assert ["a.jpg", "b.jpg"] + ["c.jpg", "d.jpg"] == ["a.jpg", "b.jpg", "c.jpg", "d.jpg"];
  }
}
