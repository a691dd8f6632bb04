/** Paths as app.js builds them with `path.join`, taken here as plain
    concatenation with a `/` separator, and the last-component / parent split
    that undoes such a join. */
module Paths {

  /** `path.join(dir, file)` without normalisation. */
  function JoinPath(dir: string, file: string): string
  {
    dir + "/" + file
  }

  /** The text after the last `/` (all of `p` when it has none). */
  function Basename(p: string): (r: string)
    ensures '/' !in r
    ensures |r| <= |p|
  {
    if p == [] then []
    else if p[|p| - 1] == '/' then []
    else Basename(p[..|p| - 1]) + [p[|p| - 1]]
  }

  /** The text before the last `/` (empty when it has none). */
  function Dirname(p: string): string
  {
    if p == [] then []
    else if p[|p| - 1] == '/' then p[..|p| - 1]
    else Dirname(p[..|p| - 1])
  }

  /** A file name without `/` is the last component of the joined path, and
      the directory is everything before it. */
  lemma {:induction false} SplitJoinPath(dir: string, file: string)
    requires '/' !in file
    ensures Basename(JoinPath(dir, file)) == file
    ensures Dirname(JoinPath(dir, file)) == dir
  {
    var p := JoinPath(dir, file);
    if file == [] {
      assert p[..|p| - 1] == dir;
    } else {
      var init := file[..|file| - 1];
      assert p[..|p| - 1] == JoinPath(dir, init);
      assert '/' !in init by {
        forall i | 0 <= i < |init| ensures init[i] != '/' {
          assert init[i] == file[i];
        }
      }
      SplitJoinPath(dir, init);
      assert init + [file[|file| - 1]] == file;
    }
  }

  /** Every path that contains a `/` is the join of its parent and its last
      component. */
  lemma {:induction false} JoinSplitPath(p: string)
    requires '/' in p
    ensures JoinPath(Dirname(p), Basename(p)) == p
  {
    var init := p[..|p| - 1];
    if p[|p| - 1] != '/' {
      assert '/' in init by {
        var i :| 0 <= i < |p| && p[i] == '/';
        assert i < |p| - 1 && init[i] == '/';
      }
      JoinSplitPath(init);
      assert init + [p[|p| - 1]] == p;
    } else {
      assert init + "/" == p;
    }
  }
}
