/** The contract discovery of the command line's build commands: which
    directories under a starting directory are contracts to build. The file
    system is a tree of entries given as a value; the order of a directory's
    children is the order in which the operating system lists them. */
module BuildUtils {
  import opened Base
  import opened Strings

  /** A file system entry: a file, or a directory and its children. */
  datatype Entry = File(name: string) | Dir(name: string, children: seq<Entry>)

  /** `path.join(p, name)` for a name without separators. */
  function JoinPath(p: string, name: string): string {
    p + "/" + name
  }

  /** A child entry named `name` that is a file (`existsSync` and
      `statSync(..).isFile()`). */
  predicate HasFile(d: Entry, name: string)
    requires d.Dir?
  {
    exists i :: 0 <= i < |d.children| && d.children[i] == File(name)
  }

  /** A child entry named `name` that is a directory. */
  predicate HasDir(d: Entry, name: string)
    requires d.Dir?
  {
    exists i :: 0 <= i < |d.children| && d.children[i].Dir? && d.children[i].name == name
  }

  /** `isDirBuildable`: a contract directory holds a `multiversx.json` or an
      `elrond.json` file and a `meta` directory. */
  predicate IsDirBuildable(d: Entry) {
    d.Dir? && (HasFile(d, "multiversx.json") || HasFile(d, "elrond.json")) && HasDir(d, "meta")
  }

  /** The characters at which a JavaScript `.` stops matching. */
  predicate IsLineTerminator(ch: char) {
    ch == '\n' || ch == '\r' || ch == '\U{2028}' || ch == '\U{2029}'
  }

  /** `defaultIgnore`, the pattern `^(target|node_modules|(\..*))$` as a test
      on a whole name: `target`, `node_modules`, or a hidden name (a leading
      dot followed by no line terminator). */
  predicate DefaultIgnore(name: string) {
    || name == "target"
    || name == "node_modules"
    || (|name| > 0 && name[0] == '.' && forall i :: 1 <= i < |name| ==> !IsLineTerminator(name[i]))
  }

  /** The default pattern is anchored at both ends: it matches whole names
      only, and a line break after a leading dot defeats it. */
  lemma DefaultIgnoreWholeNames()
    ensures DefaultIgnore("target") && DefaultIgnore("node_modules") && DefaultIgnore(".git") && DefaultIgnore(".")
    ensures !DefaultIgnore("targets") && !DefaultIgnore("my_target") && !DefaultIgnore("src.d") && !DefaultIgnore("")
    ensures !DefaultIgnore(".a\nb")
  {
    assert ".a\nb"[2] == '\n';
  }

  // ---------------------------------------------------------------------------
  // The search, as a specification

  /** `findBuildableDirs(p, ignore)` on the directory `d` at path `p`: a
      contract directory is the only result; otherwise the results of the
      child directories whose names are not ignored, in listing order. */
  function BuildableDirs(p: string, d: Entry, ignore: string -> bool): seq<string>
    requires d.Dir?
    decreases d, |d.children| + 1
  {
    if IsDirBuildable(d) then [p] else ChildrenDirs(p, d, |d.children|, ignore)
  }

  /** The results of the first `k` children of `d`. */
  function ChildrenDirs(p: string, d: Entry, k: nat, ignore: string -> bool): seq<string>
    requires d.Dir? && k <= |d.children|
    decreases d, k
  {
    if k == 0 then []
    else
      var c := d.children[k - 1];
      ChildrenDirs(p, d, k - 1, ignore)
      + (if c.Dir? && !ignore(c.name) then BuildableDirs(JoinPath(p, c.name), c, ignore) else [])
  }

  /** `findBuildableDirs`: depth first, stopping at contract directories and
      skipping ignored names. */
  method FindBuildableDirs(p: string, d: Entry, ignore: string -> bool) returns (results: seq<string>)
    requires d.Dir?
    ensures results == BuildableDirs(p, d, ignore)
    decreases d
  {
    if IsDirBuildable(d) {
      results := [p];
    } else {
      results := [];
      for i := 0 to |d.children|
        invariant results == ChildrenDirs(p, d, i, ignore)
      {
        var child := d.children[i];
        if child.Dir? {
          if ignore(child.name) {
            continue;
          }
          var sub := FindBuildableDirs(JoinPath(p, child.name), child, ignore);
          results := results + sub;
        }
      }
    }
  }

  const NoContractMessage := "No valid contract found."

  /** `findBuildableContractDirs(dir, ignore, recursive)` on the entry `root`
      at `dir` (`None` when nothing exists there). Recursively, the search
      above with the given ignore test (the compiled pattern) or the default
      one; listing a file or a missing path throws the error `readdirSync`
      throws. Otherwise `dir` itself, when it is a contract. An empty result
      logs "No valid contract found." (`log`). */
  method FindBuildableContractDirs(dir: string, root: Option<Entry>, ignore: Option<string -> bool>, recursive: bool)
    returns (r: Outcome<seq<string>>, log: Option<string>)
    ensures recursive && root.None? ==> r == Err(Runtime("ENOENT"))
    ensures recursive && root.Some? && root.value.File? ==> r == Err(Runtime("ENOTDIR"))
    ensures recursive && root.Some? && root.value.Dir? ==>
      r == Ok(BuildableDirs(dir, root.value, if ignore.Some? then ignore.value else DefaultIgnore))
    ensures !recursive ==> r == Ok(if root.Some? && IsDirBuildable(root.value) then [dir] else [])
    ensures log.Some? <==> r == Ok([])
    ensures log.Some? ==> log.value == NoContractMessage
  {
    var dirs: seq<string> := [];
    if recursive {
      var ignoreTest := if ignore.Some? then ignore.value else DefaultIgnore;
      if root.None? {
        return Err(Runtime("ENOENT")), None;
      } else if root.value.File? {
        return Err(Runtime("ENOTDIR")), None;
      }
      var found := FindBuildableDirs(dir, root.value, ignoreTest);
      dirs := dirs + found;
      assert dirs == found;
      assert ignoreTest == (if ignore.Some? then ignore.value else DefaultIgnore);
    } else {
      if root.Some? && IsDirBuildable(root.value) {
        dirs := dirs + [dir];
      }
      assert dirs == if root.Some? && IsDirBuildable(root.value) then [dir] else [];
    }
    if |dirs| == 0 {
      return Ok([]), Some(NoContractMessage);
    }
    r, log := Ok(dirs), None;
  }

  // ---------------------------------------------------------------------------
  // What the search finds

  /** `q` is a contract directory reached from `d` at `p` by descending only
      through directories that are neither contracts nor ignored. */
  ghost predicate Found(p: string, d: Entry, q: string, ignore: string -> bool)
    decreases d, 0
  {
    d.Dir? &&
    if IsDirBuildable(d) then q == p
    else exists i :: 0 <= i < |d.children| && Reaches(p, d.children[i], q, ignore)
  }

  /** Through the child `c` of the directory at `p`. */
  ghost predicate Reaches(p: string, c: Entry, q: string, ignore: string -> bool)
    decreases c, 1
  {
    c.Dir? && !ignore(c.name) && Found(JoinPath(p, c.name), c, q, ignore)
  }

  /** The search lists exactly the contract directories so reached. */
  lemma {:induction false} BuildableDirsFound(p: string, d: Entry, q: string, ignore: string -> bool)
    requires d.Dir?
    ensures q in BuildableDirs(p, d, ignore) <==> Found(p, d, q, ignore)
    decreases d, |d.children| + 1
  {
    if !IsDirBuildable(d) {
      ChildrenDirsFound(p, d, |d.children|, q, ignore);
    }
  }

  lemma {:induction false} ChildrenDirsFound(p: string, d: Entry, k: nat, q: string, ignore: string -> bool)
    requires d.Dir? && k <= |d.children|
    ensures q in ChildrenDirs(p, d, k, ignore) <==> exists i :: 0 <= i < k && Reaches(p, d.children[i], q, ignore)
    decreases d, k
  {
    if k > 0 {
      ChildrenDirsFound(p, d, k - 1, q, ignore);
      LastChildFound(p, d, k, q, ignore);
      if i :| 0 <= i < k && Reaches(p, d.children[i], q, ignore) {
        assert i < k - 1 || Reaches(p, d.children[k - 1], q, ignore);
      }
    }
  }

  /** The `k`-th child adds to the results exactly what is reached through it. */
  lemma {:induction false} LastChildFound(p: string, d: Entry, k: nat, q: string, ignore: string -> bool)
    requires d.Dir? && 0 < k <= |d.children|
    ensures q in ChildrenDirs(p, d, k, ignore) <==> q in ChildrenDirs(p, d, k - 1, ignore) || Reaches(p, d.children[k - 1], q, ignore)
    decreases d, k - 1
  {
    var c := d.children[k - 1];
    if c.Dir? && !ignore(c.name) {
      BuildableDirsFound(JoinPath(p, c.name), c, q, ignore);
    }
  }

  /** `q` is `p` or lies under it. */
  predicate Below(q: string, p: string) {
    q == p || StartsWith(q, p + "/")
  }

  lemma StartsWithTransitive(q: string, s: string, t: string)
    requires StartsWith(q, s) && StartsWith(s, t)
    ensures StartsWith(q, t)
  {
    assert q[..|t|] == q[..|s|][..|t|];
  }

  /** A directory found from `p` lies under `p`. */
  lemma {:induction false} FoundBelow(p: string, d: Entry, q: string, ignore: string -> bool)
    requires Found(p, d, q, ignore)
    ensures Below(q, p)
    decreases d
  {
    if !IsDirBuildable(d) {
      var i :| 0 <= i < |d.children| && Reaches(p, d.children[i], q, ignore);
      var c := d.children[i];
      var cp := JoinPath(p, c.name);
      FoundBelow(cp, c, q, ignore);
      assert StartsWith(cp, p + "/") by {
        assert cp[..|p + "/"|] == p + "/";
      }
      if q != cp {
        assert StartsWith(cp + "/", p + "/") by {
          assert (cp + "/")[..|p + "/"|] == p + "/";
        }
        StartsWithTransitive(q, cp + "/", p + "/");
      }
    }
  }

  /** Every directory the search lists lies under the starting directory. */
  lemma ResultsBelowStart(p: string, d: Entry, ignore: string -> bool)
    requires d.Dir?
    ensures forall q :: q in BuildableDirs(p, d, ignore) ==> Below(q, p)
  {
    forall q | q in BuildableDirs(p, d, ignore) ensures Below(q, p) {
      BuildableDirsFound(p, d, q, ignore);
      FoundBelow(p, d, q, ignore);
    }
  }

  // ---------------------------------------------------------------------------
  // No directory is listed twice

  /** Names in one directory are distinct and contain no separator, as a file
      system guarantees. */
  ghost predicate WellNamed(e: Entry)
    decreases e
  {
    e.Dir? ==>
      && (forall i, j :: 0 <= i < j < |e.children| ==> e.children[i].name != e.children[j].name)
      && (forall i :: 0 <= i < |e.children| ==> '/' !in e.children[i].name && WellNamed(e.children[i]))
  }

  ghost predicate NoDuplicates<T>(s: seq<T>) {
    forall i, j :: 0 <= i < j < |s| ==> s[i] != s[j]
  }

  /** A path under the longer of two different sibling names `b` is not
      under the shorter one `a`. */
  lemma SiblingsApartOrdered(p: string, a: string, b: string, x: string)
    requires a != b && '/' !in b && |a| <= |b|
    ensures Below(x, JoinPath(p, b)) ==> !Below(x, JoinPath(p, a))
  {
    var pa, pb := JoinPath(p, a), JoinPath(p, b);
    if Below(x, pb) {
      assert x[..|pb|] == pb by {
        if x != pb {
          assert x[..|pb + "/"|][..|pb|] == x[..|pb|];
        }
      }
      if |a| == |b| {
        assert pa != pb by {
          assert a == pa[|p| + 1..] && b == pb[|p| + 1..];
        }
        assert x[..|pa|] != pa;
      } else {
        assert x[|pa|] == b[|a|];
        assert x[..|pa + "/"|][|pa|] != (pa + "/")[|pa|];
      }
    }
  }

  /** Paths under two different siblings are different. */
  lemma SiblingsApart(p: string, a: string, b: string, x: string)
    requires a != b && '/' !in a && '/' !in b
    requires Below(x, JoinPath(p, a))
    ensures !Below(x, JoinPath(p, b))
  {
    if |a| <= |b| {
      SiblingsApartOrdered(p, a, b, x);
    } else {
      SiblingsApartOrdered(p, b, a, x);
    }
  }

  /** In a well-named tree the search lists no directory twice. */
  lemma {:induction false} BuildableDirsDistinct(p: string, d: Entry, ignore: string -> bool)
    requires d.Dir? && WellNamed(d)
    ensures NoDuplicates(BuildableDirs(p, d, ignore))
    decreases d, |d.children| + 1
  {
    if !IsDirBuildable(d) {
      ChildrenDirsDistinct(p, d, |d.children|, ignore);
    }
  }

  lemma {:induction false} ChildrenDirsDistinct(p: string, d: Entry, k: nat, ignore: string -> bool)
    requires d.Dir? && WellNamed(d) && k <= |d.children|
    ensures NoDuplicates(ChildrenDirs(p, d, k, ignore))
    decreases d, k
  {
    if k > 0 {
      ChildrenDirsDistinct(p, d, k - 1, ignore);
      var c := d.children[k - 1];
      if c.Dir? && !ignore(c.name) {
        var cp := JoinPath(p, c.name);
        var before, last := ChildrenDirs(p, d, k - 1, ignore), BuildableDirs(cp, c, ignore);
        BuildableDirsDistinct(cp, c, ignore);
        forall x | x in before ensures x !in last {
          EarlierSiblingsApart(p, d, k, x, ignore);
        }
        ConcatDistinct(before, last);
      }
    }
  }

  /** What the first k - 1 children contribute is disjoint from what child k
      contributes. */
  lemma EarlierSiblingsApart(p: string, d: Entry, k: nat, x: string, ignore: string -> bool)
    requires d.Dir? && WellNamed(d) && 0 < k <= |d.children|
    requires d.children[k - 1].Dir? && x in ChildrenDirs(p, d, k - 1, ignore)
    ensures x !in BuildableDirs(JoinPath(p, d.children[k - 1].name), d.children[k - 1], ignore)
  {
    var c := d.children[k - 1];
    var cp := JoinPath(p, c.name);
    ChildrenDirsFound(p, d, k - 1, x, ignore);
    var i :| 0 <= i < k - 1 && Reaches(p, d.children[i], x, ignore);
    var ci := d.children[i];
    assert ci.name != c.name && '/' !in ci.name && '/' !in c.name;
    FoundBelow(JoinPath(p, ci.name), ci, x, ignore);
    SiblingsApart(p, ci.name, c.name, x);
    if x in BuildableDirs(cp, c, ignore) {
      BuildableDirsFound(cp, c, x, ignore);
      FoundBelow(cp, c, x, ignore);
    }
  }

  lemma ConcatDistinct<T>(a: seq<T>, b: seq<T>)
    requires NoDuplicates(a) && NoDuplicates(b)
    requires forall x :: x in a ==> x !in b
    ensures NoDuplicates(a + b)
  {
    forall i, j | 0 <= i < j < |a + b| ensures (a + b)[i] != (a + b)[j] {
      if i < |a| && j >= |a| {
        assert (a + b)[i] in a && (a + b)[j] == b[j - |a|];
      }
    }
  }
}
