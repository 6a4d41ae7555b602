/** POSIX paths as lists of segments, and the part of `path.join` the upload handler relies
    on: a relative name joined onto an absolute, normalised directory, where empty and `.`
    segments vanish and `..` removes the segment before it (never going above the root). */
module Paths {

  /** The pieces of `s` between slashes: "a/b" gives ["a", "b"], "" gives [""]. */
  function Split(s: string): (r: seq<string>)
    ensures |r| >= 1
    decreases |s|
  {
    if s == [] then [""]
    else
      var rest := Split(s[1..]);
      if s[0] == '/' then [""] + rest else [[s[0]] + rest[0]] + rest[1..]
  }

  /** A name without a slash is a single segment. */
  lemma {:induction false} SplitWithoutSlash(s: string)
    requires '/' !in s
    ensures Split(s) == [s]
    decreases |s|
  {
    if s != [] {
      assert forall i :: 0 <= i < |s| - 1 ==> s[1..][i] == s[i + 1];
      SplitWithoutSlash(s[1..]);
      assert [s[0]] + s[1..] == s;
    }
  }

  /** A slash after a slash-free prefix ends that prefix's segment. */
  lemma {:induction false} SplitAtSlash(a: string, b: string)
    requires '/' !in a
    ensures Split(a + "/" + b) == [a] + Split(b)
    decreases |a|
  {
    var s := a + "/" + b;
    if a == [] {
      assert s[0] == '/' && s[1..] == b;
    } else {
      assert s[0] == a[0] && s[1..] == a[1..] + "/" + b;
      assert forall i :: 0 <= i < |a| - 1 ==> a[1..][i] == a[i + 1];
      SplitAtSlash(a[1..], b);
      assert [a[0]] + a[1..] == a;
    }
  }

  /** `dir` with `segs` appended one at a time, as `path.join` normalises them. */
  function Resolve(dir: seq<string>, segs: seq<string>): seq<string>
    decreases |segs|
  {
    if segs == [] then dir
    else if segs[0] == "" || segs[0] == "." then Resolve(dir, segs[1..])
    else if segs[0] == ".." then Resolve(if dir == [] then [] else dir[..|dir| - 1], segs[1..])
    else Resolve(dir + [segs[0]], segs[1..])
  }

  /** `path.join(dir, name)` for an absolute, normalised `dir`. */
  function Join(dir: seq<string>, name: string): seq<string> {
    Resolve(dir, Split(name))
  }

  /** Whether `path` names something strictly inside `dir`. */
  predicate Inside(dir: seq<string>, path: seq<string>) {
    |path| > |dir| && path[..|dir|] == dir
  }

  /** A name with no slash that is neither empty, `.` nor `..` names an entry of the
      directory itself. */
  lemma JoinPlainName(dir: seq<string>, name: string)
    requires '/' !in name && name != "" && name != "." && name != ".."
    ensures Join(dir, name) == dir + [name]
    ensures Inside(dir, Join(dir, name))
  {
    SplitWithoutSlash(name);
    assert [name][1..] == [];
    assert Resolve(dir, [name]) == Resolve(dir + [name], []);
    assert (dir + [name])[..|dir|] == dir;
  }

  /** What follows the last slash of `s` (all of `s` when it has none). */
  function BaseName(s: string): (r: string)
    ensures '/' !in r
    ensures |r| <= |s| && r == s[|s| - |r|..]
    ensures '/' !in s ==> r == s
    decreases |s|
  {
    if '/' !in s then s else BaseName(s[1..])
  }
}
