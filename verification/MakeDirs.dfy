/** mount_mkdir and mount_mkparent: a directory is made after all those above it. */
module MakeDirs {
  import opened Options

  const PARENT_MODE := 493  // 0755

  /** strrchr, or -1. */
  function LastSlash(path: string): (n: int)
    ensures -1 <= n < |path| && (n >= 0 ==> path[n] == '/')
    ensures forall k | n < k < |path| :: path[k] != '/'
  {
    if path == [] then -1
    else if path[|path| - 1] == '/' then |path| - 1
    else LastSlash(path[..|path| - 1])
  }

  /** The path before the last slash, unless there is nothing before it. */
  function Parent(path: string): Option<string> {
    var n := LastSlash(path);
    if n > 0 then Some(path[..n]) else None
  }

  /** All paths above it, the shortest first. */
  function Above(path: string): seq<string>
    decreases |path|
  {
    if Parent(path).None? then [] else Above(Parent(path).value) + [Parent(path).value]
  }

  /** The directories that exist, the modes with which they were made, and what mkdir fails on otherwise. */
  class Filesystem {
    var dirs: map<string, nat>
    const refused: set<string>

    constructor (dirs: map<string, nat>, refused: set<string>)
      ensures this.dirs == dirs && this.refused == refused
    {
      this.dirs := dirs;
      this.refused := refused;
    }

    /** Whether mkdir finds the directory in which to make it. */
    predicate CanMake(path: string)
      reads this
    {
      Parent(path).None? || Parent(path).value in dirs
    }

    /** mkdir: a directory that exists is left alone, which is no failure. */
    method Mkdir(path: string, mode: nat) returns (ok: bool)
      requires CanMake(path)
      modifies this
      ensures ok <==> !Blocked(old(dirs), refused, path)
      ensures dirs == if path in old(dirs) || !ok then old(dirs) else old(dirs)[path := mode]
    {
      ok := path in dirs || path !in refused;
      if ok && path !in dirs {
        dirs := dirs[path := mode];
      }
    }

    /** mount_mkparent; after a failure the guest is powered off. */
    method MountMkparent(path: string) returns (ok: bool)
      modifies this
      ensures ok <==> FirstBlocked(old(dirs), refused, Above(path)) == |Above(path)|
      ensures dirs == Made(old(dirs), Above(path)[..FirstBlocked(old(dirs), refused, Above(path))])
      ensures ok ==> CanMake(path)
      decreases |path|, 0
    {
      hide Above, Made, FirstBlocked;
      ghost var all := Above(path);
      AboveIsMore(path);
      MadeNone(dirs);
      var parent := Parent(path);
      ok := true;
      if parent.Some? {
        MadeMore(dirs, Above(parent.value), parent.value);
        ok := MountMkdir(parent.value, PARENT_MODE);
        assert all[..|all|] == all;
      }
    }

    /**
      * mount_mkdir: every directory above the path is made before it, so none
      * of the mkdir calls lacks the directory in which to make its own.  It fails
      * if and only if one of them is missing and refused; those above that one
      * are made then.  Nothing else changes.
      */
    method MountMkdir(path: string, mode: nat) returns (ok: bool)
      modifies this
      ensures var all, first := Above(path) + [path], FirstBlocked(old(dirs), refused, Above(path) + [path]);
              && (ok <==> first == |all|)
              && (if ok then
                    var made := Made(old(dirs), Above(path)); dirs == if path in made then made else made[path := mode]
                  else
                    dirs == Made(old(dirs), all[..first]))
      ensures ok ==> path in dirs && (forall above | above in Above(path) :: above in dirs)
      decreases |path|, 1
    {
      ok := MountMkparent(path);
      ghost var above := Above(path);
      LastBlocked(old(dirs), refused, above + [path]);
      ghost var n := FirstBlocked(old(dirs), refused, above);
      assert above[..|above|] == above && (above + [path])[..|above|] == above;
      assert (above + [path])[..n] == above[..n];
      if ok {
        AllMade(old(dirs), above);
        PathNotAbove(path);
        OthersStay(old(dirs), above, path);
        ok := Mkdir(path, mode);
      }
    }
  }

  /** mkdir fails on it. */
  predicate Blocked(dirs: map<string, nat>, refused: set<string>, path: string) {
    path !in dirs && path in refused
  }

  /** The first path on which mkdir fails, or their number. */
  function FirstBlocked(dirs: map<string, nat>, refused: set<string>, paths: seq<string>): (n: nat)
    ensures n <= |paths|
  {
    if paths == [] then 0
    else
      var n := FirstBlocked(dirs, refused, paths[..|paths| - 1]);
      if n < |paths| - 1 || Blocked(dirs, refused, paths[|paths| - 1]) then n else |paths|
  }

  lemma {:induction false} FirstBlockedIs(dirs: map<string, nat>, refused: set<string>, paths: seq<string>)
    ensures var n := FirstBlocked(dirs, refused, paths);
            && (forall i | 0 <= i < n :: !Blocked(dirs, refused, paths[i]))
            && (n < |paths| ==> Blocked(dirs, refused, paths[n]))
  {
    if paths != [] {
      var front := paths[..|paths| - 1];
      FirstBlockedIs(dirs, refused, front);
    }
  }

  lemma LastBlocked(dirs: map<string, nat>, refused: set<string>, paths: seq<string>)
    requires paths != []
    ensures var front, last := paths[..|paths| - 1], |paths| - 1;
            FirstBlocked(dirs, refused, paths) ==
            if FirstBlocked(dirs, refused, front) < last || Blocked(dirs, refused, paths[last])
            then FirstBlocked(dirs, refused, front) else |paths|
  {
  }

  lemma PathNotAbove(path: string)
    ensures path !in Above(path)
  {
    forall i | 0 <= i < |Above(path)| ensures Above(path)[i] != path {
      AboveIs(path, i);
    }
  }

  lemma {:induction false} OthersStay(dirs: map<string, nat>, paths: seq<string>, other: string)
    requires other !in paths
    ensures other in Made(dirs, paths) <==> other in dirs
  {
    if paths != [] {
      OthersStay(dirs, paths[..|paths| - 1], other);
    }
  }

  /** These directories exist, or have been made. */
  function Made(dirs: map<string, nat>, paths: seq<string>): map<string, nat> {
    if paths == [] then dirs
    else
      var front := Made(dirs, paths[..|paths| - 1]);
      var last := paths[|paths| - 1];
      if last in front then front else front[last := PARENT_MODE]
  }

  lemma {:induction false} AllMade(dirs: map<string, nat>, paths: seq<string>)
    ensures forall p | p in paths :: p in Made(dirs, paths)
    ensures dirs.Keys <= Made(dirs, paths).Keys
    ensures forall p | p in dirs :: Made(dirs, paths)[p] == dirs[p]
  {
    if paths != [] {
      AllMade(dirs, paths[..|paths| - 1]);
      assert paths == paths[..|paths| - 1] + [paths[|paths| - 1]];
    }
  }

  lemma MadeNone(dirs: map<string, nat>)
    ensures Made(dirs, []) == dirs
  {
  }

  lemma MadeMore(dirs: map<string, nat>, paths: seq<string>, path: string)
    ensures var made := Made(dirs, paths);
            Made(dirs, paths + [path]) == if path in made then made else made[path := PARENT_MODE]
  {
    assert (paths + [path])[..|paths|] == paths;
  }

  lemma AboveIsMore(path: string)
    ensures Above(path) == if Parent(path).Some? then Above(Parent(path).value) + [Parent(path).value] else []
  {
  }

  /** What is above a path are its beginnings, each one shorter than the next, each above the next. */
  lemma {:induction false} AboveIs(path: string, i: nat)
    requires i < |Above(path)|
    ensures Above(path)[i] < path && path[|Above(path)[i]|] == '/'
    ensures Parent(if i + 1 < |Above(path)| then Above(path)[i + 1] else path) == Some(Above(path)[i])
    decreases |path|
  {
    var parent := Parent(path).value;
    assert parent < path;
    if i < |Above(parent)| {
      AboveIs(parent, i);
      assert Above(parent)[i] < parent;
      assert path[|Above(parent)[i]|] == parent[|Above(parent)[i]|];
    }
  }

  /** And they are all of them: every slash but a leading one ends one. */
  lemma {:induction false} AboveIsAll(path: string, n: nat)
    requires 0 < n < |path| && path[n] == '/'
    ensures path[..n] in Above(path)
    decreases |path|
  {
    var last := LastSlash(path);
    assert n <= last;
    if n < last {
      assert path[..last][..n] == path[..n];
      AboveIsAll(path[..last], n);
    }
  }
}
