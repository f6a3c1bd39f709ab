/** The part of Node's `path` module the generator uses: joining a directory
    and a file name, and the last component of a path. */
module Paths {
  import opened Strings

  /** `path.join(dir, name)` for a name that is one path component. An empty
      directory gives the name alone and a trailing `/` is not doubled. */
  function PathJoin(dir: string, name: string): string {
    if dir == "" then name
    else if dir[|dir| - 1] == '/' then dir + name
    else dir + "/" + name
  }

  /** The joined path starts with the directory and ends with the name. */
  lemma PathJoinEnds(dir: string, name: string)
    ensures StartsWith(PathJoin(dir, name), dir) && EndsWith(PathJoin(dir, name), name)
  {
    var r := PathJoin(dir, name);
    if dir != "" && dir[|dir| - 1] != '/' {
      assert r == dir + ("/" + name);
    }
  }

  /** Joining two names to the same directory gives the same path only for
      the same name. */
  lemma PathJoinInjective(dir: string, a: string, b: string)
    requires PathJoin(dir, a) == PathJoin(dir, b)
    ensures a == b
  {
    var pre := if dir == "" then "" else if dir[|dir| - 1] == '/' then dir else dir + "/";
    assert PathJoin(dir, a) == pre + a && PathJoin(dir, b) == pre + b;
    assert a == (pre + a)[|pre|..];
    assert b == (pre + b)[|pre|..];
  }

  /** `path.basename`: the text after the last `/`. */
  function BaseName(p: string): string {
    LastSegment(p, '/')
  }

  /** The joined path's last component is the name again. */
  lemma BaseNameOfJoin(dir: string, name: string)
    requires '/' !in name
    ensures BaseName(PathJoin(dir, name)) == name
  {
    if dir == "" {
      SplitNoSeparator(name, '/');
    } else if dir[|dir| - 1] == '/' {
      var a := dir[..|dir| - 1];
      assert dir == a + ['/'];
      assert dir + name == a + ['/'] + name;
      LastSegmentAfterSeparator(a, '/', name);
    } else {
      assert dir + "/" + name == dir + ['/'] + name;
      LastSegmentAfterSeparator(dir, '/', name);
    }
  }

  /** The position of the last `/` of a path that has one. */
  function LastSlash(p: string): (k: nat)
    requires '/' in p
    ensures k < |p| && p[k] == '/' && '/' !in p[k + 1..]
  {
    if p[|p| - 1] == '/' then |p| - 1
    else
      var q := p[..|p| - 1];
      assert '/' in q by {
        var i :| 0 <= i < |p| && p[i] == '/';
        assert q[i] == '/';
      }
      var k := LastSlash(q);
      assert p[k + 1..] == q[k + 1..] + [p[|p| - 1]];
      k
  }

  /** `path.dirname(p)` for a path without a trailing `/`: `.` when there is
      no `/`, `/` for a file in the root, else everything before the last `/`. */
  function Parent(p: string): (r: string)
    ensures '/' !in p ==> r == "."
  {
    if '/' !in p then "."
    else
      var k := LastSlash(p);
      if k == 0 then "/" else p[..k]
  }

  /** The last `/` of `a + "/" + b` is the one after `a` when `b` has none. */
  lemma {:induction false} LastSlashBefore(a: string, b: string)
    requires '/' !in b
    ensures LastSlash(a + "/" + b) == |a|
  {
    var p := a + "/" + b;
    if b != [] {
      assert p[|p| - 1] == b[|b| - 1];
      assert p[..|p| - 1] == a + "/" + b[..|b| - 1];
      LastSlashBefore(a, b[..|b| - 1]);
    }
  }

  /** The parent of a joined path is the directory it was joined to. */
  lemma ParentOfJoin(dir: string, name: string)
    requires '/' !in name && dir != "" && dir[|dir| - 1] != '/'
    ensures Parent(PathJoin(dir, name)) == dir
  {
    var p := dir + "/" + name;
    assert p[|dir|] == '/';
    LastSlashBefore(dir, name);
    assert p[..|dir|] == dir;
  }
}
