/** Cleaned slash-separated paths, as path/filepath produces them for a directory and one component. */
module Paths {

  predicate IsComponent(name: string) {
    name != "" && '/' !in name
  }

  /** filepath.Join of a cleaned directory and one component. */
  function Join(dir: string, name: string): string {
    dir + "/" + name
  }

  /** `path` is `root` or lies below it, so os.RemoveAll(root) removes it. */
  predicate Under(path: string, root: string) {
    path == root || (|root| < |path| && path[..|root|] == root && path[|root|] == '/')
  }

  /** The position after the last slash, 0 when there is none. */
  function BaseStart(path: string): (i: nat)
    ensures i <= |path|
  {
    if path == "" || path[|path| - 1] == '/' then |path| else BaseStart(path[..|path| - 1])
  }

  /** filepath.Base of a cleaned path. */
  function Base(path: string): string {
    path[BaseStart(path)..]
  }

  /** filepath.Dir of a cleaned path that holds a slash. */
  function Dir(path: string): string {
    var i := BaseStart(path);
    if i == 0 then "" else path[..i - 1]
  }

  lemma {:induction false} BaseStartJoin(dir: string, name: string)
    requires '/' !in name
    ensures BaseStart(Join(dir, name)) == |dir| + 1
  {
    var path := Join(dir, name);
    if name != "" {
      var shorter := name[..|name| - 1];
      assert path[|path| - 1] == name[|name| - 1];
      assert path[..|path| - 1] == Join(dir, shorter);
      BaseStartJoin(dir, shorter);
    } else {
      assert path[|path| - 1] == '/';
    }
  }

  /** Base and Dir take a joined path apart again. */
  lemma JoinRoundTrip(dir: string, name: string)
    requires '/' !in name
    ensures Base(Join(dir, name)) == name
    ensures Dir(Join(dir, name)) == dir
  {
    BaseStartJoin(dir, name);
    assert Join(dir, name)[..|dir|] == dir;
    assert Join(dir, name)[|dir| + 1..] == name;
  }

  lemma JoinInjective(dir: string, a: string, b: string)
    requires Join(dir, a) == Join(dir, b)
    ensures a == b
  {
    assert Join(dir, a)[|dir| + 1..] == a;
    assert Join(dir, b)[|dir| + 1..] == b;
  }

  /** Two different entries of one directory are never nested in each other. */
  lemma SiblingsApart(dir: string, a: string, b: string)
    requires '/' !in a && '/' !in b && a != b
    ensures !Under(Join(dir, a), Join(dir, b))
  {
    var pa, pb := Join(dir, a), Join(dir, b);
    if pa == pb {
      JoinInjective(dir, a, b);
    } else if |pb| < |pa| {
      assert pa[|pb|] == a[|b|];
    }
  }
}
