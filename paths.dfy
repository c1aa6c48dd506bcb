/**
 * The POSIX path arithmetic of Python's `os.path` that the listeners use
 * (`join`, `dirname`), and the existence probes (`exists`, `isdir`) against
 * a snapshot of the file system.
 */
module Paths {

  /** `os.path.join(a, b)`: an absolute `b` replaces `a`; otherwise one '/' separates them. */
  function Join(a: string, b: string): (r: string)
    ensures |b| > 0 && b[0] == '/' ==> r == b
    ensures !(|b| > 0 && b[0] == '/') ==>
      |a| + |b| <= |r| <= |a| + |b| + 1 && r[..|a|] == a && r[|r| - |b|..] == b
  {
    if |b| > 0 && b[0] == '/' then b
    else if a == [] || a[|a| - 1] == '/' then a + b
    else a + "/" + b
  }

  /** Index just past the last '/' in `p` (0 when there is none): Python's `p.rfind('/') + 1`. */
  function AfterLastSlash(p: string): (i: nat)
    ensures i <= |p|
    ensures i > 0 ==> p[i - 1] == '/'
    ensures forall j :: i <= j < |p| ==> p[j] != '/'
  {
    if p == [] then 0
    else if p[|p| - 1] == '/' then |p|
    else AfterLastSlash(p[..|p| - 1])
  }

  /** `s.rstrip('/')`. */
  function StripTrailingSlashes(s: string): (r: string)
    ensures |r| <= |s| && r == s[..|r|]
    ensures r == [] || r[|r| - 1] != '/'
    ensures forall j :: |r| <= j < |s| ==> s[j] == '/'
  {
    if s != [] && s[|s| - 1] == '/' then StripTrailingSlashes(s[..|s| - 1]) else s
  }

  predicate AllSlashes(s: string)
  {
    forall j :: 0 <= j < |s| ==> s[j] == '/'
  }

  /** `os.path.dirname(p)`: the head of `os.path.split(p)`, trailing slashes removed unless it is the root. */
  function Dirname(p: string): (r: string)
    ensures |r| <= AfterLastSlash(p) && r == p[..|r|]
    ensures AllSlashes(p[|r|..AfterLastSlash(p)])
    ensures r == [] || AllSlashes(r) || r[|r| - 1] != '/'
    ensures AllSlashes(p[..AfterLastSlash(p)]) ==> r == p[..AfterLastSlash(p)]
    ensures AfterLastSlash(p) > 0 ==> r != []
  {
    var head := p[..AfterLastSlash(p)];
    if head != [] && !AllSlashes(head) then StripTrailingSlashes(head) else head
  }

  lemma {:induction false} AfterLastSlashOfSlashFree(a: string, b: string)
    requires forall j :: 0 <= j < |b| ==> b[j] != '/'
    ensures AfterLastSlash(a + b) == AfterLastSlash(a)
    decreases |b|
  {
    if b != [] {
      var p := a + b;
      assert p[|p| - 1] == b[|b| - 1];
      assert p[..|p| - 1] == a + b[..|b| - 1];
      AfterLastSlashOfSlashFree(a, b[..|b| - 1]);
    } else {
      assert a + b == a;
    }
  }

  /** `os.path.basename(p)`: what follows the last '/'. */
  function Basename(p: string): (r: string)
    ensures r == p[AfterLastSlash(p)..]
    ensures forall j :: 0 <= j < |r| ==> r[j] != '/'
  {
    p[AfterLastSlash(p)..]
  }

  /** A folder as `dirname` reports it: trailing slashes removed, unless it is empty or only slashes. */
  function DirForm(folder: string): (r: string)
    ensures r == folder || (!AllSlashes(folder) && r == StripTrailingSlashes(folder))
    ensures folder != [] && folder[|folder| - 1] != '/' ==> r == folder
  {
    if AllSlashes(folder) then folder else StripTrailingSlashes(folder)
  }

  /**
   * A slash-free name joined under a folder is a direct child of it: its
   * `dirname` is that folder and its `basename` is the name.
   */
  lemma ChildOf(folder: string, name: string)
    requires forall j :: 0 <= j < |name| ==> name[j] != '/'
    ensures Dirname(Join(folder, name)) == DirForm(folder)
    ensures Basename(Join(folder, name)) == name
  {
    assert name != [] ==> name[0] != '/';
    var prefix := if folder == [] || folder[|folder| - 1] == '/' then folder else folder + "/";
    var p := prefix + name;
    assert Join(folder, name) == p;
    AfterLastSlashOfSlashFree(prefix, name);
    if prefix != [] {
      assert prefix[|prefix| - 1] == '/';
    }
    assert AfterLastSlash(p) == |prefix|;
    assert p[..|prefix|] == prefix;
    assert p[|prefix|..] == name;
    if folder != [] && folder[|folder| - 1] != '/' {
      assert prefix[|folder| - 1] == folder[|folder| - 1];
      assert !AllSlashes(prefix);
      assert prefix[..|prefix| - 1] == folder;
    }
  }

  /**
   * A slash-free name joined under a folder that `dirname` produced has
   * that folder as its own `dirname`: `join(dirname(p), name)` is a sibling of `p`.
   */
  lemma SiblingOf(p: string, name: string)
    requires forall j :: 0 <= j < |name| ==> name[j] != '/'
    ensures Dirname(Join(Dirname(p), name)) == Dirname(p)
  {
    ChildOf(Dirname(p), name);
  }

  /** Which paths exist, and which of them are directories, at the moment a listener runs. */
  datatype FileSystem = FileSystem(files: set<string>, dirs: set<string>)
  {
    /** `os.path.exists`. */
    predicate Exists(p: string) { p in files || p in dirs }

    /** `os.path.isdir`. */
    predicate IsDir(p: string) { p in dirs }
  }
}
