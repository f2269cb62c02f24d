/** The parts of POSIX path handling the setup pipeline relies on:
    `os.path.dirname`, and how a path written relative to a tool's working
    directory names a file seen from the process's own directory. */
module PosixPath {

  /** Index of the last '/' in `p`, or -1 when there is none
      (`p.rfind('/')`). */
  function LastSlash(p: string): (i: int)
    ensures -1 <= i < |p|
    ensures i >= 0 ==> p[i] == '/'
    ensures forall j :: i < j < |p| ==> p[j] != '/'
  {
    if p == [] then -1
    else if p[|p| - 1] == '/' then |p| - 1
    else LastSlash(p[..|p| - 1])
  }

  predicate AllSlashes(h: string) {
    forall j :: 0 <= j < |h| ==> h[j] == '/'
  }

  /** `h.rstrip('/')`. */
  function RStripSlashes(h: string): (r: string)
    ensures r <= h
    ensures r == [] || r[|r| - 1] != '/'
    ensures forall j :: |r| <= j < |h| ==> h[j] == '/'
  {
    if h != [] && h[|h| - 1] == '/' then RStripSlashes(h[..|h| - 1]) else h
  }

  /** `os.path.dirname(p)` for POSIX: everything up to the last '/', with
      trailing slashes removed unless the head is made of slashes only. */
  function Dirname(p: string): (d: string)
    ensures d <= p
    ensures '/' !in p ==> d == []
  {
    var head := p[..LastSlash(p) + 1];
    if head != [] && !AllSlashes(head) then RStripSlashes(head) else head
  }

  /** The directory of a file named inside `dir` is `dir`. */
  lemma DirnameOfChild(dir: string, name: string)
    requires dir != [] && dir[|dir| - 1] != '/'
    requires '/' !in name
    ensures Dirname(dir + "/" + name) == dir
  {
    var p := dir + "/" + name;
    var i := LastSlash(p);
    assert p[|dir|] == '/';
    forall j | |dir| < j < |p| ensures p[j] != '/' {
      assert p[j] == name[j - |dir| - 1];
    }
    assert i == |dir|;
    var head := p[..i + 1];
    assert head == dir + "/";
    assert head[|dir| - 1] != '/';
    var r := RStripSlashes(head);
    assert |r| == |dir|;
  }

  /** A direct sub-directory of the process's directory: one component,
      neither "." nor "..". */
  predicate IsSubdirName(cwd: string) {
    cwd != [] && '/' !in cwd && cwd != "." && cwd != ".."
  }

  /** The path, relative to the process's directory, that the relative path
      `p` names for a process running in the sub-directory `cwd`: a leading
      "../" goes back up to the process's directory, anything else is
      taken inside `cwd`. This is the one assumption about how the
      operating system resolves paths that the setup pipeline relies on. */
  function FromSubdir(cwd: string, p: string): string
    requires IsSubdirName(cwd)
    requires p == [] || p[0] != '/'
  {
    if |p| >= 3 && p[..3] == "../" then p[3..] else cwd + "/" + p
  }

  /** Going up out of the sub-directory undoes the "../" prefix. */
  lemma FromSubdirParent(cwd: string, q: string)
    requires IsSubdirName(cwd)
    ensures FromSubdir(cwd, "../" + q) == q
  {
    assert ("../" + q)[..3] == "../";
    assert ("../" + q)[3..] == q;
  }
}
