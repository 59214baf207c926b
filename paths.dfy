/** POSIX path arithmetic as Python's `posixpath` does it: `join`,
    `dirname`, `basename` and the root part of `splitext`. */
module Paths {
  import opened Strings

  type Path = string

  /** `p.rfind(c)`: the index of the last `c`, or -1. */
  function LastIndex(p: string, c: char): (r: int)
    ensures -1 <= r < |p|
    ensures r >= 0 ==> p[r] == c
    ensures forall j :: r < j < |p| ==> p[j] != c
    decreases |p|
  {
    if p == [] then -1
    else if p[|p| - 1] == c then |p| - 1
    else LastIndex(p[..|p| - 1], c)
  }

  lemma {:induction false} LastIndexAppend(a: string, b: string, c: char)
    requires c !in b
    ensures LastIndex(a + b, c) == LastIndex(a, c)
    decreases |b|
  {
    if b != [] {
      var ab := a + b;
      assert ab[|ab| - 1] == b[|b| - 1] && b[|b| - 1] in b;
      assert forall x :: x in b[..|b| - 1] ==> x in b;
      assert ab[..|ab| - 1] == a + b[..|b| - 1];
      LastIndexAppend(a, b[..|b| - 1], c);
      assert ab != [] && ab[|ab| - 1] != c;
      assert LastIndex(ab, c) == LastIndex(ab[..|ab| - 1], c);
    } else {
      assert a + b == a;
    }
  }

  /** `os.path.join(a, b)`. */
  function Join(a: Path, b: Path): Path {
    if |b| > 0 && b[0] == '/' then b
    else if |a| == 0 || a[|a| - 1] == '/' then a + b
    else a + "/" + b
  }

  /** The joined path ends with what was joined on. */
  lemma JoinSuffix(a: Path, b: Path)
    ensures EndsWith(Join(a, b), b)
    ensures b != "" ==> Join(a, b) != ""
  {
    EndsWithAppend(a, b);
    EndsWithAppend(a + "/", b);
    if |b| > 0 && b[0] == '/' {
      assert b == [] + b;
      EndsWithAppend([], b);
    }
  }

  predicate AllSlashes(s: string) { forall i :: 0 <= i < |s| ==> s[i] == '/' }

  function RStripSlashes(s: string): (r: string)
    ensures |r| <= |s|
    decreases |s|
  {
    if s != [] && s[|s| - 1] == '/' then RStripSlashes(s[..|s| - 1]) else s
  }

  /** `os.path.basename(p)`: what follows the last '/'. */
  function Basename(p: Path): (r: Path)
    ensures '/' !in r
    ensures EndsWith(p, r)
  {
    var i := LastIndex(p, '/') + 1;
    assert forall k :: 0 <= k < |p[i..]| ==> p[i..][k] == p[i + k];
    p[i..]
  }

  /** `os.path.dirname(p)`: what precedes the last '/', trailing slashes
      removed unless it is all slashes; "" for a bare file name. */
  function Dirname(p: Path): (r: Path)
    ensures '/' !in p ==> r == ""
  {
    var head := p[..LastIndex(p, '/') + 1];
    if head != [] && !AllSlashes(head) then RStripSlashes(head) else head
  }

  /** `os.path.splitext(p)[0]`: `p` without its extension, where a leading
      run of dots in the last component never starts an extension. */
  function SplitextRoot(p: Path): (r: Path)
    ensures |r| <= |p| && r == p[..|r|]
  {
    var sep := LastIndex(p, '/');
    var dot := LastIndex(p, '.');
    if dot > sep && exists j :: sep + 1 <= j < dot && p[j] != '.' then p[..dot] else p
  }

  /** `os.path.splitext(os.path.basename(p))[0]`. */
  function Stem(p: Path): Path {
    SplitextRoot(Basename(p))
  }

  /** The stem of `dir/name.ext` is `name` whenever `name` is not made of
      dots alone and the extension holds no dot. */
  lemma StemOfFileName(dir: Path, name: string, ext: string)
    requires '/' !in name && '/' !in ext && '.' !in ext
    requires exists j :: 0 <= j < |name| && name[j] != '.'
    ensures Stem(dir + "/" + name + "." + ext) == name
  {
    var file := name + "." + ext;
    var p := (dir + "/") + file;
    assert dir + "/" + name + "." + ext == p;
    assert '/' !in file by {
      forall k | 0 <= k < |file| ensures file[k] != '/' {
        if k < |name| { assert file[k] == name[k]; }
        else if k > |name| { assert file[k] == ext[k - |name| - 1]; }
      }
    }
    LastIndexAppend(dir + "/", file, '/');
    assert p[|dir| + 1..] == file;
    assert Basename(p) == file;
    LastIndexAppend(name + ".", ext, '.');
    assert (name + ".") + ext == file;
    LastIndexAppend(name, "", '/');
    assert LastIndex(file, '/') == -1;
    assert LastIndex(file, '.') == |name|;
    var j :| 0 <= j < |name| && name[j] != '.';
    assert file[j] == name[j];
    assert file[..|name|] == name;
  }

  /** The stem holds no separator. */
  lemma StemNoSlash(p: Path)
    ensures '/' !in Stem(p)
  {
    var b := Basename(p);
    var r := SplitextRoot(b);
    assert r == b[..|r|];
    forall k | 0 <= k < |r| ensures r[k] != '/' {
      assert r[k] == b[k] && b[k] in b;
    }
  }

  /** `os.path.dirname` and `os.path.basename` of `dir/name`, for a
      directory that does not end in a separator and a plain name. */
  lemma DirnameOfChild(dir: Path, name: string)
    requires dir != "" && dir[|dir| - 1] != '/' && '/' !in name
    ensures Dirname(dir + "/" + name) == dir
    ensures Basename(dir + "/" + name) == name
  {
    var a := dir + "/";
    var p := a + name;
    assert dir + "/" + name == p;
    LastIndexAppend(a, name, '/');
    assert LastIndex(a, '/') == |dir|;
    assert p[..|a|] == a;
    assert p[|a|..] == name;
    assert a[|dir| - 1] == dir[|dir| - 1];
    assert !AllSlashes(a);
    assert a[..|a| - 1] == dir;
    assert RStripSlashes(a) == RStripSlashes(dir) == dir;
    assert Dirname(p) == RStripSlashes(a);
  }
}
