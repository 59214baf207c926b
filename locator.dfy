/** `find_ffmpeg_path` and `get_ffmpeg_executable`: an environment override,
    then a walk from the module's directory up to (not including) the
    filesystem root looking for a project marker next to a bundled
    `ffmpeg/bin/ffmpeg.exe`, then the bare command name. */
module FfmpegLocator {
  import opened Results
  import opened Strings
  import opened Paths
  import opened Fs
  import opened AudioConfig

  const OverrideKey: string := "AI_SERVER_FFMPEG_PATH"
  const Executable: string := "ffmpeg.exe"
  const BareCommand: string := "ffmpeg"

  /** The files whose presence marks the project root, in search order. */
  const Markers: seq<string> := ["requirements.txt", "README.md", ".git"]

  /** An absolute directory as its components below the root; the root is []. */
  type Dir = seq<string>

  /** The components `os.path.abspath` can produce: non-empty, no '/'. */
  predicate ValidDir(d: Dir) {
    forall i :: 0 <= i < |d| ==> d[i] != "" && '/' !in d[i]
  }

  /** "/c1/.../cn" for the components c1 .. cn; "" for none. */
  function Slashed(d: Dir): Path
    decreases |d|
  {
    if |d| == 0 then "" else Slashed(d[..|d| - 1]) + "/" + d[|d| - 1]
  }

  /** The absolute path of `d`: "/" for the root. */
  function Render(d: Dir): Path {
    if |d| == 0 then "/" else Slashed(d)
  }

  /** The parent directory; the root is its own parent. */
  function ParentDir(d: Dir): Dir {
    if |d| == 0 then [] else d[..|d| - 1]
  }

  /** Rendering a child is `os.path.join` of the parent and the component. */
  lemma RenderJoin(d: Dir, c: string)
    requires ValidDir(d) && c != "" && '/' !in c
    ensures Render(d + [c]) == Join(Render(d), c)
  {
    assert (d + [c])[..|d|] == d;
    if |d| > 0 {
      var s := Slashed(d);
      var last := d[|d| - 1];
      assert last != "" && '/' !in last;
      assert s == Slashed(d[..|d| - 1]) + "/" + last;
      assert s[|s| - 1] == last[|last| - 1];
      assert last[|last| - 1] in last;
    }
  }

  /** A rendered path that is not the root does not end in '/'. */
  lemma SlashedLast(d: Dir)
    requires ValidDir(d) && |d| > 0
    ensures Slashed(d) != [] && Slashed(d)[|Slashed(d)| - 1] != '/'
  {
    var last := d[|d| - 1];
    assert last != "" && '/' !in last;
    assert last[|last| - 1] in last;
  }

  /** `os.path.dirname` of a rendered directory renders its parent, and only
      the root is its own parent, which is the `while` test of the walk. */
  lemma {:induction false} RenderDirname(d: Dir)
    requires ValidDir(d)
    ensures Dirname(Render(d)) == Render(ParentDir(d))
    ensures Render(ParentDir(d)) == Render(d) <==> |d| == 0
  {
    if |d| == 0 {
      assert LastIndex("/", '/') == 0;
      assert "/"[..1] == "/";
      assert AllSlashes("/");
    } else {
      var p := d[..|d| - 1];
      var last := d[|d| - 1];
      var a := Slashed(p) + "/";
      assert '/' !in last;
      assert Render(d) == a + last;
      LastIndexAppend(a, last, '/');
      assert LastIndex(a, '/') == |a| - 1;
      assert (a + last)[..|a|] == a;
      if |p| == 0 {
        assert a == "/";
        assert AllSlashes(a);
      } else {
        SlashedLast(p);
        assert a[|a| - 2] == Slashed(p)[|Slashed(p)| - 1];
        assert !AllSlashes(a);
        assert a[..|a| - 1] == Slashed(p);
        assert RStripSlashes(a) == Slashed(p);
      }
      assert |Render(ParentDir(d))| < |Render(d)|;
    }
  }

  /** The directories the walk visits, nearest the module first: the
      module's directory and each ancestor, stopping before the root. */
  function Ancestors(d: Dir): seq<Path>
    decreases |d|
  {
    if |d| == 0 then [] else [Render(d)] + Ancestors(ParentDir(d))
  }

  /** The `i`-th directory visited is `d` with `i` components removed. */
  lemma {:induction false} AncestorsAt(d: Dir, i: nat)
    requires i < |d|
    ensures |Ancestors(d)| == |d|
    ensures Ancestors(d)[i] == Render(d[..|d| - i])
    decreases |d|
  {
    if i > 0 {
      AncestorsAt(ParentDir(d), i - 1);
      assert ParentDir(d)[..|ParentDir(d)| - (i - 1)] == d[..|d| - i];
    } else {
      AncestorsLength(ParentDir(d));
      assert d[..|d|] == d;
    }
  }

  lemma {:induction false} AncestorsLength(d: Dir)
    ensures |Ancestors(d)| == |d|
    decreases |d|
  {
    if |d| > 0 {
      AncestorsLength(ParentDir(d));
    }
  }

  /** `os.path.join(dir, "ffmpeg", "bin")`, written as one join. */
  function BundledDir(dir: Path): Path {
    Join(dir, "ffmpeg/bin")
  }

  /** The bundled executable `os.path.join(ffmpeg_dir, "ffmpeg.exe")`. */
  function BundledEngine(dir: Path): Path {
    Join(dir, "ffmpeg/bin/ffmpeg.exe")
  }

  /** The one-join forms are the nested joins of `find_ffmpeg_path`. */
  lemma BundledPaths(dir: Path)
    ensures BundledDir(dir) == Join(Join(dir, "ffmpeg"), "bin")
    ensures BundledEngine(dir) == Join(BundledDir(dir), Executable)
  {
    var j := Join(dir, "ffmpeg");
    assert j[|j| - 1] == 'g';
    var k := Join(j, "bin");
    assert k[|k| - 1] == 'n';
    if |dir| == 0 || dir[|dir| - 1] == '/' {
      assert j + "/" + "bin" == dir + "ffmpeg/bin";
      assert k + "/" + Executable == dir + "ffmpeg/bin/ffmpeg.exe";
    } else {
      assert j + "/" + "bin" == dir + "/" + "ffmpeg/bin";
      assert k + "/" + Executable == dir + "/" + "ffmpeg/bin/ffmpeg.exe";
    }
  }

  /** The override is set, non-empty, and holds the executable. */
  predicate OverrideUsable(env: Env, fs: FileSystem)
    reads fs
  {
    OverrideKey in env && env[OverrideKey] != "" && fs.Exists(Join(env[OverrideKey], Executable))
  }

  predicate IsProjectRoot(fs: FileSystem, dir: Path)
    reads fs
  {
    exists i :: 0 <= i < |Markers| && fs.Exists(Join(dir, Markers[i]))
  }

  /** A project root with the executable bundled under it. */
  predicate HasBundledEngine(fs: FileSystem, dir: Path)
    reads fs
  {
    IsProjectRoot(fs, dir) && fs.Exists(BundledEngine(dir))
  }

  /** No ancestor of `moduleDir` is a project root bundling the engine. */
  predicate NoneQualifies(fs: FileSystem, moduleDir: Dir)
    reads fs
  {
    forall j :: 0 <= j < |Ancestors(moduleDir)| ==> !HasBundledEngine(fs, Ancestors(moduleDir)[j])
  }

  /** The `j`-th directory of the walk is the first to bundle the engine. */
  predicate FirstQualifying(fs: FileSystem, moduleDir: Dir, j: int)
    reads fs
  {
    && 0 <= j < |Ancestors(moduleDir)| && HasBundledEngine(fs, Ancestors(moduleDir)[j])
    && forall k :: 0 <= k < j ==> !HasBundledEngine(fs, Ancestors(moduleDir)[k])
  }

  /** `cmd` is the executable under the nearest ancestor of `moduleDir`
      that bundles one. */
  ghost predicate WalkFinds(fs: FileSystem, moduleDir: Dir, cmd: string)
    reads fs
  {
    exists j :: FirstQualifying(fs, moduleDir, j) && cmd == Join(BundledDir(Ancestors(moduleDir)[j]), Executable)
  }

  /** The command `get_ffmpeg_executable` settles on: the override's
      executable when it is usable, otherwise the bare name when no
      ancestor qualifies, otherwise the one the walk finds first. */
  ghost predicate LocatedEngine(env: Env, fs: FileSystem, moduleDir: Dir, cmd: string)
    reads fs
  {
    if OverrideUsable(env, fs) then cmd == Join(env[OverrideKey], Executable)
    else if NoneQualifies(fs, moduleDir) then cmd == BareCommand
    else WalkFinds(fs, moduleDir, cmd)
  }

  /** The inner `for search_file in [...]` loop of `find_ffmpeg_path`: it
      stops (`break`) at the first marker present. */
  method FindMarker(fs: FileSystem, dir: Path) returns (found: bool)
    ensures found <==> IsProjectRoot(fs, dir)
  {
    found := false;
    for i := 0 to |Markers|
      invariant forall m :: 0 <= m < i ==> !fs.Exists(Join(dir, Markers[m]))
    {
      if fs.Exists(Join(dir, Markers[i])) {
        found := true;
        break;
      }
    }
  }

  /** One step of the walk: a marker in `dir`, then the executable under
      `dir/ffmpeg/bin`. A root without the executable ends the marker
      search but not the walk. */
  method CheckLevel(fs: FileSystem, dir: Path) returns (found: bool)
    ensures found <==> HasBundledEngine(fs, dir)
  {
    var isRoot := FindMarker(fs, dir);
    found := false;
    if isRoot {
      var ffmpegDir := Join(Join(dir, "ffmpeg"), "bin");
      BundledPaths(dir);
      found := fs.Exists(Join(ffmpegDir, Executable));
    }
  }

  /** For each directory the walk visits, whether it has the bundled engine. */
  function Probe(fs: FileSystem, dirs: seq<Path>): (hits: seq<bool>)
    reads fs
    ensures |hits| == |dirs|
    ensures forall j :: 0 <= j < |dirs| ==> hits[j] == HasBundledEngine(fs, dirs[j])
  {
    seq(|dirs|, j requires 0 <= j < |dirs| reads fs => HasBundledEngine(fs, dirs[j]))
  }

  /** The walk as a function: the index of the first hit in `hits[i..]`. */
  function FirstHit(hits: seq<bool>, i: nat): (r: Option<nat>)
    requires i <= |hits|
    ensures r.Some? ==> i <= r.value < |hits|
    decreases |hits| - i
  {
    if i == |hits| then None
    else if hits[i] then Some(i)
    else FirstHit(hits, i + 1)
  }

  /** The walk finds nothing exactly when there is no hit. */
  lemma {:induction false} FirstHitNone(hits: seq<bool>, i: nat)
    requires i <= |hits|
    ensures FirstHit(hits, i).None? <==> forall j :: i <= j < |hits| ==> !hits[j]
    decreases |hits| - i
  {
    if i < |hits| {
      FirstHitNone(hits, i + 1);
    }
  }

  /** What the walk finds is a hit, and it is the first. */
  lemma {:induction false} FirstHitSome(hits: seq<bool>, i: nat)
    requires i <= |hits|
    requires FirstHit(hits, i).Some?
    ensures hits[FirstHit(hits, i).value]
    ensures forall j :: i <= j < FirstHit(hits, i).value ==> !hits[j]
    decreases |hits| - i
  {
    if !hits[i] {
      FirstHitSome(hits, i + 1);
    }
  }

  /** One step of the walk: a hit at `i` is what it finds, a miss sends
      it on to `i + 1`. */
  lemma FirstHitStep(hits: seq<bool>, i: nat)
    requires i < |hits|
    ensures hits[i] ==> FirstHit(hits, i) == Some(i)
    ensures !hits[i] ==> FirstHit(hits, i) == FirstHit(hits, i + 1)
  {
  }

  /** The `while` loop of `find_ffmpeg_path` over the directories it
      visits: `dirs[i]` is its `current_dir`, and `dirs` is
      `Ancestors(moduleDir)`, whose order `RenderDirname` justifies
      (`os.path.dirname` takes each entry to the next, and the loop test
      fails exactly at the root). */
  method WalkUp(fs: FileSystem, dirs: seq<Path>) returns (r: Option<Path>)
    ensures FirstHit(Probe(fs, dirs), 0).None? ==> r.None?
    ensures FirstHit(Probe(fs, dirs), 0).Some? ==>
      r == Some(BundledDir(dirs[FirstHit(Probe(fs, dirs), 0).value]))
  {
    ghost var hits := Probe(fs, dirs);
    var i := 0;
    while i < |dirs|
      invariant 0 <= i <= |dirs|
      invariant FirstHit(hits, 0) == FirstHit(hits, i)
      decreases |dirs| - i
    {
      var current := dirs[i];
      var found := CheckLevel(fs, current);
      assert found == hits[i];
      FirstHitStep(hits, i);
      if found {
        return Some(BundledDir(current));
      }
      i := i + 1;
    }
    return None;
  }

  /** The walk's first hit, read back over the directories: none exactly
      when no directory qualifies, and otherwise the first that does. */
  lemma WalkMeaning(fs: FileSystem, moduleDir: Dir)
    ensures FirstHit(Probe(fs, Ancestors(moduleDir)), 0).None? <==> NoneQualifies(fs, moduleDir)
    ensures FirstHit(Probe(fs, Ancestors(moduleDir)), 0).Some? ==>
      FirstQualifying(fs, moduleDir, FirstHit(Probe(fs, Ancestors(moduleDir)), 0).value)
  {
    var hits := Probe(fs, Ancestors(moduleDir));
    FirstHitNone(hits, 0);
    if FirstHit(hits, 0).Some? {
      FirstHitSome(hits, 0);
    }
  }

  /** `find_ffmpeg_path()` from the directory holding audio.py: the override
      first, then the walk. The probe of the system search path returns None
      on every branch and is left out. */
  method FindFfmpegPath(env: Env, fs: FileSystem, moduleDir: Dir) returns (r: Option<Path>)
    ensures OverrideUsable(env, fs) ==> r == Some(env[OverrideKey])
    ensures !OverrideUsable(env, fs) ==> (r.None? <==> NoneQualifies(fs, moduleDir))
    ensures !OverrideUsable(env, fs) && r.Some? ==>
      exists j :: FirstQualifying(fs, moduleDir, j) && r.value == BundledDir(Ancestors(moduleDir)[j])
  {
    var envPath := if OverrideKey in env then Some(env[OverrideKey]) else None;
    if envPath.Some? && envPath.value != "" && fs.Exists(Join(envPath.value, Executable)) {
      return envPath;
    }
    r := WalkUp(fs, Ancestors(moduleDir));
    WalkMeaning(fs, moduleDir);
  }

  /** A path joined onto the executable's name is never the bare name. */
  lemma JoinedNotBare(dir: Path)
    ensures EndsWith(Join(dir, Executable), Executable) && Join(dir, Executable) != BareCommand
  {
    JoinSuffix(dir, Executable);
  }

  /** A located command is the bare name exactly when no override is
      usable and no ancestor qualifies. */
  lemma LocatedBare(env: Env, fs: FileSystem, moduleDir: Dir, cmd: string)
    requires LocatedEngine(env, fs, moduleDir, cmd)
    ensures cmd == BareCommand <==> !OverrideUsable(env, fs) && NoneQualifies(fs, moduleDir)
  {
    if OverrideUsable(env, fs) {
      JoinedNotBare(env[OverrideKey]);
    } else if !NoneQualifies(fs, moduleDir) {
      var j :| FirstQualifying(fs, moduleDir, j) && cmd == Join(BundledDir(Ancestors(moduleDir)[j]), Executable);
      JoinedNotBare(BundledDir(Ancestors(moduleDir)[j]));
    }
  }

  /** Any other located command is an existing file named like the
      executable. */
  lemma LocatedExists(env: Env, fs: FileSystem, moduleDir: Dir, cmd: string)
    requires LocatedEngine(env, fs, moduleDir, cmd)
    ensures cmd != BareCommand ==> fs.Exists(cmd) && EndsWith(cmd, Executable)
  {
    if OverrideUsable(env, fs) {
      JoinedNotBare(env[OverrideKey]);
    } else if !NoneQualifies(fs, moduleDir) {
      var j :| FirstQualifying(fs, moduleDir, j) && cmd == Join(BundledDir(Ancestors(moduleDir)[j]), Executable);
      BundledPaths(Ancestors(moduleDir)[j]);
      JoinedNotBare(BundledDir(Ancestors(moduleDir)[j]));
    }
  }

  /** `get_ffmpeg_executable()`: the executable inside the directory found,
      or the bare name when nothing was found. */
  method GetFfmpegExecutable(env: Env, fs: FileSystem, moduleDir: Dir) returns (cmd: string)
    ensures cmd == BareCommand <==> !OverrideUsable(env, fs) && NoneQualifies(fs, moduleDir)
    ensures cmd != BareCommand ==> fs.Exists(cmd) && EndsWith(cmd, Executable)
    ensures OverrideUsable(env, fs) ==> cmd == Join(env[OverrideKey], Executable)
    ensures !OverrideUsable(env, fs) && cmd != BareCommand ==> WalkFinds(fs, moduleDir, cmd)
    ensures LocatedEngine(env, fs, moduleDir, cmd)
  {
    var found := FindFfmpegPath(env, fs, moduleDir);
    if found.Some? && found.value != "" {
      cmd := Join(found.value, Executable);
    } else {
      cmd := BareCommand;
    }
    if !OverrideUsable(env, fs) && found.Some? {
      ghost var j :| FirstQualifying(fs, moduleDir, j) && found.value == BundledDir(Ancestors(moduleDir)[j]);
      JoinSuffix(Ancestors(moduleDir)[j], "ffmpeg/bin");
      assert WalkFinds(fs, moduleDir, cmd);
    }
    LocatedBare(env, fs, moduleDir, cmd);
    LocatedExists(env, fs, moduleDir, cmd);
  }
}
