/** The filesystem the core reads and writes: regular files with their
    bytes, directories, and a ghost log of the external engine's runs
    (so that contracts can say when no engine was started). */
module Fs {
  import opened Results
  import opened Strings
  import opened Paths

  type byte = x: int | 0 <= x < 256
  type Bytes = seq<byte>

  /** The OSErrors the core can meet: a missing path and a regular file
      standing where a directory is wanted. */
  datatype FsError = NoSuchFile(path: Path) | FileExists(path: Path)

  /** `os.makedirs(d, exist_ok=True)`: "" names no directory at all and
      fails; an existing regular file at `d` fails; otherwise `d` exists as
      a directory afterwards. */
  function MakeDirsResult(files: map<Path, Bytes>, dirs: set<Path>, d: Path): (r: Result<set<Path>, FsError>)
    ensures r.Ok? <==> d != "" && d !in files
    ensures r.Ok? ==> r.value == dirs + {d}
    ensures d == "" ==> r == Err(NoSuchFile(""))
  {
    if d == "" then Err(NoSuchFile(d))
    else if d in files then Err(FileExists(d))
    else Ok(dirs + {d})
  }

  /** The longest path in `used`; every fresh name is longer. */
  ghost function MaxLength(used: set<Path>): (m: nat)
    ensures forall p :: p in used ==> |p| <= m
    decreases used
  {
    if used == {} then 0
    else
      var p :| p in used;
      var rest := MaxLength(used - {p});
      if |p| > rest then |p| else rest
  }

  /** Some name with the given suffix is unused. */
  lemma FreshNameExists(used: set<Path>, suffix: string)
    ensures exists p :: p !in used && EndsWith(p, suffix)
  {
    var p := seq(MaxLength(used) + 1, _ => 't') + suffix;
    EndsWithAppend(seq(MaxLength(used) + 1, _ => 't'), suffix);
    assert p !in used;
  }

  class FileSystem {
    var files: map<Path, Bytes>
    var dirs: set<Path>
    ghost var runs: seq<seq<string>>

    constructor (files0: map<Path, Bytes>, dirs0: set<Path>)
      ensures files == files0 && dirs == dirs0 && runs == []
    {
      files, dirs, runs := files0, dirs0, [];
    }

    /** `os.path.exists(p)`. */
    predicate Exists(p: Path)
      reads this
    {
      p in files || p in dirs
    }

    /** `tempfile.mktemp(suffix)`: a name nobody uses, not created, also
        distinct from the names in `avoid`. */
    method FreshName(suffix: string, avoid: set<Path>) returns (p: Path)
      ensures !Exists(p) && p !in avoid && EndsWith(p, suffix)
    {
      FreshNameExists(files.Keys + dirs + avoid, suffix);
      p :| p !in files.Keys + dirs + avoid && EndsWith(p, suffix);
    }

    /** `tempfile.NamedTemporaryFile(suffix, delete=False)` followed by writing
        `data` and closing it: a new regular file under a fresh name. */
    method NewTempFile(suffix: string, data: Bytes, avoid: set<Path>) returns (p: Path)
      modifies this
      ensures !old(Exists(p)) && p !in avoid && EndsWith(p, suffix)
      ensures files == old(files)[p := data] && dirs == old(dirs) && runs == old(runs)
    {
      p := FreshName(suffix, avoid);
      files := files[p := data];
    }

    /** `open(p, 'rb').read()`. */
    method ReadFile(p: Path) returns (r: Result<Bytes, FsError>)
      ensures p in files ==> r == Ok(files[p])
      ensures p !in files ==> r == Err(NoSuchFile(p))
    {
      if p in files { r := Ok(files[p]); } else { r := Err(NoSuchFile(p)); }
    }

    /** Writing a whole regular file. */
    method WriteFile(p: Path, data: Bytes)
      modifies this
      ensures files == old(files)[p := data] && dirs == old(dirs) && runs == old(runs)
    {
      files := files[p := data];
    }

    /** `os.unlink(p)` on a regular file. */
    method Unlink(p: Path)
      requires p in files
      modifies this
      ensures files == old(files) - {p} && dirs == old(dirs) && runs == old(runs)
    {
      files := files - {p};
    }

    /** `os.makedirs(d, exist_ok=True)`. */
    method MakeDirs(d: Path) returns (r: Result<(), FsError>)
      modifies this
      ensures var m := MakeDirsResult(old(files), old(dirs), d);
        (m.Ok? ==> r == Ok(()) && dirs == m.value) && (m.Err? ==> r == Err(m.error) && dirs == old(dirs))
      ensures files == old(files) && runs == old(runs)
    {
      var m := MakeDirsResult(files, dirs, d);
      if m.Ok? { dirs := m.value; r := Ok(()); } else { r := Err(m.error); }
    }
  }
}
