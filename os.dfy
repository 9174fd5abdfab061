/** The filesystem as the program sees it through os, os.path, open() and
    tempfile.mkdtemp: which paths are files and with what bytes, which are
    directories and what they list, and how many temporary directories the
    run has made. */
module Os {
  import opened Wrappers
  import opened Paths
  import opened Errors

  type Bytes = seq<bv8>

  /** A snapshot of the filesystem. A directory's listing is kept in the order
      os.listdir returns it; listings change only where a directory is made
      or an external tool writes into it. */
  datatype Disk = Disk(files: map<Path, Bytes>, dirs: map<Path, seq<Name>>, temps: nat)

  /** What an operation returned or raised, and the filesystem afterwards. */
  datatype Outcome<T> = Outcome(result: Result<T, Error>, disk: Disk)

  /** Nothing the program does deletes: every file and directory of `d` is
      still there in `e`, and the temporary-directory count has not gone down. */
  predicate Extends(d: Disk, e: Disk)
  {
    d.files.Keys <= e.files.Keys && d.dirs.Keys <= e.dirs.Keys && d.temps <= e.temps
  }

  /** What os.listdir returns for a directory, and [] for a missing one. */
  function Listing(d: Disk, p: Path): seq<Name>
  {
    if p in d.dirs then d.dirs[p] else []
  }

  /** os.makedirs on a path that does not exist yet: a new, empty directory. */
  function MakeDir(d: Disk, p: Path): Disk
  {
    d.(dirs := d.dirs[p := []])
  }

  /** tempfile.mkdtemp: the next temporary directory, empty. */
  function NewTemp(d: Disk): Disk
  {
    d.(dirs := d.dirs[Temp(d.temps) := []], temps := d.temps + 1)
  }

  /** open(p, 'wb') on a path that is not a directory: an empty file. */
  function Truncate(d: Disk, p: Path): Disk
  {
    d.(files := d.files[p := []])
  }

  /** f.write(bytes) on a file opened for writing. */
  function Append(d: Disk, p: Path, bytes: Bytes): Disk
    requires p in d.files
  {
    d.(files := d.files[p := d.files[p] + bytes])
  }

  /** An external tool that fills a directory, leaving `names` in it. */
  function Fill(d: Disk, p: Path, names: seq<Name>): Disk
  {
    d.(dirs := d.dirs[p := names])
  }

  /** An external tool that writes `names` into a directory next to what is there. */
  function AddEntries(d: Disk, p: Path, names: seq<Name>): Disk
  {
    d.(dirs := d.dirs[p := Listing(d, p) + names])
  }

  /** The live filesystem. Its methods are the os primitives the program calls;
      each states the new state as one of the functions above. */
  class FileSystem {
    var files: map<Path, Bytes>
    var dirs: map<Path, seq<Name>>
    var temps: nat

    function State(): Disk
      reads this
    {
      Disk(files, dirs, temps)
    }

    constructor (d: Disk)
      ensures State() == d
    {
      files, dirs, temps := d.files, d.dirs, d.temps;
    }

    /** os.path.isfile */
    predicate IsFile(p: Path)
      reads this
    {
      p in files
    }

    /** os.path.isdir */
    predicate IsDir(p: Path)
      reads this
    {
      p in dirs
    }

    /** os.listdir: the listing, or None where it raises (no such directory). */
    function ListDir(p: Path): (r: Option<seq<Name>>)
      reads this
      ensures r.Some? <==> p in dirs
      ensures r.Some? ==> r.value == Listing(State(), p)
    {
      if p in dirs then Some(dirs[p]) else None
    }

    /** os.makedirs: false where it raises FileExistsError. */
    method MakeDirs(p: Path) returns (ok: bool)
      modifies this
      ensures ok <==> p !in old(files) && p !in old(dirs)
      ensures State() == if ok then MakeDir(old(State()), p) else old(State())
    {
      ok := p !in files && p !in dirs;
      if ok {
        dirs := dirs[p := []];
      }
    }

    /** tempfile.mkdtemp */
    method MakeTemp() returns (p: Path)
      modifies this
      ensures p == Temp(old(temps))
      ensures State() == NewTemp(old(State()))
    {
      p := Temp(temps);
      dirs := dirs[p := []];
      temps := temps + 1;
    }

    /** open(p, 'wb'): false where it raises IsADirectoryError. */
    method Open(p: Path) returns (ok: bool)
      modifies this
      ensures ok <==> p !in old(dirs)
      ensures State() == if ok then Truncate(old(State()), p) else old(State())
    {
      ok := p !in dirs;
      if ok {
        files := files[p := []];
      }
    }

    /** f.write(bytes) */
    method Write(p: Path, bytes: Bytes)
      requires p in files
      modifies this
      ensures State() == Append(old(State()), p, bytes)
    {
      files := files[p := files[p] + bytes];
    }

    /** The effect of a tool that extracts into directory `p`. */
    method FillDir(p: Path, names: seq<Name>)
      modifies this
      ensures State() == Fill(old(State()), p, names)
    {
      dirs := dirs[p := names];
    }

    /** The effect of a tool that adds `names` to directory `p`. */
    method AddToDir(p: Path, names: seq<Name>)
      modifies this
      ensures State() == AddEntries(old(State()), p, names)
    {
      dirs := dirs[p := Listing(State(), p) + names];
    }
  }
}
