/** The part of the filesystem the SSH config generator touches: files with
    their text and directories, named by path. */
module Fs {

  /** A path as the text a `PathBuf` holds on a Unix-like system. */
  type Path = string

  /** `Path::join` on Unix: an absolute `name` replaces the base; otherwise a
      single '/' separates base and name unless the base is empty or already
      ends in one. */
  function Join(base: Path, name: string): (p: Path)
    ensures |name| <= |p| && p[|p| - |name|..] == name
    ensures (name == [] || name[0] != '/') ==> base <= p
    ensures name != [] && name[0] == '/' ==> p == name
  {
    if name != [] && name[0] == '/' then name
    else if base == [] || base[|base| - 1] == '/' then base + name
    else base + "/" + name
  }

  /** A snapshot of the filesystem: the text of every file and the set of
      directories. */
  datatype Disk = Disk(files: map<Path, string>, dirs: set<Path>) {

    /** `Path::exists`: a file or a directory is there. A path that does not
        exist reads as empty text. */
    predicate Exists(p: Path)
      ensures !Exists(p) ==> Content(p) == []
    {
      p in files || p in dirs
    }

    /** What a file opened with `create(true)` reads: its text, or nothing when
        it did not exist. */
    function Content(p: Path): string {
      if p in files then files[p] else []
    }
  }

  /** The filesystem, changed in place by the generator's steps. */
  class FileSystem {
    var files: map<Path, string>
    var dirs: set<Path>

    constructor (d: Disk)
      ensures Snapshot() == d
    {
      files := d.files;
      dirs := d.dirs;
    }

    function Snapshot(): Disk
      reads this
    {
      Disk(files, dirs)
    }

    predicate Exists(p: Path)
      reads this
    {
      Snapshot().Exists(p)
    }

    /** `OpenOptions::new().read(true).create(true)...open(p)` followed by
        reading the whole file: a missing file is created empty. */
    method OpenCreate(p: Path) returns (text: string)
      modifies this
      ensures text == old(Snapshot().Content(p))
      ensures files == old(files)[p := text]
      ensures dirs == old(dirs)
    {
      text := Snapshot().Content(p);
      files := files[p := text];
    }

    /** `write_all` on a file opened for appending. */
    method Append(p: Path, text: string)
      requires p in files
      modifies this
      ensures files == old(files)[p := old(files[p]) + text]
      ensures dirs == old(dirs)
    {
      files := files[p := files[p] + text];
    }

    /** `OpenOptions::new().write(true).create(true).truncate(true)` followed
        by `write_all`: whatever the file held is replaced. */
    method WriteTruncate(p: Path, text: string)
      modifies this
      ensures files == old(files)[p := text]
      ensures dirs == old(dirs)
    {
      files := files[p := text];
    }

    /** `create_dir_all` for the directory itself. */
    method CreateDirAll(p: Path)
      modifies this
      ensures dirs == old(dirs) + {p}
      ensures files == old(files)
    {
      dirs := dirs + {p};
    }

    /** The filesystem as an external process left it. */
    method Replace(d: Disk)
      modifies this
      ensures Snapshot() == d
    {
      files := d.files;
      dirs := d.dirs;
    }
  }
}
