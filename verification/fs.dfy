/**
 * The file system the store reads and writes, abstracted to a map from path
 * to entry. A path missing from the map does not exist (Node's ENOENT).
 */
module Fs {
  import opened Results

  type Path = string

  /** A Node error code such as "EACCES" or "EISDIR". */
  type ErrorCode = string

  const ENOENT: ErrorCode := "ENOENT"

  /** A readable file with its UTF-8 text, or a path every operation on which fails with `code`. */
  datatype Entry = File(content: string) | Faulty(code: ErrorCode)

  type Disk = map<Path, Entry>

  /** The disk after a write or an unlink, and the error that operation reported. */
  datatype Changed = Changed(disk: Disk, err: Option<ErrorCode>)

  /** `fs.readFile(p, 'utf8')`: the file's text, or the error code. */
  function Read(disk: Disk, p: Path): (r: Result<string, ErrorCode>)
    ensures r.Success? <==> p in disk && disk[p].File?
    ensures r.Success? ==> r.value == disk[p].content
    ensures p !in disk ==> r == Failure(ENOENT)
    ensures p in disk && disk[p].Faulty? ==> r == Failure(disk[p].code)
  {
    if p !in disk then Failure(ENOENT)
    else match disk[p]
      case File(text) => Success(text)
      case Faulty(code) => Failure(code)
  }

  /** `fs.writeFile(p, text)`: replaces the whole file, creating it if absent. */
  function Write(disk: Disk, p: Path, text: string): (r: Changed)
    ensures r.err.None? <==> !(p in disk && disk[p].Faulty?)
    ensures r.err.None? ==> Read(r.disk, p) == Success(text)
    ensures r.err.None? ==> forall q :: q != p ==> Read(r.disk, q) == Read(disk, q)
    ensures r.err.Some? ==> r.disk == disk
  {
    if p in disk && disk[p].Faulty? then Changed(disk, Some(disk[p].code))
    else Changed(disk[p := File(text)], None)
  }

  /** `fs.unlink(p)`: removes an existing file; a missing path is an ENOENT error. */
  function Unlink(disk: Disk, p: Path): (r: Changed)
    ensures r.err.None? <==> p in disk && disk[p].File?
    ensures p !in disk ==> r.err == Some(ENOENT)
    ensures r.err.None? ==> Read(r.disk, p) == Failure(ENOENT)
    ensures r.err.None? ==> forall q :: q != p ==> Read(r.disk, q) == Read(disk, q)
    ensures r.err.Some? ==> r.disk == disk
  {
    if p !in disk then Changed(disk, Some(ENOENT))
    else match disk[p]
      case File(_) => Changed(disk - {p}, None)
      case Faulty(code) => Changed(disk, Some(code))
  }

  /** The file system as the running program sees it; `readCount` counts the reads issued so far. */
  class FileSystem {
    var disk: Disk
    ghost var readCount: nat

    constructor (disk: Disk)
      ensures this.disk == disk && readCount == 0
    {
      this.disk := disk;
      readCount := 0;
    }

    method ReadFile(p: Path) returns (r: Result<string, ErrorCode>)
      modifies this`readCount
      ensures r == Read(disk, p)
      ensures readCount == old(readCount) + 1
    {
      r := Read(disk, p);
      readCount := readCount + 1;
    }

    method WriteFile(p: Path, text: string) returns (err: Option<ErrorCode>)
      modifies this`disk
      ensures Changed(disk, err) == Write(old(disk), p, text)
    {
      var c := Write(disk, p, text);
      disk, err := c.disk, c.err;
    }

    method UnlinkFile(p: Path) returns (err: Option<ErrorCode>)
      modifies this`disk
      ensures Changed(disk, err) == Unlink(old(disk), p)
    {
      var c := Unlink(disk, p);
      disk, err := c.disk, c.err;
    }
  }
}
