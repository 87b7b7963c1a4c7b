/** The entities shared by the parts of the server. */
module Types {

  type Byte = x: int | 0 <= x < 256

  type Bytes = seq<Byte>

  /** The part of the content that a copy which stops early has written. */
  function Copied(content: Bytes, n: nat): Bytes { if n <= |content| then content[..n] else content }

  /** A checksum, if there is one. It is taken as ideal: it determines what was hashed, and the checksum of a
      file's content never equals that of a path. */
  datatype Sum = Unset | OfContent(bytes: Bytes) | OfPath(path: string)

  /** A Unix time with the calendar day it falls on, as the number yyyymmdd. */
  datatype Stamp = Stamp(unix: int, day: nat)

  const STORE_DIR_NAME := "files"
  const LARGE_DIR_NAME := "haystack"

  /** OffSet of a whole file, and of a file taken over by migration. */
  const WHOLE: int := -1
  const MIGRATED: int := -2

  datatype FileInfo = FileInfo(
    name: string,
    reName: string,
    path: string,
    md5: Sum,
    size: int,
    peers: seq<string>,
    timeStamp: Stamp,
    offSet: int,
    retry: int)
  {
    function OutName(): string { if reName != "" then reName else name }

    /** GetFilePathByInfo(fileInfo, false) */
    function FullPath(): string { path + "/" + OutName() }

    /** GetFilePathByInfo(fileInfo, true) */
    function DiskPath(cfg: Config): string { cfg.dockerDir + FullPath() }
  }

  /** A *FileInfo: the record that a caller and its callee share. */
  class FileInfoRef {
    var info: FileInfo

    constructor (info: FileInfo)
      ensures this.info == info
    {
      this.info := info;
    }
  }

  datatype Config = Config(
    dockerDir: string,
    group: string,
    supportGroup: bool,
    peerId: string,
    host: string,
    peers: seq<string>,
    retryCount: int,
    defaultDownload: bool,
    distinct: bool,
    readOnly: bool)
}
