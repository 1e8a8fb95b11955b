/** Reading a regular file in chunks and putting it together again on the server. */
module Downloads {
  import opened Wrappers
  import opened UploadManagers

  const MAX_CHUNK := 1024 * 1024

  datatype ReadReply = Chunk(data: Bytes, eof: bool, fileSize: nat) | ReadRefused(error: Error)

  datatype Outcome = Complete | LostContact | Refused(error: Error) | WriterFailed

  /** At most `length` bytes of `file` from `offset`; nothing past the end. */
  function Slice(file: Bytes, offset: nat, length: nat): Bytes {
    if offset >= |file| then [] else if |file| - offset < length then file[offset..] else file[offset..offset + length]
  }

  predicate RegularFile(disk: Disk, path: Option<Path>) {
    path.Some? && Look(disk, path.value).Holds?
  }

  function FileAt(disk: Disk, path: Option<Path>): Bytes
    requires RegularFile(disk, path)
  {
    Look(disk, path.value).bytes
  }

  /** Why a read is refused before the file is opened; the length is checked before the path is looked at. */
  function ReadError(disk: Disk, path: Option<Path>, length: nat): Option<Error> {
    if length == 0 || length > MAX_CHUNK then Some(InvalidRequest)
    else if path.None? then Some(InvalidPath)
    else if path.value !in disk.names then Some(NotFound)
    else if !Look(disk, path.value).Holds? then Some(NotAFile)
    else None
  }

  /**
   Fills the buffer with as many reads as it takes; each may return fewer bytes than asked for, and any may fail.
   `faulty` says that one did. A reply with data is the whole slice, and says end of file exactly when the slice is
   shorter than asked for.
   */
  method ReadChunk(disk: Disk, path: Option<Path>, offset: nat, length: nat) returns (r: ReadReply, ghost faulty: bool)
    ensures ReadError(disk, path, length).None? && !faulty ==> r.Chunk?
    ensures ReadError(disk, path, length).Some? ==> r == ReadRefused(ReadError(disk, path, length).value)
    ensures r.Chunk? ==>
      && ReadError(disk, path, length).None?
      && r.data == Slice(FileAt(disk, path), offset, length)
      && (r.eof <==> |FileAt(disk, path)| < offset + length)
      && r.fileSize == |FileAt(disk, path)|
  {
    if length == 0 || length > MAX_CHUNK {
      return ReadRefused(InvalidRequest), false;
    }
    if path.None? {
      return ReadRefused(InvalidPath), false;
    }
    if path.value !in disk.names {
      return ReadRefused(NotFound), false;
    }
    if !RegularFile(disk, path) {
      return ReadRefused(NotAFile), false;
    }
    var file := FileAt(disk, path);
    var buffer: Bytes := [];
    while true
      invariant |buffer| <= length
      invariant buffer == Slice(file, offset, |buffer|)
      decreases length - |buffer|
    {
      if * {
        return ReadRefused(IoError), true;
      }
      var at := offset + |buffer|;
      var limit := if at >= |file| then 0 else if |file| - at < length - |buffer| then |file| - at
        else length - |buffer|;
      if limit == 0 {
        break;
      }
      var n :| 1 <= n <= limit;
      buffer := buffer + file[at..at + n];
      if |buffer| == length {
        break;
      }
    }
    SliceIsWhole(file, offset, |buffer|, length);
    r, faulty := Chunk(buffer, |buffer| < length, |file|), false;
  }

  /** A slice that has been filled, or reaches the end of the file, is the whole slice. */
  lemma SliceIsWhole(file: Bytes, offset: nat, n: nat, length: nat)
    requires n == length || (n < length && offset + n >= |file|)
    ensures Slice(file, offset, n) == Slice(file, offset, length)
  {
  }

  /**
   Asks for chunk after chunk until one says end of file. Of an unchanging file what has been written is always a
   prefix, `onSize` is called at most once and with the file's length, and the download is complete only with the
   whole file, after one round trip per full chunk and one more. It is complete unless contact, the disk or the writer
   fails, which `faulty` says.
   */
  method Download(disk: Disk, path: Option<Path>, chunkSize: nat)
    returns (outcome: Outcome, written: Bytes, sizes: seq<nat>, rounds: nat, ghost faulty: bool)
    requires 0 < chunkSize <= MAX_CHUNK
    ensures !RegularFile(disk, path) ==> !outcome.Complete? && written == [] && sizes == []
    ensures RegularFile(disk, path) && !faulty ==> outcome.Complete?
    ensures !RegularFile(disk, path) && !faulty ==> outcome == Outcome.Refused(ReadError(disk, path, chunkSize).value)
    ensures RegularFile(disk, path) ==>
      && written <= FileAt(disk, path)
      && (sizes == [] || sizes == [|FileAt(disk, path)|])
      && (outcome.Complete? ==> written == FileAt(disk, path) && sizes == [|FileAt(disk, path)|]
                                && rounds == |FileAt(disk, path)| / chunkSize + 1)
  {
    written, sizes, rounds := [], [], 0;
    var offset := 0;
    while true
      invariant offset == |written| == FullChunks(rounds, chunkSize)
      invariant RegularFile(disk, path) ==>
        written <= FileAt(disk, path) && sizes == if rounds == 0 then [] else [|FileAt(disk, path)|]
      invariant !RegularFile(disk, path) ==> written == [] && sizes == []
      decreases if RegularFile(disk, path) then |FileAt(disk, path)| - |written| else 0
    {
      if * {
        return LostContact, written, sizes, rounds, true;
      }
      var reply, failed := ReadChunk(disk, path, offset, chunkSize);
      if reply.ReadRefused? {
        return Outcome.Refused(reply.error), written, sizes, rounds, failed;
      }
      ghost var file := FileAt(disk, path);
      if offset == 0 {
        sizes := sizes + [reply.fileSize];
      }
      if |reply.data| > 0 {
        if * {
          var k: nat :| k <= |reply.data|;
          AppendSlice(file, written, reply.data, chunkSize, k);
          return WriterFailed, written + reply.data[..k], sizes, rounds, true;
        }
        AppendSlice(file, written, reply.data, chunkSize, |reply.data|);
        written := written + reply.data;
        offset := offset + |reply.data|;
      }
      if reply.eof {
        LastChunk(rounds, chunkSize, |file|);
        return Complete, written, sizes, rounds + 1, false;
      }
      rounds := rounds + 1;
    }
  }

  lemma AppendSlice(file: Bytes, written: Bytes, data: Bytes, length: nat, k: nat)
    requires written <= file && data == Slice(file, |written|, length) && k <= |data|
    ensures written + data[..k] <= file && data[..|data|] == data
    ensures |data| == if |file| - |written| < length then |file| - |written| else length
  {
    assert written + data[..k] == file[..|written| + k];
  }

  /** The bytes of so many full chunks. */
  function FullChunks(rounds: nat, chunkSize: nat): nat {
    if rounds == 0 then 0 else FullChunks(rounds - 1, chunkSize) + chunkSize
  }

  lemma {:induction false} FullChunksIsProduct(rounds: nat, chunkSize: nat)
    ensures FullChunks(rounds, chunkSize) == rounds * chunkSize
  {
    if rounds > 0 {
      FullChunksIsProduct(rounds - 1, chunkSize);
    }
  }

  lemma LastChunk(rounds: nat, chunkSize: nat, size: nat)
    requires chunkSize > 0 && FullChunks(rounds, chunkSize) <= size < FullChunks(rounds, chunkSize) + chunkSize
    ensures size / chunkSize == rounds
  {
    FullChunksIsProduct(rounds, chunkSize);
    var whole := size / chunkSize;
    assert 0 <= size - whole * chunkSize < chunkSize;
    GapOfChunks(whole - rounds, chunkSize);
    assert (whole - rounds) * chunkSize == whole * chunkSize - rounds * chunkSize;
  }

  lemma GapOfChunks(gap: int, chunkSize: nat)
    ensures gap >= 1 ==> gap * chunkSize >= chunkSize
    ensures gap <= -1 ==> gap * chunkSize <= -1 * chunkSize
  {
  }
}
