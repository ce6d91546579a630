/** The download side of the transfer engine: Get reads a stored file chunk by chunk. */
module Transfer {
  import opened Wrappers
  import opened Errors
  import opened Text
  import opened FileIndex

  /** BYTES_IN_MEBIBYTE: the most bytes one GetFile request asks for. */
  const ChunkLimit := 1048576

  /** TLInputDocumentFileLocation, built by ChannelFileInfo.ToFileLocation. */
  datatype FileLocation = FileLocation(id: int, accessHash: int, version: int32)

  function LocationOf(rec: FileRecord): FileLocation
  {
    FileLocation(rec.documentId, rec.accessHash, rec.version)
  }

  /** What one GetFile request returns: some bytes, or an error. */
  datatype ChunkReply = Chunk(bytes: seq<byte>) | ChunkFault(error: Error)

  /** The remote file store: the reply to request number `attempt` (counted from 0 within
      one download) for the file at a location, from an offset, of at most ChunkLimit bytes. */
  type FileServer = (FileLocation, nat, int) -> ChunkReply

  /** The one error Get swallows and retries at the same offset: an InvalidOperationException
      whose message contains the packet-length text. */
  predicate IsRetried(e: Error)
  {
    e.InvalidOperation? && Contains(e.message, PacketLengthText)
  }

  /** What Get leaves behind: the bytes written to the output stream, and the exception that
      ended it, if any. */
  datatype Download = Download(written: seq<byte>, failure: Option<Error>)

  /** `d` preceded by bytes written earlier. */
  function After(earlier: seq<byte>, d: Download): Download
  {
    Download(earlier + d.written, d.failure)
  }

  /** The download loop of Get from `offset` on, request number `attempt` next, and at most
      `fuel` requests in all: while the offset is below the size, request a chunk there; write
      a returned chunk and advance the offset by its length; on the packet-length error try
      again at the same offset; on any other error stop with it. */
  function Fetch(server: FileServer, loc: FileLocation, size: int, offset: int, attempt: nat, fuel: nat): (d: Download)
    requires attempt <= fuel
    ensures d.failure.Some? ==> !IsRetried(d.failure.value)
    decreases fuel - attempt
  {
    if offset >= size then Download([], None)
    else if attempt == fuel then Download([], Some(Unfinished))
    else
      match server(loc, attempt, offset)
      case Chunk(bytes) => After(bytes, Fetch(server, loc, size, offset + |bytes|, attempt + 1, fuel))
      case ChunkFault(e) =>
        if IsRetried(e) then Fetch(server, loc, size, offset, attempt + 1, fuel)
        else Download([], Some(e))
  }

  /** The download loop of Get. */
  method DownloadChunks(server: FileServer, loc: FileLocation, size: int, fuel: nat)
    returns (written: seq<byte>, failure: Option<Error>)
    ensures Download(written, failure) == Fetch(server, loc, size, 0, 0, fuel)
    ensures failure.None? ==> |written| >= size
  {
    written := [];
    var currentOffset := 0;
    var attempt := 0;
    while currentOffset < size
      invariant attempt <= fuel
      invariant currentOffset == |written|
      invariant Fetch(server, loc, size, 0, 0, fuel) == After(written, Fetch(server, loc, size, currentOffset, attempt, fuel))
      decreases fuel - attempt
    {
      if attempt == fuel {
        return written, Some(Unfinished);
      }
      var reply := server(loc, attempt, currentOffset);
      ghost var rest := Fetch(server, loc, size, currentOffset, attempt, fuel);
      attempt := attempt + 1;
      match reply {
        case Chunk(bytes) =>
          assert written + (bytes + Fetch(server, loc, size, currentOffset + |bytes|, attempt, fuel).written)
              == (written + bytes) + Fetch(server, loc, size, currentOffset + |bytes|, attempt, fuel).written;
          written := written + bytes;
          currentOffset := currentOffset + |bytes|;
        case ChunkFault(e) =>
          if !IsRetried(e) {
            assert written + [] == written;
            return written, Some(e);
          }
      }
    }
    assert written + [] == written;
    return written, None;
  }

  /** Byte accounting: a download that ends without error has written at least the bytes
      from its offset up to the size; a download that starts at or past the size requests
      nothing and writes nothing. */
  lemma {:induction false} FetchAccounting(server: FileServer, loc: FileLocation, size: int, offset: int, attempt: nat, fuel: nat)
    requires attempt <= fuel
    ensures offset >= size ==> Fetch(server, loc, size, offset, attempt, fuel) == Download([], None)
    ensures Fetch(server, loc, size, offset, attempt, fuel).failure.None? ==>
              offset + |Fetch(server, loc, size, offset, attempt, fuel).written| >= size
    decreases fuel - attempt
  {
    if offset < size && attempt < fuel {
      match server(loc, attempt, offset)
      case Chunk(bytes) => FetchAccounting(server, loc, size, offset + |bytes|, attempt + 1, fuel);
      case ChunkFault(e) => FetchAccounting(server, loc, size, offset, attempt + 1, fuel);
    }
  }

  /** Error propagation: the packet-length error never ends a download; any other error that
      ends it is one the server returned to a request of this download. */
  lemma {:induction false} FetchFailures(server: FileServer, loc: FileLocation, size: int, offset: int, attempt: nat, fuel: nat)
    requires attempt <= fuel
    ensures var d := Fetch(server, loc, size, offset, attempt, fuel);
            d.failure.Some? ==>
              && !IsRetried(d.failure.value)
              && (d.failure.value == Unfinished
                  || exists k, off :: attempt <= k < fuel && server(loc, k, off) == ChunkFault(d.failure.value))
    decreases fuel - attempt
  {
    if offset < size && attempt < fuel {
      match server(loc, attempt, offset)
      case Chunk(bytes) => FetchFailures(server, loc, size, offset + |bytes|, attempt + 1, fuel);
      case ChunkFault(e) => FetchFailures(server, loc, size, offset, attempt + 1, fuel);
    }
  }

  function Min(a: int, b: int): int
  {
    if a <= b then a else b
  }

  /** The server holds `data` at `loc`: a request at an offset inside the data is answered
      with the bytes from that offset, ChunkLimit of them or up to the end, or fails with the
      retried packet-length error. */
  ghost predicate Serves(server: FileServer, loc: FileLocation, data: seq<byte>)
  {
    forall k: nat, off: int :: 0 <= off < |data| ==>
      server(loc, k, off) == Chunk(data[off..Min(off + ChunkLimit, |data|)])
      || (server(loc, k, off).ChunkFault? && IsRetried(server(loc, k, off).error))
  }

  /** Like Serves, with no failures at all. */
  ghost predicate ServesReliably(server: FileServer, loc: FileLocation, data: seq<byte>)
  {
    forall k: nat, off: int :: 0 <= off < |data| ==>
      server(loc, k, off) == Chunk(data[off..Min(off + ChunkLimit, |data|)])
  }

  /** Like Serves, except that a request may fail with any error: every chunk the server
      sends is the right one. */
  ghost predicate Delivers(server: FileServer, loc: FileLocation, data: seq<byte>)
  {
    forall k: nat, off: int :: 0 <= off < |data| ==>
      server(loc, k, off) == Chunk(data[off..Min(off + ChunkLimit, |data|)]) || server(loc, k, off).ChunkFault?
  }

  /** From a server that sends only right chunks, a download writes a prefix of the data
      from its offset, and all of it when it ends without error. */
  lemma {:induction false} FetchWritesPrefix(server: FileServer, loc: FileLocation, data: seq<byte>, offset: int, attempt: nat, fuel: nat)
    requires Delivers(server, loc, data)
    requires 0 <= offset <= |data| && attempt <= fuel
    ensures var d := Fetch(server, loc, |data|, offset, attempt, fuel);
            d.written <= data[offset..] && (d.failure.None? ==> d.written == data[offset..])
    decreases fuel - attempt
  {
    if offset < |data| && attempt < fuel {
      match server(loc, attempt, offset)
      case Chunk(bytes) =>
        var next := offset + |bytes|;
        assert bytes == data[offset..Min(offset + ChunkLimit, |data|)];
        FetchWritesPrefix(server, loc, data, next, attempt + 1, fuel);
        assert data[offset..] == bytes + data[next..];
      case ChunkFault(e) =>
        FetchWritesPrefix(server, loc, data, offset, attempt + 1, fuel);
    }
  }

  /** The number of requests a reliable server needs for `n` bytes. */
  function ChunksNeeded(n: int): nat
    decreases n
  {
    if n <= 0 then 0 else 1 + ChunksNeeded(n - ChunkLimit)
  }

  /** Round trip: from a server that holds `data`, the download writes a prefix of the data
      and, unless the model's bound on requests cut it short, all of it and nothing more. */
  lemma {:induction false} FetchRoundTrip(server: FileServer, loc: FileLocation, data: seq<byte>, offset: int, attempt: nat, fuel: nat)
    requires Serves(server, loc, data)
    requires 0 <= offset <= |data| && attempt <= fuel
    ensures var d := Fetch(server, loc, |data|, offset, attempt, fuel);
            || (d.failure.None? && d.written == data[offset..])
            || (d.failure == Some(Unfinished) && d.written <= data[offset..])
    decreases fuel - attempt
  {
    if offset < |data| && attempt < fuel {
      match server(loc, attempt, offset)
      case Chunk(bytes) =>
        var next := offset + |bytes|;
        assert bytes == data[offset..next];
        FetchRoundTrip(server, loc, data, next, attempt + 1, fuel);
        assert data[offset..] == bytes + data[next..];
      case ChunkFault(e) =>
        FetchRoundTrip(server, loc, data, offset, attempt + 1, fuel);
    }
  }

  /** With a server that never fails and enough requests allowed, the download writes
      exactly the data. */
  lemma {:induction false} FetchCompletes(server: FileServer, loc: FileLocation, data: seq<byte>, offset: int, attempt: nat, fuel: nat)
    requires ServesReliably(server, loc, data)
    requires 0 <= offset <= |data| && attempt <= fuel
    requires fuel - attempt >= ChunksNeeded(|data| - offset)
    ensures Fetch(server, loc, |data|, offset, attempt, fuel) == Download(data[offset..], None)
    decreases fuel - attempt
  {
    if offset < |data| {
      var next := Min(offset + ChunkLimit, |data|);
      assert server(loc, attempt, offset) == Chunk(data[offset..next]);
      assert ChunksNeeded(|data| - next) <= ChunksNeeded(|data| - offset) - 1;
      FetchCompletes(server, loc, data, next, attempt + 1, fuel);
      assert data[offset..] == data[offset..next] + data[next..];
    }
  }

  /** Get as a whole, given the listing it starts from: the first record with the name
      (Enumerable.First, which throws when there is none), then the download of that record's
      document up to its size. */
  function GetFile(listing: Result<seq<FileRecord>, Error>, name: string, server: FileServer, fuel: nat): (d: Download)
    ensures listing.Failure? ==> d == Download([], Some(listing.error))
    ensures d.failure.None? ==> listing.Success? && FirstNamed(listing.value, name).Some?
  {
    match listing
    case Failure(e) => Download([], Some(e))
    case Success(records) =>
      match FirstNamed(records, name)
      case None => Download([], Some(InvalidOperation(NoMatchingElement)))
      case Some(rec) => Fetch(server, LocationOf(rec), rec.size, 0, 0, fuel)
  }

  /** Put-then-get round trip: when the first record named `name` is the one whose document
      the server holds, and its size is the data's length, Get writes exactly the data, given
      enough requests; a name that no record has fails with the error of Enumerable.First and
      writes nothing. */
  lemma GetRoundTrip(records: seq<FileRecord>, name: string, server: FileServer, data: seq<byte>, fuel: nat)
    ensures FirstNamed(records, name).None? ==>
              GetFile(Success(records), name, server, fuel) == Download([], Some(InvalidOperation(NoMatchingElement)))
    ensures var first := FirstNamed(records, name);
            first.Some? && first.value.size as int == |data| && ServesReliably(server, LocationOf(first.value), data)
            && fuel >= ChunksNeeded(|data|) ==>
              GetFile(Success(records), name, server, fuel) == Download(data, None)
  {
    var first := FirstNamed(records, name);
    if first.Some? && first.value.size as int == |data| && ServesReliably(server, LocationOf(first.value), data)
       && fuel >= ChunksNeeded(|data|) {
      FetchCompletes(server, LocationOf(first.value), data, 0, 0, fuel);
    }
  }
}
