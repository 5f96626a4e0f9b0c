/** Fetching an asset over RPC: the provider serves bounded chunks, the consumer
    walks over the announced size and checks length and digest at the end. */
module AssetTransfer {
  import opened Wrappers

  type Byte = bv8
  type Digest = string

  const RPC_CHUNK_BYTES := 262144
  const MAX_CHUNK_LEN := 1048576
  const MAX_RPC_FETCH_BYTES := 67108864

  function Min(a: nat, b: nat): nat {
    if a < b then a else b
  }

  // ---- The provider ----

  datatype Chunk = Chunk(data: seq<Byte>, eof: bool)

  /** What the chunk request means: a non-empty piece of the file at the offset,
      cut at the length limit and at the end of the file. */
  function ChunkOf(file: seq<Byte>, offset: nat, want: nat): Result<Chunk, string> {
    if want == 0 then Err("len must be > 0")
    else if offset >= |file| then Err("offset beyond asset size")
    else
      var end := Min(offset + Min(want, MAX_CHUNK_LEN), |file|);
      Ok(Chunk(file[offset..end], end == |file|))
  }

  /** Main result: a chunk is refused exactly for an empty request or an offset at or
      beyond the end; else it holds the file from the offset on, as much as was asked
      for, at most 1 MiB and not beyond the end, and says so when the end is reached. */
  lemma ChunkIsAsAsked(file: seq<Byte>, offset: nat, want: nat)
    ensures var r := ChunkOf(file, offset, want);
            && (r == Err("len must be > 0") <==> want == 0)
            && (r == Err("offset beyond asset size") <==> want > 0 && offset >= |file|)
            && (r.Err? <==> want == 0 || offset >= |file|)
            && (r.Ok? ==>
                  var n := |r.value.data|;
                  && 0 < n && offset + n <= |file| && r.value.data == file[offset..offset + n]
                  && n <= want && n <= 1_048_576 && (n == want || n == 1_048_576 || offset + n == |file|)
                  && (r.value.eof <==> offset + n == |file|))
  {
    assert "len must be > 0"[0] != "offset beyond asset size"[0];
  }

  /** Reads may return fewer bytes than asked for; only none means the end. */
  method ReadSome(file: seq<Byte>, pos: nat, buf: array<Byte>, filled: nat) returns (n: nat)
    requires pos <= |file| && filled < buf.Length
    modifies buf
    ensures filled + n <= buf.Length && pos + n <= |file| && (n == 0 <==> pos == |file|)
    ensures buf[..filled] == old(buf[..filled]) && buf[filled..filled + n] == file[pos..pos + n]
  {
    var room := Min(buf.Length - filled, |file| - pos);
    n :| n <= room && (n == 0 <==> room == 0);
    forall i | 0 <= i < n {
      buf[filled + i] := file[pos + i];
    }
  }

  lemma SliceSplits(s: seq<Byte>, a: nat, b: nat, c: nat)
    requires a <= b <= c <= |s|
    ensures s[a..c] == s[a..b] + s[b..c]
  {
  }

  method ServeChunk(file: seq<Byte>, offset: nat, want: nat) returns (r: Result<Chunk, string>)
    ensures r == ChunkOf(file, offset, want)
  {
    if want == 0 { return Err("len must be > 0"); }
    var len := Min(want, MAX_CHUNK_LEN);
    if offset >= |file| { return Err("offset beyond asset size"); }
    var buf := new Byte[len];
    var filled := 0;
    while filled < len
      invariant filled <= len && offset + filled <= |file|
      invariant buf[..filled] == file[offset..offset + filled]
    {
      ghost var before := buf[..filled];
      var n := ReadSome(file, offset + filled, buf, filled);
      if n == 0 { break; }
      SliceSplits(buf[..], 0, filled, filled + n);
      assert buf[..][..filled] == before && buf[..][filled..filled + n] == buf[filled..filled + n];
      SliceSplits(file, offset, offset + filled, offset + filled + n);
      filled := filled + n;
    }
    r := Ok(Chunk(buf[..filled], offset + filled >= |file|));
  }

  // ---- The consumer ----

  datatype Meta = Meta(digest: Digest, size: nat)

  datatype FetchError = NoMeta | Drifted | TooLarge | ChunkRefused(offset: nat) | Incomplete | DigestMismatch

  type Server = (nat, nat) -> Result<seq<Byte>, string>

  /** The chunks from an offset on, put together. */
  function Collect(serve: Server, offset: nat, size: nat): Result<seq<Byte>, FetchError>
    decreases size - offset
  {
    if offset >= size then Ok([])
    else
      var len := Min(RPC_CHUNK_BYTES, size - offset);
      match serve(offset, len)
      case Err(_) => Err(ChunkRefused(offset))
      case Ok(data) =>
        match Collect(serve, offset + len, size)
        case Err(e) => Err(e)
        case Ok(rest) => Ok(data + rest)
  }

  /** The requests made when none is refused. */
  function Requests(offset: nat, size: nat): seq<(nat, nat)>
    decreases size - offset
  {
    if offset >= size then []
    else
      var len := Min(RPC_CHUNK_BYTES, size - offset);
      [(offset, len)] + Requests(offset + len, size)
  }

  function Fetch(meta: Option<Meta>, serve: Server, expected: Digest, sha: seq<Byte> -> Digest)
    : Result<seq<Byte>, FetchError>
  {
    if meta.None? then Err(NoMeta)
    else if meta.value.digest != expected then Err(Drifted)
    else if meta.value.size > MAX_RPC_FETCH_BYTES then Err(TooLarge)
    else
      match Collect(serve, 0, meta.value.size)
      case Err(e) => Err(e)
      case Ok(buf) =>
        if |buf| != meta.value.size then Err(Incomplete)
        else if sha(buf) != expected then Err(DigestMismatch)
        else Ok(buf)
  }

  method FetchViaRpc(meta: Option<Meta>, serve: Server, expected: Digest, sha: seq<Byte> -> Digest)
      returns (r: Result<seq<Byte>, FetchError>, requests: seq<(nat, nat)>)
    ensures r == Fetch(meta, serve, expected, sha)
    ensures requests <= if meta.Some? then Requests(0, meta.value.size) else []
    ensures r.Ok? ==> requests == Requests(0, meta.value.size)
  {
    hide Collect, Requests;
    requests := [];
    if meta.None? { return Err(NoMeta), requests; }
    var size := meta.value.size;
    if meta.value.digest != expected { return Err(Drifted), requests; }
    if size > MAX_RPC_FETCH_BYTES { return Err(TooLarge), requests; }
    r, requests := FetchChunks(serve, size);
    if r.Err? { return; }
    var buf := r.value;
    if |buf| != size { return Err(Incomplete), requests; }
    if sha(buf) != expected { return Err(DigestMismatch), requests; }
  }

  /** The loop over the chunks; a refused one ends it. */
  method FetchChunks(serve: Server, size: nat) returns (r: Result<seq<Byte>, FetchError>, requests: seq<(nat, nat)>)
    ensures r == Collect(serve, 0, size)
    ensures requests <= Requests(0, size) && (r.Ok? ==> requests == Requests(0, size))
  {
    hide Collect, Requests, Prepend, Min;
    var buf: seq<Byte> := [];
    var offset: nat := 0;
    requests := [];
    PrependNothing(Collect(serve, 0, size));
    while offset < size
      invariant offset <= size
      invariant requests + Requests(offset, size) == Requests(0, size)
      invariant Collect(serve, 0, size) == Prepend(buf, Collect(serve, offset, size))
    {
      var len := Min(RPC_CHUNK_BYTES, size - offset);
      ChunkFits(offset, size);
      RequestsStep(requests, offset, size);
      CollectStep(serve, buf, offset, size);
      requests := requests + [(offset, len)];
      var reply := serve(offset, len);
      if reply.Err? { return Err(ChunkRefused(offset)), requests; }
      buf := buf + reply.value;
      offset := offset + len;
    }
    EndOfWalk(serve, size);
    EndOfBuffer(buf);
    r := Ok(buf);
  }

  lemma ChunkFits(offset: nat, size: nat)
    requires offset < size
    ensures 0 < Min(RPC_CHUNK_BYTES, size - offset) <= size - offset
  {
  }

  function Prepend(buf: seq<Byte>, r: Result<seq<Byte>, FetchError>): Result<seq<Byte>, FetchError> {
    match r
    case Err(e) => Err(e)
    case Ok(rest) => Ok(buf + rest)
  }

  lemma PrependNothing(r: Result<seq<Byte>, FetchError>)
    ensures Prepend([], r) == r
  {
    if r.Ok? {
      assert [] + r.value == r.value;
    }
  }

  lemma PrependTwice(a: seq<Byte>, b: seq<Byte>, r: Result<seq<Byte>, FetchError>)
    ensures Prepend(a, Prepend(b, r)) == Prepend(a + b, r)
  {
    if r.Ok? {
      assert a + (b + r.value) == (a + b) + r.value;
    }
  }

  lemma EndOfBuffer(buf: seq<Byte>)
    ensures Prepend(buf, Ok([])) == Ok(buf)
  {
    assert buf + [] == buf;
  }

  lemma EndOfWalk(serve: Server, size: nat)
    ensures Collect(serve, size, size) == Ok([]) && Requests(size, size) == []
  {
  }

  lemma RequestsStep(sofar: seq<(nat, nat)>, offset: nat, size: nat)
    requires offset < size
    ensures var len := Min(RPC_CHUNK_BYTES, size - offset);
            sofar + Requests(offset, size) == sofar + [(offset, len)] + Requests(offset + len, size)
  {
  }

  lemma CollectStep(serve: Server, buf: seq<Byte>, offset: nat, size: nat)
    requires offset < size
    ensures var len := Min(RPC_CHUNK_BYTES, size - offset);
            Prepend(buf, Collect(serve, offset, size)) ==
              match serve(offset, len)
              case Err(_) => Err(ChunkRefused(offset))
              case Ok(data) => Prepend(buf + data, Collect(serve, offset + len, size))
  {
    var len := Min(RPC_CHUNK_BYTES, size - offset);
    if serve(offset, len).Ok? {
      PrependTwice(buf, serve(offset, len).value, Collect(serve, offset + len, size));
    }
  }

  // ---- What a fetch is worth ----

  predicate Refuses(serve: Server, size: nat, o: nat)
    requires o < size
  {
    serve(o, Min(262_144, size - o)).Err?
  }

  /** The chunk at offset o is the first that is refused. */
  ghost predicate IsRefusedAt(serve: Server, size: nat, from: nat, o: nat) {
    && from <= o < size && (o - from) % 262_144 == 0 && Refuses(serve, size, o)
    && forall q: nat :: from <= q < o && Refuses(serve, size, q) ==> (q - from) % 262_144 != 0
  }

  lemma {:induction false} CollectFailsAt(serve: Server, from: nat, size: nat)
    ensures var r := Collect(serve, from, size);
            && (r.Err? ==> r.error.ChunkRefused? && IsRefusedAt(serve, size, from, r.error.offset))
            && (r.Ok? ==> forall o :: !IsRefusedAt(serve, size, from, o))
    decreases size - from
  {
    if from < size {
      var next := from + Min(262_144, size - from);
      CollectFailsAt(serve, next, size);
      hide Collect;
      forall o | from < o < size && IsRefusedAt(serve, size, from, o) ensures IsRefusedAt(serve, size, next, o) {
        RefusedLater(serve, size, from, o);
      }
      if serve(from, next - from).Ok? {
        forall o | next <= o < size && IsRefusedAt(serve, size, next, o) ensures IsRefusedAt(serve, size, from, o) {
          RefusedSooner(serve, size, from, o);
        }
      }
    }
  }

  lemma RefusedLater(serve: Server, size: nat, from: nat, o: nat)
    requires from < o < size && IsRefusedAt(serve, size, from, o)
    ensures from + 262_144 < size && IsRefusedAt(serve, size, from + 262_144, o)
  {
  }

  lemma RefusedSooner(serve: Server, size: nat, from: nat, o: nat)
    requires from + 262_144 <= o && IsRefusedAt(serve, size, from + 262_144, o)
    requires serve(from, 262_144).Ok?
    ensures IsRefusedAt(serve, size, from, o)
  {
  }

  /** Main result: a fetch that fails says exactly what was wrong: no announcement, another
      digest announced than expected, more than 64 MiB announced, the first chunk that
      was refused, another length in all than announced, or another digest. */
  lemma FailureNamesItsCause(meta: Option<Meta>, serve: Server, expected: Digest, sha: seq<Byte> -> Digest)
    ensures var r := Fetch(meta, serve, expected, sha);
            && (r == Err(NoMeta) <==> meta == None)
            && (r == Err(Drifted) <==> meta.Some? && meta.value.digest != expected)
            && (r == Err(TooLarge) <==> meta.Some? && meta.value.digest == expected && meta.value.size > 67_108_864)
            && (r.Err? && r.error.ChunkRefused? ==>
                  meta.Some? && IsRefusedAt(serve, meta.value.size, 0, r.error.offset))
            && (meta.Some? && meta.value.digest == expected && meta.value.size <= 67_108_864 ==>
                  var all := Collect(serve, 0, meta.value.size);
                  && (r.Err? && r.error.ChunkRefused? <==> exists o :: IsRefusedAt(serve, meta.value.size, 0, o))
                  && (r == Err(Incomplete) <==> all.Ok? && |all.value| != meta.value.size)
                  && (r == Err(DigestMismatch) <==>
                        all.Ok? && |all.value| == meta.value.size && sha(all.value) != expected)
                  && (r.Ok? ==> r == all))
  {
    if meta.Some? {
      CollectFailsAt(serve, 0, meta.value.size);
    }
    hide Collect, IsRefusedAt;
  }

  /** A corollary of what FetchViaRpc computes: against any provider at all, a fetch
      that succeeds has the announced size, within the limit, and the expected digest. */
  lemma SuccessIsChecked(meta: Option<Meta>, serve: Server, expected: Digest, sha: seq<Byte> -> Digest)
    requires Fetch(meta, serve, expected, sha).Ok?
    ensures var buf := Fetch(meta, serve, expected, sha).value;
            && sha(buf) == expected && meta.Some? && meta.value.digest == expected
            && |buf| == meta.value.size <= MAX_RPC_FETCH_BYTES
  {
  }

  /** A provider whose file may change at any time: at(o) is what it holds when the
      chunk at offset o is served. */
  function Provider(at: nat -> seq<Byte>): Server {
    (offset: nat, want: nat) => match ChunkOf(at(offset), offset, want)
                                case Err(e) => Err(e)
                                case Ok(c) => Ok(c.data)
  }

  /** The file is long enough whenever a chunk is served. */
  predicate Covers(at: nat -> seq<Byte>, offset: nat, size: nat)
    decreases size - offset
  {
    offset < size ==>
      var len := Min(RPC_CHUNK_BYTES, size - offset);
      offset + len <= |at(offset)| && Covers(at, offset + len, size)
  }

  /** The file as it was seen, chunk by chunk. */
  function Patched(at: nat -> seq<Byte>, offset: nat, size: nat): seq<Byte>
    requires offset <= size && Covers(at, offset, size)
    decreases size - offset
  {
    if offset == size then []
    else
      var len := Min(RPC_CHUNK_BYTES, size - offset);
      at(offset)[offset..offset + len] + Patched(at, offset + len, size)
  }

  /** The offset of the chunk that byte j comes in. */
  function ChunkStart(offset: nat, j: nat): nat
    requires offset <= j
  {
    offset + (j - offset) / RPC_CHUNK_BYTES * RPC_CHUNK_BYTES
  }

  lemma ChunkStartMoves(offset: nat, j: nat)
    requires offset <= j
    ensures j < offset + RPC_CHUNK_BYTES ==> ChunkStart(offset, j) == offset
    ensures j >= offset + RPC_CHUNK_BYTES ==> ChunkStart(offset, j) == ChunkStart(offset + RPC_CHUNK_BYTES, j)
  {
  }

  lemma {:induction false} PatchedLength(at: nat -> seq<Byte>, offset: nat, size: nat)
    requires offset <= size && Covers(at, offset, size)
    ensures |Patched(at, offset, size)| == size - offset
    decreases size - offset
  {
    if offset < size {
      PatchedLength(at, offset + Min(RPC_CHUNK_BYTES, size - offset), size);
    }
  }

  lemma PatchedSplits(at: nat -> seq<Byte>, offset: nat, size: nat, j: nat)
    requires offset <= j < size && Covers(at, offset, size)
    ensures var len := Min(RPC_CHUNK_BYTES, size - offset);
            && Covers(at, offset + len, size) && |Patched(at, offset, size)| == size - offset
            && (j < offset + len ==> j < |at(offset)| && Patched(at, offset, size)[j - offset] == at(offset)[j])
            && (j >= offset + len ==>
                  len == RPC_CHUNK_BYTES && |Patched(at, offset + len, size)| == size - offset - len
                  && Patched(at, offset, size)[j - offset] == Patched(at, offset + len, size)[j - (offset + len)])
  {
    var len := Min(RPC_CHUNK_BYTES, size - offset);
    PatchedLength(at, offset, size);
    PatchedLength(at, offset + len, size);
    hide Min;
  }

  /** Byte j is the byte j of the file when the chunk around it was served. */
  lemma {:induction false} PatchedAt(at: nat -> seq<Byte>, offset: nat, size: nat, j: nat)
    requires offset <= j < size && Covers(at, offset, size)
    ensures |Patched(at, offset, size)| == size - offset
    ensures var start := ChunkStart(offset, j);
            j < |at(start)| && Patched(at, offset, size)[j - offset] == at(start)[j]
    decreases size - offset
  {
    hide ChunkStart, Covers, Patched;
    PatchedSplits(at, offset, size, j);
    ChunkStartMoves(offset, j);
    var len := Min(RPC_CHUNK_BYTES, size - offset);
    if j >= offset + len {
      PatchedAt(at, offset + len, size, j);
    }
  }

  lemma ChunkFromProvider(at: nat -> seq<Byte>, offset: nat, size: nat)
    requires offset < size
    ensures var len := Min(RPC_CHUNK_BYTES, size - offset);
            var got := Provider(at)(offset, len);
            && (offset + len <= |at(offset)| ==> got == Ok(at(offset)[offset..offset + len]))
            && (offset + len > |at(offset)| ==> got.Err? || |got.value| < len)
            && (got.Ok? ==> |got.value| <= len)
  {
  }

  lemma {:induction false} CollectFromProvider(at: nat -> seq<Byte>, offset: nat, size: nat)
    requires offset <= size
    ensures var r := Collect(Provider(at), offset, size);
            && (Covers(at, offset, size) ==> r == Ok(Patched(at, offset, size)) && |r.value| == size - offset)
            && (r.Ok? ==> |r.value| <= size - offset)
            && (r.Ok? && !Covers(at, offset, size) ==> |r.value| < size - offset)
    decreases size - offset
  {
    hide Provider;
    if offset < size {
      ChunkFromProvider(at, offset, size);
      CollectFromProvider(at, offset + Min(RPC_CHUNK_BYTES, size - offset), size);
    }
  }

  /** Main result: however the file changes after it was announced, even between two
      chunks, a fetch succeeds exactly when it was long enough for each chunk and
      what was seen has the expected digest, and then that is what it returns. */
  lemma FetchFromProvider(registered: Digest, announced: nat, at: nat -> seq<Byte>, expected: Digest,
                          sha: seq<Byte> -> Digest)
    ensures var r := Fetch(Some(Meta(registered, announced)), Provider(at), expected, sha);
            && (r.Ok? <==> registered == expected && announced <= MAX_RPC_FETCH_BYTES
                           && Covers(at, 0, announced) && sha(Patched(at, 0, announced)) == expected)
            && (r.Ok? ==> Covers(at, 0, announced) && r.value == Patched(at, 0, announced))
  {
    CollectFromProvider(at, 0, announced);
    hide Collect, Covers, Patched, Provider;
  }

  lemma {:induction false} StableIsCovered(file: seq<Byte>, offset: nat)
    requires offset <= |file|
    ensures Covers(_ => file, offset, |file|) && Patched(_ => file, offset, |file|) == file[offset..]
    decreases |file| - offset
  {
    if offset < |file| {
      var len := Min(RPC_CHUNK_BYTES, |file| - offset);
      StableIsCovered(file, offset + len);
      assert file[offset..] == file[offset..offset + len] + file[offset + len..];
    }
  }

  /** A stable file within the limit comes back byte for byte. */
  lemma StableFileArrives(file: seq<Byte>, sha: seq<Byte> -> Digest)
    requires |file| <= MAX_RPC_FETCH_BYTES
    ensures Fetch(Some(Meta(sha(file), |file|)), Provider(_ => file), sha(file), sha) == Ok(file)
  {
    var at: nat -> seq<Byte> := _ => file;
    StableIsCovered(file, 0);
    assert Covers(at, 0, |file|) && Patched(at, 0, |file|) == file;
    FetchFromProvider(sha(file), |file|, at, sha(file), sha);
  }

  /** And it takes one request for each started chunk, none of them beyond the end
      of the file or over the provider's own limit. */
  lemma {:induction false} RequestsAreExact(offset: nat, size: nat)
    requires offset <= size
    ensures |Requests(offset, size)| == (size - offset + RPC_CHUNK_BYTES - 1) / RPC_CHUNK_BYTES
    ensures forall i :: 0 <= i < |Requests(offset, size)| ==>
              var (o, len) := Requests(offset, size)[i];
              o == offset + i * RPC_CHUNK_BYTES && 0 < len <= MAX_CHUNK_LEN && o + len <= size
    decreases size - offset
  {
    if offset < size {
      var len := Min(RPC_CHUNK_BYTES, size - offset);
      RequestsAreExact(offset + len, size);
    }
  }
}
