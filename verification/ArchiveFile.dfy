// What the reader answers when its source serves one file: the header, the
// metadata, the directories and the tiles are the file's own bytes at the places
// the header and the entries name (crates/mmpf-pmtiles/src/reader.rs).
module ArchiveFile {
  import opened Types
  import opened Varint
  import opened Directory
  import opened TileLookup
  import opened Reader

  // The bytes of a range, as many as there are.
  function Slice(file: seq<byte>, offset: nat, length: nat): (r: seq<byte>)
    ensures offset + length <= |file| ==> r == file[offset..offset + length]
    ensures offset == 0 ==> r == file[..if length <= |file| then length else |file|]
  {
    var from := if offset <= |file| then offset else |file|;
    var to := if offset + length <= |file| then offset + length else |file|;
    file[from..to]
  }

  // A source need only serve requests that say what they know: the bootstrap
  // knows no length, every other request carries the archive's.
  ghost predicate Serves(w: World, a: ArchiveId, file: seq<byte>, len: nat)
  {
    forall q: ReadRequest ::
      (if q.kind.BootstrapRead? then q.archiveLen.None? else q.archiveLen == Some(len)) ==>
        w.source(a, q) == Ok(Slice(file, q.offset, q.length))
  }

  function RangeBytes(file: seq<byte>, r: ArchiveRange): (s: seq<byte>)
    requires End(r) <= |file|
  {
    file[r.offset..r.offset + r.length]
  }

  // A directory section of the file decodes to these entries.
  ghost predicate DecodesTo(w: World, lim: Limits, h: Header, file: seq<byte>, r: ArchiveRange, es: seq<DirEntry>)
  {
    && End(r) <= |file|
    && w.decompress(h.compression, RangeBytes(file, r), lim.maxDirectory).Some?
    && Parse(w.decompress(h.compression, RangeBytes(file, r), lim.maxDirectory).value) == Some(es)
  }

  // A file with a readable header and a root directory inside the first read.
  ghost predicate ArchiveIn(w: World, lim: Limits, file: seq<byte>, h: Header, len: nat, root: seq<DirEntry>)
  {
    && HEADER_SIZE <= lim.bootstrapBytes <= lim.maxRange && HEADER_SIZE <= |file|
    && w.header(file[..HEADER_SIZE]) == Some(h)
    && ArchiveLen(h) == Some(len) && len <= |file|
    && End(RootSection(h)) <= lim.bootstrapBytes
    && DecodesTo(w, lim, h, file, RootSection(h), root)
  }

  lemma BootstrapOfFile(w: World, lim: Limits, a: ArchiveId, file: seq<byte>, h: Header, len: nat, root: seq<DirEntry>)
    requires ArchiveIn(w, lim, file, h, len, root) && Serves(w, a, file, len)
    ensures LoadBootstrap(w, lim, a) == Ok(Bootstrap(h, root, None, len))
  {
    hide ArchiveLen, Parse;
    var q := ReadRequest(0, lim.bootstrapBytes, None, BootstrapRead);
    assert w.source(a, q) == Ok(Slice(file, 0, lim.bootstrapBytes));
    var body := Slice(file, 0, lim.bootstrapBytes);
    assert body[..HEADER_SIZE] == file[..HEADER_SIZE];
    assert body[h.rootOffset..h.rootOffset + h.rootLength] == RangeBytes(file, RootSection(h));
  }

  // A read of anything but the bootstrap gives exactly the bytes asked for.
  lemma ReadOfFile(w: World, lim: Limits, a: ArchiveId, file: seq<byte>, len: nat, r: ArchiveRange, kind: ReadKind)
    requires Serves(w, a, file, len) && !kind.BootstrapRead? && End(r) <= |file| && r.length <= lim.maxRange
    ensures ReadRange(w, lim, a, ReadRequest(r.offset, r.length, Some(len), kind)) == Ok(RangeBytes(file, r))
  {
    var q := ReadRequest(r.offset, r.length, Some(len), kind);
    assert w.source(a, q) == Ok(Slice(file, q.offset, q.length));
  }

  // Whatever the source does, a read that succeeds is of the asked length, and
  // an oversized or short one is refused.
  lemma ReadsAreExact(w: World, lim: Limits, a: ArchiveId, q: ReadRequest)
    ensures var r := ReadRange(w, lim, a, q);
            && (r.Ok? ==> q.length <= lim.maxRange && w.source(a, q) == Ok(r.value) && (q.kind.BootstrapRead? || |r.value| == q.length))
            && (q.length > lim.maxRange ==> r == Err(InvalidArchive))
            && (q.length <= lim.maxRange && w.source(a, q).Err? ==> r == Err(SourceFailed(w.source(a, q).error)))
  {
  }

  lemma MetadataOfFile(w: World, lim: Limits, a: ArchiveId, file: seq<byte>, h: Header, len: nat, root: seq<DirEntry>, text: string)
    requires ArchiveIn(w, lim, file, h, len, root) && Serves(w, a, file, len)
    requires h.metadataLength > 0 ==>
               && h.metadataLength <= lim.maxRange
               && w.decompress(h.compression, RangeBytes(file, MetadataSection(h)), lim.maxMetadata).Some?
               && w.metadata(w.decompress(h.compression, RangeBytes(file, MetadataSection(h)), lim.maxMetadata).value) == Some(text)
    ensures LoadMetadata(w, lim, a) == Ok(if h.metadataLength == 0 then "{}" else text)
  {
    BootstrapOfFile(w, lim, a, file, h, len, root);
    if h.metadataLength > 0 {
      ReadOfFile(w, lim, a, file, len, MetadataSection(h), MetadataRead);
    }
    hide LoadBootstrap, ReadRange;
  }

  lemma LeafOfFile(w: World, lim: Limits, a: ArchiveId, file: seq<byte>, h: Header, len: nat, r: ArchiveRange, es: seq<DirEntry>)
    requires Serves(w, a, file, len) && DecodesTo(w, lim, h, file, r, es) && r.length <= lim.maxRange
    ensures LoadLeaf(w, lim, a, r, h.compression, len) == Ok(es)
  {
    ReadOfFile(w, lim, a, file, len, r, LeafRead);
    hide ReadRange;
  }

  // ---- tiles ----

  // Any tile the reader resolves is the file's bytes at its place, or too large.
  lemma ResolvedTileOfFile(w: World, lim: Limits, a: ArchiveId, file: seq<byte>, h: Header, len: nat, root: seq<DirEntry>, id: nat, r: ArchiveRange)
    requires ArchiveIn(w, lim, file, h, len, root) && Serves(w, a, file, len)
    requires id <= MAX_TILE_ID && lim.maxDepth > 0 && End(r) <= len
    requires var found := WalkFrom(w, lim, a, Bootstrap(h, root, None, len), root, id, lim.maxDepth, 0);
             found.Ok? && found.value.tile == Some(TileLocation(r, len))
    ensures GetTile(w, lim, a, id) ==
            if r.length <= lim.maxRange then Ok(Some((RangeBytes(file, r), h.tileKind))) else Err(InvalidArchive)
  {
    BootstrapOfFile(w, lim, a, file, h, len, root);
    assert len < U64_LIMIT;
    hide LoadBootstrap, WalkFrom, ReadRange;
    if r.length <= lim.maxRange {
      ReadOfFile(w, lim, a, file, len, r, TileRead);
    }
  }

  // Where that place is: in the data section, at the offset of the entry that
  // the last directory on the way names.
  lemma TileOfFile(w: World, lim: Limits, a: ArchiveId, file: seq<byte>, h: Header, len: nat, root: seq<DirEntry>, id: nat)
    requires ArchiveIn(w, lim, file, h, len, root) && Serves(w, a, file, len) && id <= MAX_TILE_ID && lim.maxDepth > 0
    requires GetTile(w, lim, a, id).Ok?
    ensures var load := LeafLoader(w, lim, a, Bootstrap(h, root, None, len));
            var way := Passed(FoundEntry, h, len, root, id, lim.maxDepth, lim.maxRange, load, 0);
            match FoundEntry(way[|way| - 1], id)
            case None => GetTile(w, lim, a, id) == Ok(None)
            case Some(e) =>
              && !IsLeaf(e) && End(Placed(DataSection(h), e)) <= |file|
              && GetTile(w, lim, a, id) == Ok(Some((RangeBytes(file, Placed(DataSection(h), e)), h.tileKind)))
  {
    var b := Bootstrap(h, root, None, len);
    var load := LeafLoader(w, lim, a, b);
    BootstrapOfFile(w, lim, a, file, h, len, root);
    WalkFollowsEntries(FoundEntry, h, len, root, id, lim.maxDepth, lim.maxRange, load, 0);
    WalkIsBounded(FoundEntry, h, len, root, id, lim.maxDepth, lim.maxRange, load, 0);
    var found := WalkFrom(w, lim, a, b, root, id, lim.maxDepth, 0);
    hide LoadBootstrap, ReadRange, Passed, Link, AllInside;
    if found.value.tile.Some? {
      ResolvedTileOfFile(w, lim, a, file, h, len, root, id, found.value.tile.value.range);
    }
  }

  // A tile named by the root is always served, unless it exceeds the read limit.
  lemma RootTileOfFile(w: World, lim: Limits, a: ArchiveId, file: seq<byte>, h: Header, len: nat, root: seq<DirEntry>, id: nat, e: DirEntry)
    requires ArchiveIn(w, lim, file, h, len, root) && Serves(w, a, file, len) && id <= MAX_TILE_ID && lim.maxDepth > 0
    requires FoundEntry(root, id) == Some(e) && !IsLeaf(e) && FitsSection(DataSection(h), e)
    ensures End(Placed(DataSection(h), e)) <= |file|
    ensures GetTile(w, lim, a, id) ==
            if e.length <= lim.maxRange then Ok(Some((file[h.dataOffset + e.offset..h.dataOffset + e.offset + e.length], h.tileKind)))
            else Err(InvalidArchive)
  {
    hide *;
    FitsArchive(w, lim, file, h, len, root, e);
    RootWalk(w, lim, a, h, len, root, id, e);
    SameBytes(file, h, e);
    ResolvedTileOfFile(w, lim, a, file, h, len, root, id, Placed(DataSection(h), e));
  }

  lemma RootWalk(w: World, lim: Limits, a: ArchiveId, h: Header, len: nat, root: seq<DirEntry>, id: nat, e: DirEntry)
    requires ArchiveLen(h) == Some(len) && FoundEntry(root, id) == Some(e) && !IsLeaf(e) && FitsSection(DataSection(h), e)
    ensures WalkFrom(w, lim, a, Bootstrap(h, root, None, len), root, id, lim.maxDepth, 0) == Ok(Resolved(Some(TileLocation(Placed(DataSection(h), e), len)), []))
    ensures Placed(DataSection(h), e).length == e.length
  {
    RootTileIsFound(h, len, root, id, lim.maxDepth, lim.maxRange, LeafLoader(w, lim, a, Bootstrap(h, root, None, len)), 0, e);
  }

  lemma SameBytes(file: seq<byte>, h: Header, e: DirEntry)
    requires End(Placed(DataSection(h), e)) <= |file|
    ensures h.dataOffset + e.offset + e.length <= |file|
    ensures RangeBytes(file, Placed(DataSection(h), e)) == file[h.dataOffset + e.offset..h.dataOffset + e.offset + e.length]
  {
  }

  lemma FitsArchive(w: World, lim: Limits, file: seq<byte>, h: Header, len: nat, root: seq<DirEntry>, e: DirEntry)
    requires ArchiveIn(w, lim, file, h, len, root) && FitsSection(DataSection(h), e)
    ensures ArchiveLen(h) == Some(len) && End(Placed(DataSection(h), e)) <= len <= |file|
  {
  }

  // And so is a tile named by a leaf that the root names.
  lemma LeafTileOfFile(w: World, lim: Limits, a: ArchiveId, file: seq<byte>, h: Header, len: nat, root: seq<DirEntry>, id: nat,
                       leaf: DirEntry, es: seq<DirEntry>, e: DirEntry)
    requires ArchiveIn(w, lim, file, h, len, root) && Serves(w, a, file, len) && id <= MAX_TILE_ID && lim.maxDepth > 0
    requires FoundEntry(root, id) == Some(leaf) && IsLeaf(leaf) && FitsSection(LeafSection(h), leaf) && leaf.length <= lim.maxRange
    requires DecodesTo(w, lim, h, file, Placed(LeafSection(h), leaf), es)
    requires FoundEntry(es, id) == Some(e) && !IsLeaf(e) && FitsSection(DataSection(h), e) && e.length <= lim.maxRange
    ensures End(Placed(DataSection(h), e)) <= |file|
    ensures GetTile(w, lim, a, id) == Ok(Some((file[h.dataOffset + e.offset..h.dataOffset + e.offset + e.length], h.tileKind)))
  {
    hide *;
    FitsArchive(w, lim, file, h, len, root, e);
    LeafLength(h, leaf, e);
    LeafOfFile(w, lim, a, file, h, len, Placed(LeafSection(h), leaf), es);
    LeafWalk(w, lim, a, h, len, root, id, leaf, es, e);
    SameBytes(file, h, e);
    ResolvedTileOfFile(w, lim, a, file, h, len, root, id, Placed(DataSection(h), e));
  }

  lemma LeafLength(h: Header, leaf: DirEntry, e: DirEntry)
    ensures Placed(LeafSection(h), leaf).length == leaf.length && Placed(DataSection(h), e).length == e.length
  {
  }

  lemma LeafWalk(w: World, lim: Limits, a: ArchiveId, h: Header, len: nat, root: seq<DirEntry>, id: nat, leaf: DirEntry, es: seq<DirEntry>, e: DirEntry)
    requires ArchiveLen(h) == Some(len) && lim.maxDepth > 0
    requires FoundEntry(root, id) == Some(leaf) && IsLeaf(leaf) && FitsSection(LeafSection(h), leaf) && leaf.length <= lim.maxRange
    requires LoadLeaf(w, lim, a, Placed(LeafSection(h), leaf), h.compression, len) == Ok(es)
    requires FoundEntry(es, id) == Some(e) && !IsLeaf(e) && FitsSection(DataSection(h), e)
    ensures WalkFrom(w, lim, a, Bootstrap(h, root, None, len), root, id, lim.maxDepth, 0)
         == Ok(Resolved(Some(TileLocation(Placed(DataSection(h), e), len)), [Placed(LeafSection(h), leaf)] + []))
  {
    hide LoadLeaf, ArchiveLen, FoundEntry, FitsSection, Placed, Walk;
    var load := LeafLoader(w, lim, a, Bootstrap(h, root, None, len));
    RootTileIsFound(h, len, es, id, lim.maxDepth - 1, lim.maxRange, load, 1, e);
    LeafIsFollowed(h, len, root, id, lim.maxDepth, lim.maxRange, load, 0, leaf, es);
  }

  // A tile the root says nothing about is missing.
  lemma MissingTileOfFile(w: World, lim: Limits, a: ArchiveId, file: seq<byte>, h: Header, len: nat, root: seq<DirEntry>, id: nat)
    requires ArchiveIn(w, lim, file, h, len, root) && Serves(w, a, file, len) && id <= MAX_TILE_ID && lim.maxDepth > 0
    requires FoundEntry(root, id).None?
    ensures GetTile(w, lim, a, id) == Ok(None)
  {
    BootstrapOfFile(w, lim, a, file, h, len, root);
    hide LoadBootstrap, ReadRange;
  }

  // The trace names the same place, the file's declared length and the size of
  // the first read.
  lemma RootTraceOfFile(w: World, lim: Limits, a: ArchiveId, file: seq<byte>, h: Header, len: nat, root: seq<DirEntry>, id: nat, e: DirEntry)
    requires ArchiveIn(w, lim, file, h, len, root) && Serves(w, a, file, len) && id <= MAX_TILE_ID && lim.maxDepth > 0
    requires FoundEntry(root, id) == Some(e) && !IsLeaf(e) && FitsSection(DataSection(h), e) && lim.bootstrapBytes < U32_LIMIT
    ensures LookupWithTrace(w, lim, a, id) == Ok(Trace(lim.bootstrapBytes, [], Some(TileLocation(Placed(DataSection(h), e), len)), len))
  {
    BootstrapOfFile(w, lim, a, file, h, len, root);
    FitsArchive(w, lim, file, h, len, root, e);
    RootWalk(w, lim, a, h, len, root, id, e);
    hide LoadBootstrap, WalkFrom, Placed;
  }

  // Ids beyond the last zoom, and walks without a level to spend, are refused.
  lemma RefusedLookups(w: World, lim: Limits, a: ArchiveId, id: nat)
    ensures id > MAX_TILE_ID ==> GetTile(w, lim, a, id) == Err(InvalidTileId) && LookupWithTrace(w, lim, a, id) == Err(InvalidTileId)
    ensures id <= MAX_TILE_ID && lim.maxDepth == 0 ==> GetTile(w, lim, a, id).Err?
  {
    hide LoadBootstrap, WalkFrom;
  }
}
