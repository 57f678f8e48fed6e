// The archive reader over a raw range source
// (crates/mmpf-pmtiles/src/reader.rs), without a directory store as plain
// functions of the source, and with one as methods on a shared, lossy store.
module Reader {
  import opened Types
  import opened Varint
  import opened Directory
  import opened TileLookup
  import TileId

  const HEADER_SIZE: nat := 127
  const MAX_TILE_ID: nat := TileId.MAX_TILE_ID

  datatype ReadKind = BootstrapRead | MetadataRead | LeafRead | TileRead

  datatype ReadRequest = ReadRequest(offset: nat, length: nat, archiveLen: Option<nat>, kind: ReadKind)

  datatype ArchiveId = ArchiveId(name: string, generation: string)

  datatype LeafKey = LeafKey(archive: ArchiveId, offset: nat, length: nat)

  datatype Limits = Limits(bootstrapBytes: nat, maxRange: nat, maxDepth: nat, maxDirectory: nat, maxMetadata: nat)

  // What lies outside this model: the source (one immutable archive per
  // identity), decompression under a size limit, and the header and metadata
  // formats.
  datatype World = World(
    source: (ArchiveId, ReadRequest) -> Result<seq<byte>, nat>,
    decompress: (nat, seq<byte>, nat) -> Option<seq<byte>>,
    header: seq<byte> -> Option<Header>,
    metadata: seq<byte> -> Option<string>)

  const EMPTY_METADATA: string := "{}"

  datatype Bootstrap = Bootstrap(header: Header, root: seq<DirEntry>, metadata: Option<string>, archiveLen: nat)

  // ---- the reader with no store ----

  function ReadRange(w: World, lim: Limits, a: ArchiveId, q: ReadRequest): (r: Result<seq<byte>, ReadError>)
  {
    if q.length > lim.maxRange then Err(InvalidArchive)
    else match w.source(a, q)
      case Err(code) => Err(SourceFailed(code))
      case Ok(bytes) =>
        if q.kind != BootstrapRead && |bytes| != q.length then Err(InvalidArchive) else Ok(bytes)
  }

  function ParseWithLimit(w: World, compression: nat, bytes: seq<byte>, limit: nat): (r: Option<seq<DirEntry>>)
  {
    match w.decompress(compression, bytes, limit)
    case None => None
    case Some(plain) => Parse(plain)
  }

  function DecodeBootstrap(w: World, body: seq<byte>, limit: nat): (r: Option<Bootstrap>)
    ensures r.Some? ==> r.value.metadata.None? && ArchiveLen(r.value.header) == Some(r.value.archiveLen)
  {
    if |body| < HEADER_SIZE then None
    else match w.header(body[..HEADER_SIZE])
      case None => None
      case Some(h) =>
        if h.rootOffset + h.rootLength > |body| then None
        else match ParseWithLimit(w, h.compression, body[h.rootOffset..h.rootOffset + h.rootLength], limit)
          case None => None
          case Some(root) =>
            match ArchiveLen(h)
            case None => None
            case Some(len) => Some(Bootstrap(h, root, None, len))
  }

  function LoadBootstrap(w: World, lim: Limits, a: ArchiveId): (r: Result<Bootstrap, ReadError>)
    ensures r.Ok? ==> r.value.metadata.None? && ArchiveLen(r.value.header) == Some(r.value.archiveLen)
  {
    match ReadRange(w, lim, a, ReadRequest(0, lim.bootstrapBytes, None, BootstrapRead))
    case Err(e) => Err(e)
    case Ok(body) =>
      match DecodeBootstrap(w, body, lim.maxDirectory)
      case None => Err(InvalidArchive)
      case Some(b) => Ok(b)
  }

  function MetadataOf(w: World, lim: Limits, a: ArchiveId, b: Bootstrap): (r: Result<string, ReadError>)
  {
    if b.header.metadataLength == 0 then Ok(EMPTY_METADATA)
    else match ReadRange(w, lim, a, ReadRequest(b.header.metadataOffset, b.header.metadataLength, Some(b.archiveLen), MetadataRead))
      case Err(e) => Err(e)
      case Ok(bytes) =>
        match w.decompress(b.header.compression, bytes, lim.maxMetadata)
        case None => Err(InvalidArchive)
        case Some(plain) => match w.metadata(plain) case None => Err(InvalidArchive) case Some(m) => Ok(m)
  }

  function LoadMetadata(w: World, lim: Limits, a: ArchiveId): (r: Result<string, ReadError>)
  {
    match LoadBootstrap(w, lim, a)
    case Err(e) => Err(e)
    case Ok(b) => MetadataOf(w, lim, a, b)
  }

  function LoadLeaf(w: World, lim: Limits, a: ArchiveId, range: ArchiveRange, compression: nat, len: nat): (r: Result<seq<DirEntry>, ReadError>)
  {
    match ReadRange(w, lim, a, ReadRequest(range.offset, range.length, Some(len), LeafRead))
    case Err(e) => Err(e)
    case Ok(bytes) =>
      match ParseWithLimit(w, compression, bytes, lim.maxDirectory)
      case None => Err(InvalidArchive)
      case Some(es) => Ok(es)
  }

  function LeafLoader(w: World, lim: Limits, a: ArchiveId, b: Bootstrap): (load: Loader)
  {
    (k: nat, range: ArchiveRange) => LoadLeaf(w, lim, a, range, b.header.compression, b.archiveLen)
  }

  // The walk from directory `es` of archive `a`, after `k` leaves.
  function WalkFrom(w: World, lim: Limits, a: ArchiveId, b: Bootstrap, es: seq<DirEntry>, id: nat, room: nat, k: nat): (r: Result<Resolved, ReadError>)
  {
    Walk(FoundEntry, b.header, b.archiveLen, es, id, room, lim.maxRange, LeafLoader(w, lim, a, b), k)
  }

  function LoadsFrom(w: World, lim: Limits, a: ArchiveId, b: Bootstrap, es: seq<DirEntry>, id: nat, room: nat, k: nat): (r: seq<ArchiveRange>)
  {
    Loads(FoundEntry, b.header, b.archiveLen, es, id, room, lim.maxRange, LeafLoader(w, lim, a, b), k)
  }

  // `resolve_tile_location` and the bootstrap it started from.
  function Resolve(w: World, lim: Limits, a: ArchiveId, id: nat): (r: Result<(Resolved, Bootstrap), ReadError>)
  {
    if id > MAX_TILE_ID then Err(InvalidTileId)
    else match LoadBootstrap(w, lim, a)
      case Err(e) => Err(e)
      case Ok(b) =>
        if lim.maxDepth == 0 then Err(InvalidArchive)
        else match WalkFrom(w, lim, a, b, b.root, id, lim.maxDepth, 0)
          case Err(e) => Err(e)
          case Ok(found) => Ok((found, b))
  }

  datatype Trace = Trace(bootstrapLength: nat, leaves: seq<ArchiveRange>, tile: Option<TileLocation>, archiveLen: nat)

  function LookupWithTrace(w: World, lim: Limits, a: ArchiveId, id: nat): (r: Result<Trace, ReadError>)
  {
    match Resolve(w, lim, a, id)
    case Err(e) => Err(e)
    case Ok((found, b)) =>
      Ok(Trace(if lim.bootstrapBytes < U32_LIMIT then lim.bootstrapBytes else U32_LIMIT - 1,
               found.leaves, found.tile, b.archiveLen))
  }

  // The tile bytes with the representation the header declares.
  function TileAt(w: World, lim: Limits, a: ArchiveId, h: Header, tile: Option<TileLocation>): (r: Result<Option<(seq<byte>, nat)>, ReadError>)
  {
    if tile.None? then Ok(None)
    else if !RangeAllowed(tile.value.range, lim.maxRange) then Err(InvalidArchive)
    else match ReadRange(w, lim, a, ReadRequest(tile.value.range.offset, tile.value.range.length, Some(tile.value.archiveLen), TileRead))
      case Err(e) => Err(e)
      case Ok(bytes) => Ok(Some((bytes, h.tileKind)))
  }

  function GetTile(w: World, lim: Limits, a: ArchiveId, id: nat): (r: Result<Option<(seq<byte>, nat)>, ReadError>)
  {
    match Resolve(w, lim, a, id)
    case Err(e) => Err(e)
    case Ok((found, b)) => TileAt(w, lim, a, b.header, found.tile)
  }

  // ---- the store ----

  // A stored bootstrap is the archive's, possibly with its metadata attached.
  predicate TrueBootstrap(w: World, lim: Limits, a: ArchiveId, b: Bootstrap)
  {
    LoadBootstrap(w, lim, a) == Ok(b.(metadata := None))
    && (b.metadata.Some? ==> LoadMetadata(w, lim, a) == Ok(b.metadata.value))
  }

  predicate TrueLeaf(w: World, lim: Limits, key: LeafKey, es: seq<DirEntry>)
  {
    var u := LoadBootstrap(w, lim, key.archive);
    u.Ok? && LoadLeaf(w, lim, key.archive, ArchiveRange(key.offset, key.length), u.value.header.compression, u.value.archiveLen) == Ok(es)
  }

  // Any number of readers of any number of archives share one store. Between
  // any two calls of one reader the others may put what they read and the store
  // may lose what it likes, so each call meets arbitrary contents that are
  // honest for the world `w` under the limits `lim`.
  class DirectoryStore {
    var bootstraps: map<ArchiveId, Bootstrap>
    var leaves: map<LeafKey, seq<DirEntry>>

    ghost predicate Honest(w: World, lim: Limits)
      reads this
    {
      (forall a :: a in bootstraps ==> TrueBootstrap(w, lim, a, bootstraps[a]))
      && (forall k :: k in leaves ==> TrueLeaf(w, lim, k, leaves[k]))
    }

    constructor ()
      ensures bootstraps == map[] && leaves == map[]
    {
      bootstraps, leaves := map[], map[];
    }

    // Any contents at all, cut down to what is honest.
    method Interfere(w: World, lim: Limits)
      requires Honest(w, lim)
      modifies this
      ensures Honest(w, lim)
    {
      var otherBootstraps: map<ArchiveId, Bootstrap> := *;
      var otherLeaves: map<LeafKey, seq<DirEntry>> := *;
      hide TrueBootstrap, TrueLeaf;
      bootstraps := map a | a in otherBootstraps && TrueBootstrap(w, lim, a, otherBootstraps[a]) :: otherBootstraps[a];
      leaves := map k | k in otherLeaves && TrueLeaf(w, lim, k, otherLeaves[k]) :: otherLeaves[k];
    }

    method GetBootstrap(w: World, lim: Limits, a: ArchiveId) returns (r: Option<Bootstrap>)
      requires Honest(w, lim)
      modifies this
      ensures Honest(w, lim)
      ensures r.Some? ==> a in bootstraps && r.value == bootstraps[a]
    {
      Interfere(w, lim);
      r := if a in bootstraps then Some(bootstraps[a]) else None;
    }

    method PutBootstrap(w: World, lim: Limits, a: ArchiveId, b: Bootstrap)
      requires Honest(w, lim) && TrueBootstrap(w, lim, a, b)
      modifies this
      ensures Honest(w, lim)
    {
      hide TrueBootstrap, TrueLeaf;
      Interfere(w, lim);
      bootstraps := bootstraps[a := b];
    }

    method GetLeaf(w: World, lim: Limits, k: LeafKey) returns (r: Option<seq<DirEntry>>)
      requires Honest(w, lim)
      modifies this
      ensures Honest(w, lim)
      ensures r.Some? ==> k in leaves && r.value == leaves[k]
    {
      Interfere(w, lim);
      r := if k in leaves then Some(leaves[k]) else None;
    }

    method PutLeaf(w: World, lim: Limits, k: LeafKey, es: seq<DirEntry>)
      requires Honest(w, lim) && TrueLeaf(w, lim, k, es)
      modifies this
      ensures Honest(w, lim)
    {
      hide TrueBootstrap, TrueLeaf;
      Interfere(w, lim);
      leaves := leaves[k := es];
    }
  }

  // ---- the reader with a store ----

  class ArchiveReader {
    const world: World
    const limits: Limits
    const archive: ArchiveId
    const store: DirectoryStore

    constructor (w: World, lim: Limits, a: ArchiveId, s: DirectoryStore)
      ensures world == w && limits == lim && archive == a && store == s
    {
      world, limits, archive, store := w, lim, a, s;
    }

    // The answer is the uncached one, possibly with metadata already attached.
    method CachedBootstrap() returns (r: Result<Bootstrap, ReadError>)
      requires store.Honest(world, limits)
      modifies store
      ensures store.Honest(world, limits)
      ensures r.Err? ==> r == LoadBootstrap(world, limits, archive)
      ensures r.Ok? ==> TrueBootstrap(world, limits, archive, r.value)
    {
      hide ReadRange;
      hide DecodeBootstrap;
      hide LoadMetadata;
      var cached := store.GetBootstrap(world, limits, archive);
      if cached.Some? {
        return Ok(cached.value);
      }
      var body := ReadRange(world, limits, archive, ReadRequest(0, limits.bootstrapBytes, None, BootstrapRead));
      if body.Err? {
        return Err(body.error);
      }
      var b := DecodeBootstrap(world, body.value, limits.maxDirectory);
      if b.None? {
        return Err(InvalidArchive);
      }
      assert b.value.(metadata := None) == b.value;
      store.PutBootstrap(world, limits, archive, b.value);
      return Ok(b.value);
    }

    method ReadHeader() returns (r: Result<Header, ReadError>)
      requires store.Honest(world, limits)
      modifies store
      ensures store.Honest(world, limits)
      ensures r == match LoadBootstrap(world, limits, archive) case Err(e) => Err(e) case Ok(b) => Ok(b.header)
    {
      var b := CachedBootstrap();
      r := match b case Err(e) => Err(e) case Ok(x) => Ok(x.header);
    }

    method ReadMetadata() returns (r: Result<string, ReadError>)
      requires store.Honest(world, limits)
      modifies store
      ensures store.Honest(world, limits)
      ensures r == LoadMetadata(world, limits, archive)
    {
      var b := CachedBootstrap();
      if b.Err? {
        return Err(b.error);
      }
      if b.value.metadata.Some? {
        return Ok(b.value.metadata.value);
      }
      assert b.value.(metadata := None) == b.value;
      r := MetadataOf(world, limits, archive, b.value);
      if r.Ok? {
        var full := b.value.(metadata := Some(r.value));
        assert full.(metadata := None) == b.value;
        store.PutBootstrap(world, limits, archive, full);
      }
    }

    // A leaf is keyed by archive and range alone. That suffices because the
    // compression and length it is decoded with come from the archive.
    method CachedLeaf(range: ArchiveRange, compression: nat, len: nat) returns (r: Result<seq<DirEntry>, ReadError>)
      requires store.Honest(world, limits)
      requires var u := LoadBootstrap(world, limits, archive);
        u.Ok? && u.value.header.compression == compression && u.value.archiveLen == len
      modifies store
      ensures store.Honest(world, limits)
      ensures r == LoadLeaf(world, limits, archive, range, compression, len)
    {
      hide LoadBootstrap;
      hide LoadLeaf;
      var key := LeafKey(archive, range.offset, range.length);
      var cached := store.GetLeaf(world, limits, key);
      if cached.Some? {
        return Ok(cached.value);
      }
      r := LoadLeaf(world, limits, archive, range, compression, len);
      if r.Ok? {
        store.PutLeaf(world, limits, key, r.value);
      }
    }

    method ResolveTile(id: nat) returns (r: Result<(Resolved, Bootstrap), ReadError>)
      requires store.Honest(world, limits)
      modifies store
      ensures store.Honest(world, limits)
      ensures r.Err? ==> r.error == ResolveError(Resolve(world, limits, archive, id)) && Resolve(world, limits, archive, id).Err?
      ensures r.Ok? ==> Resolve(world, limits, archive, id) == Ok((r.value.0, r.value.1.(metadata := None)))
    {
      if id > MAX_TILE_ID {
        return Err(InvalidTileId);
      }
      var cached := CachedBootstrap();
      if cached.Err? {
        return Err(cached.error);
      }
      var b := cached.value;
      var walker := NewWalker(b.header, id, limits.maxDepth);
      if walker.None? {
        return Err(InvalidArchive);
      }
      var found;
      ghost var loads;
      found, loads := WalkWith(walker.value, b.root, b.(metadata := None));
      r := match found case Err(e) => Err(e) case Ok(x) => Ok((x, b));
    }

    // The resolve loop.
    method WalkWith(walker: DirectoryWalker, root: seq<DirEntry>, b: Bootstrap) returns (r: Result<Resolved, ReadError>, ghost loads: seq<ArchiveRange>)
      requires store.Honest(world, limits) && walker.Valid() && walker.depth == 0
      requires LoadBootstrap(world, limits, archive) == Ok(b)
      requires b.header == walker.header && b.archiveLen == walker.archiveLen
      modifies store, walker`depth
      ensures store.Honest(world, limits)
      ensures r == WalkFrom(world, limits, archive, b, root, walker.tileId, walker.maxDepth, 0)
      // `loads` are the leaves asked for, however the walk ended.
      ensures loads == LoadsFrom(world, limits, archive, b, root, walker.tileId, walker.maxDepth, 0)
      ensures |loads| <= walker.maxDepth && AllInside(loads, LeafSection(walker.header), walker.archiveLen)
    {
      hide *;
      var id, max := walker.tileId, walker.maxDepth;
      var directory := root;
      var leaves: seq<ArchiveRange> := [];
      WalkStarts(world, limits, archive, b, root, id, max);
      while true
        invariant store.Honest(world, limits) && walker.Valid() && walker.depth <= max
        invariant OnTrack(world, limits, archive, b, root, id, max, directory, walker.depth, leaves)
        decreases max - walker.depth
      {
        WalkGoesOn(world, limits, archive, b, root, id, max, directory, walker.depth, leaves);
        var step := walker.Step(directory);
        if step.None? {
          return Err(InvalidArchive), leaves;
        }
        match step.value
        case Missing =>
          return Ok(Resolved(None, leaves)), leaves;
        case Found(location) =>
          return Ok(Resolved(Some(location), leaves)), leaves;
        case Leaf(range) =>
          if !RangeAllowed(range, limits.maxRange) {
            return Err(InvalidArchive), leaves;
          }
          leaves := leaves + [range];
          var next := CachedLeaf(range, b.header.compression, b.archiveLen);
          if next.Err? {
            return Err(next.error), leaves;
          }
          directory := next.value;
      }
    }

    method TraceOf(id: nat) returns (r: Result<Trace, ReadError>)
      requires store.Honest(world, limits)
      modifies store
      ensures store.Honest(world, limits)
      ensures r == LookupWithTrace(world, limits, archive, id)
    {
      var x := ResolveTile(id);
      if x.Err? {
        return Err(x.error);
      }
      var (found, b) := x.value;
      var length := if limits.bootstrapBytes < U32_LIMIT then limits.bootstrapBytes else U32_LIMIT - 1;
      return Ok(Trace(length, found.leaves, found.tile, b.archiveLen));
    }

    method ReadTile(id: nat) returns (r: Result<Option<(seq<byte>, nat)>, ReadError>)
      requires store.Honest(world, limits)
      modifies store
      ensures store.Honest(world, limits)
      ensures r == GetTile(world, limits, archive, id)
    {
      var x := ResolveTile(id);
      if x.Err? {
        return Err(x.error);
      }
      var (found, b) := x.value;
      r := TileAt(world, limits, archive, b.header, found.tile);
    }
  }

  // Behind `done` leaves the walk stands at `es`, and what is still to come
  // completes both its answer and its loads.
  ghost predicate OnTrack(w: World, lim: Limits, a: ArchiveId, b: Bootstrap, root: seq<DirEntry>, id: nat, max: nat,
                          es: seq<DirEntry>, depth: nat, done: seq<ArchiveRange>)
    requires depth <= max
  {
    && WalkFrom(w, lim, a, b, root, id, max, 0) == ExtendAll(done, WalkFrom(w, lim, a, b, es, id, max - depth, depth))
    && LoadsFrom(w, lim, a, b, root, id, max, 0) == done + LoadsFrom(w, lim, a, b, es, id, max - depth, depth)
  }

  lemma WalkStarts(w: World, lim: Limits, a: ArchiveId, b: Bootstrap, root: seq<DirEntry>, id: nat, max: nat)
    requires ArchiveLen(b.header) == Some(b.archiveLen)
    ensures OnTrack(w, lim, a, b, root, id, max, root, 0, [])
    ensures |LoadsFrom(w, lim, a, b, root, id, max, 0)| <= max
    ensures AllInside(LoadsFrom(w, lim, a, b, root, id, max, 0), LeafSection(b.header), b.archiveLen)
  {
    LoadsBounded(w, lim, a, b, root, id, max);
    hide WalkFrom, LoadsFrom;
    ExtendNothing(WalkFrom(w, lim, a, b, root, id, max, 0));
    assert [] + LoadsFrom(w, lim, a, b, root, id, max, 0) == LoadsFrom(w, lim, a, b, root, id, max, 0);
  }

  // One step of the loop: it ends with the walk's answer, or stays on track.
  lemma WalkGoesOn(w: World, lim: Limits, a: ArchiveId, b: Bootstrap, root: seq<DirEntry>, id: nat, max: nat,
                   es: seq<DirEntry>, depth: nat, done: seq<ArchiveRange>)
    requires depth <= max && OnTrack(w, lim, a, b, root, id, max, es, depth, done)
    ensures var whole := WalkFrom(w, lim, a, b, root, id, max, 0);
      var loads := LoadsFrom(w, lim, a, b, root, id, max, 0);
      match StepOn(b.header, b.archiveLen, FoundEntry(es, id), depth < max)
      case None => whole == Err(InvalidArchive) && loads == done
      case Some(Missing) => whole == Ok(Resolved(None, done)) && loads == done
      case Some(Found(location)) => whole == Ok(Resolved(Some(location), done)) && loads == done
      case Some(Leaf(range)) =>
        depth < max
        && (!RangeAllowed(range, lim.maxRange) ==> whole == Err(InvalidArchive) && loads == done)
        && (RangeAllowed(range, lim.maxRange) ==>
              match LoadLeaf(w, lim, a, range, b.header.compression, b.archiveLen)
              case Err(e) => whole == Err(e) && loads == done + [range]
              case Ok(next) => OnTrack(w, lim, a, b, root, id, max, next, depth + 1, done + [range]))
  {
    hide WalkFrom, LoadsFrom, StepOn, LoadLeaf, ExtendAll, RangeAllowed, FoundEntry;
    WalkUnfolds(w, lim, a, b, es, id, max - depth, depth, done);
    LoadsUnfold(w, lim, a, b, es, id, max - depth, depth, done);
  }

  lemma LoadsBounded(w: World, lim: Limits, a: ArchiveId, b: Bootstrap, es: seq<DirEntry>, id: nat, room: nat)
    requires ArchiveLen(b.header) == Some(b.archiveLen)
    ensures |LoadsFrom(w, lim, a, b, es, id, room, 0)| <= room
    ensures AllInside(LoadsFrom(w, lim, a, b, es, id, room, 0), LeafSection(b.header), b.archiveLen)
  {
    WalkIsBounded(FoundEntry, b.header, b.archiveLen, es, id, room, lim.maxRange, LeafLoader(w, lim, a, b), 0);
  }

  lemma LoadsUnfold(w: World, lim: Limits, a: ArchiveId, b: Bootstrap, es: seq<DirEntry>, id: nat, room: nat, k: nat, done: seq<ArchiveRange>)
    ensures var all := done + LoadsFrom(w, lim, a, b, es, id, room, k);
      match StepOn(b.header, b.archiveLen, FoundEntry(es, id), room > 0)
      case None => all == done
      case Some(Missing) => all == done
      case Some(Found(_)) => all == done
      case Some(Leaf(range)) =>
        room > 0
        && (!RangeAllowed(range, lim.maxRange) ==> all == done)
        && (RangeAllowed(range, lim.maxRange) ==>
              match LoadLeaf(w, lim, a, range, b.header.compression, b.archiveLen)
              case Err(_) => all == done + [range]
              case Ok(next) => all == done + [range] + LoadsFrom(w, lim, a, b, next, id, room - 1, k + 1))
  {
    hide StepOn, RangeAllowed, FoundEntry, LoadLeaf;
    assert done + [] == done;
    var step := StepOn(b.header, b.archiveLen, FoundEntry(es, id), room > 0);
    if step.Some? && step.value.Leaf? {
      LeafNeedsRoom(b, es, id, room);
      var next := LeafLoader(w, lim, a, b)(k, step.value.range);
      if next.Ok? {
        var rest := LoadsFrom(w, lim, a, b, next.value, id, room - 1, k + 1);
        assert done + ([step.value.range] + rest) == done + [step.value.range] + rest;
      }
    }
  }

  lemma LeafNeedsRoom(b: Bootstrap, es: seq<DirEntry>, id: nat, room: nat)
    ensures var step := StepOn(b.header, b.archiveLen, FoundEntry(es, id), room > 0);
            step.Some? && step.value.Leaf? ==> room > 0
  {
  }

  // One unfolding of the walk, behind the leaves already passed.
  lemma WalkUnfolds(w: World, lim: Limits, a: ArchiveId, b: Bootstrap, es: seq<DirEntry>, id: nat, room: nat, k: nat, done: seq<ArchiveRange>)
    ensures var all := ExtendAll(done, WalkFrom(w, lim, a, b, es, id, room, k));
      match StepOn(b.header, b.archiveLen, FoundEntry(es, id), room > 0)
      case None => all == Err(InvalidArchive)
      case Some(Missing) => all == Ok(Resolved(None, done))
      case Some(Found(location)) => all == Ok(Resolved(Some(location), done))
      case Some(Leaf(range)) =>
        room > 0
        && (!RangeAllowed(range, lim.maxRange) ==> all == Err(InvalidArchive))
        && (RangeAllowed(range, lim.maxRange) ==>
              match LoadLeaf(w, lim, a, range, b.header.compression, b.archiveLen)
              case Err(e) => all == Err(e)
              case Ok(next) => all == ExtendAll(done + [range], WalkFrom(w, lim, a, b, next, id, room - 1, k + 1)))
  {
    assert done + [] == done;
    var step := StepOn(b.header, b.archiveLen, FoundEntry(es, id), room > 0);
    if step.Some? && step.value.Leaf? {
      var next := LeafLoader(w, lim, a, b)(k, step.value.range);
      if next.Ok? {
        ExtendMore(done, step.value.range, WalkFrom(w, lim, a, b, next.value, id, room - 1, k + 1));
      }
    }
  }

  function ResolveError<T>(r: Result<T, ReadError>): (e: ReadError)
  {
    match r case Err(e) => e case Ok(_) => InvalidArchive
  }

  function ExtendAll(done: seq<ArchiveRange>, r: Result<Resolved, ReadError>): (x: Result<Resolved, ReadError>)
  {
    match r
    case Err(e) => Err(e)
    case Ok(v) => Ok(v.(leaves := done + v.leaves))
  }

  lemma ExtendNothing(r: Result<Resolved, ReadError>)
    ensures ExtendAll([], r) == r
  {
    if r.Ok? {
      assert [] + r.value.leaves == r.value.leaves;
    }
  }

  lemma ExtendMore(done: seq<ArchiveRange>, range: ArchiveRange, r: Result<Resolved, ReadError>)
    ensures ExtendAll(done + [range], r) == ExtendAll(done, Extend(range, r))
  {
    if r.Ok? {
      assert done + [range] + r.value.leaves == done + ([range] + r.value.leaves);
    }
  }
}
