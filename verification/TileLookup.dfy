// Finding a tile: binary search inside one directory
// (crates/mmpf-pmtiles/src/format.rs) and the bounded walk through an untrusted
// tree of leaf directories (crates/mmpf-pmtiles/src/reader.rs).
module TileLookup {
  import opened Types
  import opened Directory

  // ---- inside one directory ----

  predicate IsLeaf(e: DirEntry)
  {
    e.runLength == 0
  }

  // `slice::binary_search_by`: an index holding `id`, or where it would go.
  function BinarySearch(es: seq<DirEntry>, id: nat, lo: nat, hi: nat): (r: Result<nat, nat>)
    requires lo <= hi <= |es|
    ensures r.Ok? ==> lo <= r.value < hi && es[r.value].tileId == id
    ensures r.Err? ==> lo <= r.error <= hi
    decreases hi - lo
  {
    if lo == hi then Err(lo)
    else
      var mid := (lo + hi) / 2;
      if es[mid].tileId == id then Ok(mid)
      else if es[mid].tileId < id then BinarySearch(es, id, mid + 1, hi)
      else BinarySearch(es, id, lo, mid)
  }

  function FindTileId(es: seq<DirEntry>, id: nat): (r: Option<nat>)
    ensures r.Some? ==> r.value < |es|
  {
    match BinarySearch(es, id, 0, |es|)
    case Ok(index) => Some(index)
    case Err(next) =>
      if next > 0 && (IsLeaf(es[next - 1]) || id - es[next - 1].tileId < es[next - 1].runLength)
      then Some(next - 1) else None
  }

  function FoundEntry(es: seq<DirEntry>, id: nat): (r: Option<DirEntry>)
  {
    match FindTileId(es, id) case None => None case Some(i) => Some(es[i])
  }

  // What the parser guarantees: ids never decrease, but may repeat.
  ghost predicate NonDecreasing(es: seq<DirEntry>)
  {
    forall i, j :: 0 <= i < j < |es| ==> es[i].tileId <= es[j].tileId
  }

  ghost predicate StrictlyAscending(es: seq<DirEntry>)
  {
    forall i, j :: 0 <= i < j < |es| ==> es[i].tileId < es[j].tileId
  }

  ghost predicate AtMostOnce(es: seq<DirEntry>, id: nat)
  {
    forall i, j :: 0 <= i < j < |es| ==> es[i].tileId != id || es[j].tileId != id
  }

  lemma StrictIsOnce(es: seq<DirEntry>, id: nat)
    requires StrictlyAscending(es)
    ensures NonDecreasing(es) && AtMostOnce(es, id)
  {
  }

  // The reference: scan all entries, remember the last one that starts at or
  // before the id, and see whether it reaches the id.
  function LastStarting(es: seq<DirEntry>, id: nat): (r: Option<nat>)
    ensures r.Some? ==> r.value < |es|
  {
    if es == [] then None
    else
      var n := |es| - 1;
      if es[n].tileId <= id then Some(n) else LastStarting(es[..n], id)
  }

  function Scan(es: seq<DirEntry>, id: nat): (r: Option<DirEntry>)
  {
    match LastStarting(es, id)
    case None => None
    case Some(i) => if IsLeaf(es[i]) || id < es[i].tileId + es[i].runLength then Some(es[i]) else None
  }

  lemma {:induction false} LastStartingIs(es: seq<DirEntry>, id: nat)
    ensures match LastStarting(es, id)
            case None => forall i :: 0 <= i < |es| ==> id < es[i].tileId
            case Some(j) => es[j].tileId <= id && forall i :: j < i < |es| ==> id < es[i].tileId
  {
    if es != [] && id < es[|es| - 1].tileId {
      LastStartingIs(es[..|es| - 1], id);
    }
  }

  // The search finds the id, or the place where it would have to stand.
  ghost predicate Separates(es: seq<DirEntry>, id: nat, r: Result<nat, nat>)
  {
    match r
    case Ok(i) => i < |es| && es[i].tileId == id
    case Err(n) =>
      && n <= |es|
      && (forall i :: 0 <= i < n ==> es[i].tileId < id)
      && (forall i :: n <= i < |es| ==> id < es[i].tileId)
  }

  // Everything before `lo` starts too early, everything from `hi` on too late.
  ghost predicate Brackets(es: seq<DirEntry>, id: nat, lo: nat, hi: nat)
  {
    && lo <= hi <= |es|
    && (forall i :: 0 <= i < lo ==> es[i].tileId < id)
    && (forall i :: hi <= i < |es| ==> id < es[i].tileId)
  }

  lemma Narrows(es: seq<DirEntry>, id: nat, lo: nat, hi: nat, mid: nat)
    requires NonDecreasing(es) && Brackets(es, id, lo, hi) && lo <= mid < hi
    ensures es[mid].tileId < id ==> Brackets(es, id, mid + 1, hi)
    ensures id < es[mid].tileId ==> Brackets(es, id, lo, mid)
  {
    assert forall i :: 0 <= i < mid ==> es[i].tileId <= es[mid].tileId;
    assert forall i :: mid < i < |es| ==> es[mid].tileId <= es[i].tileId;
  }

  lemma {:induction false} SearchSplits(es: seq<DirEntry>, id: nat, lo: nat, hi: nat)
    requires NonDecreasing(es) && Brackets(es, id, lo, hi)
    ensures Separates(es, id, BinarySearch(es, id, lo, hi))
    decreases hi - lo
  {
    if lo < hi {
      var mid := (lo + hi) / 2;
      assert mid < |es|;
      Narrows(es, id, lo, hi, mid);
      hide NonDecreasing, Brackets;
      if es[mid].tileId < id {
        SearchSplits(es, id, mid + 1, hi);
      } else if id < es[mid].tileId {
        SearchSplits(es, id, lo, mid);
      }
    }
  }

  predicate Reaches(e: DirEntry, id: nat)
  {
    e.tileId <= id && (IsLeaf(e) || id < e.tileId + e.runLength)
  }

  // On anything the parser accepts: an entry is found exactly when the linear
  // scan finds one; what is found starts at or before the id and is a leaf or
  // covers it; an id that occurs is found; and unless the id is repeated the
  // entry is the scan's.
  lemma FindIsScan(es: seq<DirEntry>, id: nat)
    requires NonDecreasing(es)
    ensures FoundEntry(es, id).Some? <==> Scan(es, id).Some?
    ensures FoundEntry(es, id).Some? ==> FoundEntry(es, id).value in es && Reaches(FoundEntry(es, id).value, id)
    ensures (exists i :: 0 <= i < |es| && es[i].tileId == id) ==> FoundEntry(es, id).Some? && FoundEntry(es, id).value.tileId == id
    ensures AtMostOnce(es, id) ==> FoundEntry(es, id) == Scan(es, id)
  {
    SearchSplits(es, id, 0, |es|);
    LastStartingIs(es, id);
    hide LastStarting, BinarySearch, NonDecreasing, AtMostOnce;
    var last := LastStarting(es, id);
    match BinarySearch(es, id, 0, |es|)
    case Ok(i) =>
      FoundAt(es, id, i, last);
    case Err(n) =>
      MissedAt(es, id, n, last);
  }

  lemma MissedAt(es: seq<DirEntry>, id: nat, n: nat, last: Option<nat>)
    requires n <= |es| && (forall i :: 0 <= i < n ==> es[i].tileId < id) && (forall i :: n <= i < |es| ==> id < es[i].tileId)
    requires match last
             case None => forall k :: 0 <= k < |es| ==> id < es[k].tileId
             case Some(j) => j < |es| && es[j].tileId <= id && forall k :: j < k < |es| ==> id < es[k].tileId
    ensures last == if n == 0 then None else Some(n - 1)
    ensures forall i :: 0 <= i < |es| ==> es[i].tileId != id
  {
    assert n > 0 ==> es[n - 1].tileId < id;
  }

  lemma FoundAt(es: seq<DirEntry>, id: nat, i: nat, last: Option<nat>)
    requires NonDecreasing(es) && i < |es| && es[i].tileId == id
    requires match last
             case None => forall k :: 0 <= k < |es| ==> id < es[k].tileId
             case Some(j) => j < |es| && es[j].tileId <= id && forall k :: j < k < |es| ==> id < es[k].tileId
    ensures last.Some? && es[last.value].tileId == id
    ensures AtMostOnce(es, id) ==> last.value == i
  {
  }

  // ---- the archive's sections ----

  datatype Header = Header(
    rootOffset: nat, rootLength: nat, metadataOffset: nat, metadataLength: nat,
    leafOffset: nat, leafLength: nat, dataOffset: nat, dataLength: nat,
    compression: nat, tileKind: nat)

  datatype ArchiveRange = ArchiveRange(offset: nat, length: nat)

  datatype ReadError = InvalidTileId | InvalidArchive | SourceFailed(code: nat)

  function RootSection(h: Header): (r: ArchiveRange) { ArchiveRange(h.rootOffset, h.rootLength) }
  function MetadataSection(h: Header): (r: ArchiveRange) { ArchiveRange(h.metadataOffset, h.metadataLength) }
  function LeafSection(h: Header): (r: ArchiveRange) { ArchiveRange(h.leafOffset, h.leafLength) }
  function DataSection(h: Header): (r: ArchiveRange) { ArchiveRange(h.dataOffset, h.dataLength) }

  function End(r: ArchiveRange): (n: nat) { r.offset + r.length }

  function Farther(a: nat, b: nat): (r: nat) { if a <= b then b else a }

  // The end of the last declared section, if every section ends within 64 bits.
  function ArchiveLen(h: Header): (r: Option<nat>)
    ensures r.Some? <==>
            && End(RootSection(h)) < U64_LIMIT && End(MetadataSection(h)) < U64_LIMIT
            && End(LeafSection(h)) < U64_LIMIT && End(DataSection(h)) < U64_LIMIT
    ensures r.Some? ==>
              && r.value in {End(RootSection(h)), End(MetadataSection(h)), End(LeafSection(h)), End(DataSection(h))}
              && End(RootSection(h)) <= r.value && End(MetadataSection(h)) <= r.value
              && End(LeafSection(h)) <= r.value && End(DataSection(h)) <= r.value
  {
    var end := Farther(Farther(End(RootSection(h)), End(MetadataSection(h))), Farther(End(LeafSection(h)), End(DataSection(h))));
    if end < U64_LIMIT then Some(end) else None
  }

  // `archive_len` as the loop it is.
  method ComputeArchiveLen(h: Header) returns (r: Option<nat>)
    ensures r == ArchiveLen(h)
  {
    var sections := [RootSection(h), MetadataSection(h), LeafSection(h), DataSection(h)];
    assert forall i :: 0 <= i < 4 && End(sections[i]) >= U64_LIMIT ==> ArchiveLen(h).None?;
    var end: nat := 0;
    for i := 0 to |sections|
      invariant forall j :: 0 <= j < i ==> End(sections[j]) <= end
      invariant end < U64_LIMIT && (end == 0 || exists j :: 0 <= j < i && End(sections[j]) == end)
    {
      if End(sections[i]) >= U64_LIMIT {
        return None;
      }
      if end < End(sections[i]) {
        end := End(sections[i]);
      }
    }
    assert End(sections[0]) <= end && End(sections[1]) <= end && End(sections[2]) <= end && End(sections[3]) <= end;
    r := Some(end);
  }

  function CheckedSectionOffset(section: ArchiveRange, relative: nat, length: nat): (r: Option<nat>)
    ensures r.Some? ==> section.offset <= r.value && r.value + length <= End(section)
    ensures relative + length <= section.length && End(section) < U64_LIMIT ==> r == Some(section.offset + relative)
    ensures r.Some? ==> r.value - section.offset == relative && r.value < U64_LIMIT
  {
    if relative + length >= U64_LIMIT || relative + length > section.length || section.offset + relative >= U64_LIMIT
    then None else Some(section.offset + relative)
  }

  // ---- one step of the walk ----

  datatype TileLocation = TileLocation(range: ArchiveRange, archiveLen: nat)

  datatype DirectoryStep = Missing | Leaf(range: ArchiveRange) | Found(location: TileLocation)

  // What a step does with the entry it found; `room` tells whether the walk may
  // still descend.
  function StepOn(h: Header, archiveLen: nat, entry: Option<DirEntry>, room: bool): (r: Option<DirectoryStep>)
  {
    if entry.None? then Some(Missing)
    else
      var e := entry.value;
      if IsLeaf(e) then
        if !room then None
        else match CheckedSectionOffset(LeafSection(h), e.offset, e.length)
          case None => None
          case Some(offset) => Some(Leaf(ArchiveRange(offset, e.length)))
      else match CheckedSectionOffset(DataSection(h), e.offset, e.length)
        case None => None
        case Some(offset) => Some(Found(TileLocation(ArchiveRange(offset, e.length), archiveLen)))
  }

  predicate Inside(r: ArchiveRange, section: ArchiveRange, len: nat)
  {
    section.offset <= r.offset && End(r) <= End(section) <= len < U64_LIMIT
  }

  // Every range a step emits, loaded or not, lies in its own section.
  predicate StepInside(h: Header, len: nat, step: DirectoryStep)
  {
    match step
    case Missing => true
    case Leaf(range) => Inside(range, LeafSection(h), len)
    case Found(location) => Inside(location.range, DataSection(h), len) && location.archiveLen == len
  }

  lemma StepsStayInside(h: Header, len: nat, entry: Option<DirEntry>, room: bool)
    requires ArchiveLen(h) == Some(len)
    ensures var step := StepOn(h, len, entry, room);
            step.Some? ==> StepInside(h, len, step.value) && (step.value.Leaf? ==> room)
  {
  }

  // The entry's bytes, counted from the start of its section.
  function Placed(section: ArchiveRange, e: DirEntry): (r: ArchiveRange)
  {
    ArchiveRange(section.offset + e.offset, e.length)
  }

  predicate FitsSection(section: ArchiveRange, e: DirEntry)
  {
    e.offset + e.length <= section.length
  }

  // Exactly what a step answers: nothing found means missing, a leaf that fits is
  // followed to its place while the depth allows, a tile that fits is found at
  // its place, and anything else is refused.
  ghost predicate StepAnswers(h: Header, len: nat, entry: Option<DirEntry>, room: bool, r: Option<DirectoryStep>)
  {
    if entry.None? then r == Some(Missing)
    else
      var e := entry.value;
      if e.runLength == 0 then
        r == if room && FitsSection(LeafSection(h), e) then Some(Leaf(Placed(LeafSection(h), e))) else None
      else
        r == if FitsSection(DataSection(h), e) then Some(Found(TileLocation(Placed(DataSection(h), e), len))) else None
  }

  lemma StepIsExact(h: Header, len: nat, entry: Option<DirEntry>, room: bool)
    requires ArchiveLen(h) == Some(len)
    ensures StepAnswers(h, len, entry, room, StepOn(h, len, entry, room))
  {
  }

  // `DirectoryWalker::new`: no walk without a level to spend or with sections
  // that overflow.
  method NewWalker(h: Header, id: nat, limit: nat) returns (r: Option<DirectoryWalker>)
    ensures r.None? <==> limit == 0 || ArchiveLen(h).None?
    ensures r.Some? ==> fresh(r.value) && r.value.Valid() && r.value.depth == 0
    ensures r.Some? ==> r.value.header == h && r.value.tileId == id && r.value.maxDepth == limit && ArchiveLen(h) == Some(r.value.archiveLen)
  {
    if limit == 0 {
      return None;
    }
    var len := ComputeArchiveLen(h);
    if len.None? {
      return None;
    }
    var walker := new DirectoryWalker(h, len.value, id, limit);
    return Some(walker);
  }

  class DirectoryWalker {
    const header: Header
    const archiveLen: nat
    const tileId: nat
    const maxDepth: nat
    var depth: nat

    ghost predicate Valid()
      reads this
    {
      depth <= maxDepth && ArchiveLen(header) == Some(archiveLen)
    }

    constructor (h: Header, len: nat, id: nat, limit: nat)
      requires 0 < limit && ArchiveLen(h) == Some(len)
      ensures Valid() && header == h && archiveLen == len && tileId == id && maxDepth == limit && depth == 0
    {
      header, archiveLen, tileId, maxDepth, depth := h, len, id, limit, 0;
    }

    // A leaf step uses up one level, even if its range turns out to be bad.
    method Step(es: seq<DirEntry>) returns (r: Option<DirectoryStep>)
      requires Valid()
      modifies this`depth
      ensures Valid()
      ensures r == StepOn(header, archiveLen, FoundEntry(es, tileId), old(depth) < maxDepth)
      ensures r.Some? ==> depth == old(depth) + (if r.value.Leaf? then 1 else 0)
      ensures r.Some? ==> StepInside(header, archiveLen, r.value)
      ensures StepAnswers(header, archiveLen, FoundEntry(es, tileId), old(depth) < maxDepth, r)
    {
      StepIsExact(header, archiveLen, FoundEntry(es, tileId), depth < maxDepth);
      StepsStayInside(header, archiveLen, FoundEntry(es, tileId), depth < maxDepth);
      var found := FindTileId(es, tileId);
      if found.None? {
        return Some(Missing);
      }
      var entry := es[found.value];
      if IsLeaf(entry) {
        if depth >= maxDepth {
          return None;
        }
        depth := depth + 1;
        var offset := CheckedSectionOffset(LeafSection(header), entry.offset, entry.length);
        if offset.None? {
          return None;
        }
        return Some(Leaf(ArchiveRange(offset.value, entry.length)));
      }
      var offset := CheckedSectionOffset(DataSection(header), entry.offset, entry.length);
      if offset.None? {
        return None;
      }
      return Some(Found(TileLocation(ArchiveRange(offset.value, entry.length), archiveLen)));
    }
  }

  // ---- the whole walk ----

  datatype Resolved = Resolved(tile: Option<TileLocation>, leaves: seq<ArchiveRange>)

  // `load(k, range)` is the k-th leaf the backend answers with; nothing is
  // assumed about it, so it may fail, lie, or send the walk in circles.
  type Loader = (nat, ArchiveRange) -> Result<seq<DirEntry>, ReadError>

  predicate RangeAllowed(r: ArchiveRange, maxRange: nat)
  {
    r.length <= maxRange && r.offset + r.length < U64_LIMIT
  }

  function Extend(r: ArchiveRange, rest: Result<Resolved, ReadError>): (x: Result<Resolved, ReadError>)
  {
    match rest
    case Err(e) => Err(e)
    case Ok(v) => Ok(v.(leaves := [r] + v.leaves))
  }

  // The walk, parameterized by how one directory is searched.
  function Walk(find: (seq<DirEntry>, nat) -> Option<DirEntry>, h: Header, len: nat, es: seq<DirEntry>, id: nat,
                room: nat, maxRange: nat, load: Loader, k: nat): (r: Result<Resolved, ReadError>)
    decreases room
  {
    match StepOn(h, len, find(es, id), room > 0)
    case None => Err(InvalidArchive)
    case Some(Missing) => Ok(Resolved(None, []))
    case Some(Found(location)) => Ok(Resolved(Some(location), []))
    case Some(Leaf(range)) =>
      if room == 0 || !RangeAllowed(range, maxRange) then Err(InvalidArchive)
      else match load(k, range)
        case Err(e) => Err(e)
        case Ok(next) => Extend(range, Walk(find, h, len, next, id, room - 1, maxRange, load, k + 1))
  }

  // The ranges a walk hands to its loader, however it ends.
  function Loads(find: (seq<DirEntry>, nat) -> Option<DirEntry>, h: Header, len: nat, es: seq<DirEntry>, id: nat,
                 room: nat, maxRange: nat, load: Loader, k: nat): (r: seq<ArchiveRange>)
    decreases room
  {
    match StepOn(h, len, find(es, id), room > 0)
    case None => []
    case Some(Missing) => []
    case Some(Found(_)) => []
    case Some(Leaf(range)) =>
      if room == 0 || !RangeAllowed(range, maxRange) then []
      else match load(k, range)
        case Err(_) => [range]
        case Ok(next) => [range] + Loads(find, h, len, next, id, room - 1, maxRange, load, k + 1)
  }

  ghost predicate AllInside(ranges: seq<ArchiveRange>, section: ArchiveRange, len: nat)
  {
    forall i :: 0 <= i < |ranges| ==> Inside(ranges[i], section, len)
  }

  // Whatever the loader does and however the walk ends: it asks for at most
  // `room` leaves, each inside the leaf section. A walk that succeeds reports
  // exactly those leaves and a tile inside the data section.
  lemma {:induction false} WalkIsBounded(find: (seq<DirEntry>, nat) -> Option<DirEntry>, h: Header, len: nat, es: seq<DirEntry>,
                                         id: nat, room: nat, maxRange: nat, load: Loader, k: nat)
    requires ArchiveLen(h) == Some(len)
    ensures var loads := Loads(find, h, len, es, id, room, maxRange, load, k);
            |loads| <= room && AllInside(loads, LeafSection(h), len) && forall i :: 0 <= i < |loads| ==> loads[i].length <= maxRange
    ensures var r := Walk(find, h, len, es, id, room, maxRange, load, k);
            r.Ok? ==>
              && r.value.leaves == Loads(find, h, len, es, id, room, maxRange, load, k)
              && (r.value.tile.Some? ==> Inside(r.value.tile.value.range, DataSection(h), len) && r.value.tile.value.archiveLen == len)
    decreases room
  {
    StepsStayInside(h, len, find(es, id), room > 0);
    hide StepOn, ArchiveLen, Inside;
    var step := StepOn(h, len, find(es, id), room > 0);
    if step.Some? && step.value.Leaf? && RangeAllowed(step.value.range, maxRange) {
      var next := load(k, step.value.range);
      if next.Ok? {
        WalkIsBounded(find, h, len, next.value, id, room - 1, maxRange, load, k + 1);
      }
    }
  }

  // The directories a walk passes through, the root first.
  function Passed(find: (seq<DirEntry>, nat) -> Option<DirEntry>, h: Header, len: nat, es: seq<DirEntry>, id: nat,
                  room: nat, maxRange: nat, load: Loader, k: nat): (r: seq<seq<DirEntry>>)
    ensures |r| > 0 && r[0] == es
    decreases room
  {
    match StepOn(h, len, find(es, id), room > 0)
    case None => [es]
    case Some(Missing) => [es]
    case Some(Found(_)) => [es]
    case Some(Leaf(range)) =>
      if room == 0 || !RangeAllowed(range, maxRange) then [es]
      else match load(k, range)
        case Err(_) => [es]
        case Ok(next) => [es] + Passed(find, h, len, next, id, room - 1, maxRange, load, k + 1)
  }

  // Link i of the way: directory i names a leaf, the i-th load is that leaf's
  // place, and directory i + 1 is what was loaded from there.
  ghost predicate Link(find: (seq<DirEntry>, nat) -> Option<DirEntry>, h: Header, id: nat, load: Loader, k: nat,
                       way: seq<seq<DirEntry>>, leaves: seq<ArchiveRange>, i: nat)
    requires i < |leaves| && i + 1 < |way|
  {
    && find(way[i], id).Some? && IsLeaf(find(way[i], id).value)
    && leaves[i] == Placed(LeafSection(h), find(way[i], id).value)
    && load(k + i, leaves[i]) == Ok(way[i + 1])
  }

  // The answer at the end of the way: the place of the tile the last directory
  // names, or nothing if it names nothing.
  ghost predicate Destination(find: (seq<DirEntry>, nat) -> Option<DirEntry>, h: Header, len: nat, id: nat,
                              last: seq<DirEntry>, tile: Option<TileLocation>)
  {
    match find(last, id)
    case None => tile.None?
    case Some(e) => !IsLeaf(e) && tile == Some(TileLocation(Placed(DataSection(h), e), len))
  }

  // A walk that answers has followed the entries: every leaf load and the tile
  // lie exactly where the entries put them.
  lemma {:induction false} WalkFollowsEntries(find: (seq<DirEntry>, nat) -> Option<DirEntry>, h: Header, len: nat, es: seq<DirEntry>,
                                              id: nat, room: nat, maxRange: nat, load: Loader, k: nat)
    requires ArchiveLen(h) == Some(len) && Walk(find, h, len, es, id, room, maxRange, load, k).Ok?
    ensures var found := Walk(find, h, len, es, id, room, maxRange, load, k).value;
            var way := Passed(find, h, len, es, id, room, maxRange, load, k);
            && |way| == |found.leaves| + 1
            && (forall i :: 0 <= i < |found.leaves| ==> Link(find, h, id, load, k, way, found.leaves, i))
            && Destination(find, h, len, id, way[|way| - 1], found.tile)
    decreases room
  {
    StepIsExact(h, len, find(es, id), room > 0);
    hide StepOn, ArchiveLen;
    var step := StepOn(h, len, find(es, id), room > 0);
    if step.value.Leaf? {
      var next := load(k, step.value.range);
      WalkFollowsEntries(find, h, len, next.value, id, room - 1, maxRange, load, k + 1);
      var rest := Walk(find, h, len, next.value, id, room - 1, maxRange, load, k + 1).value;
      var way := Passed(find, h, len, next.value, id, room - 1, maxRange, load, k + 1);
      var leaves := [step.value.range] + rest.leaves;
      forall i | 0 < i < |leaves| ensures Link(find, h, id, load, k, [es] + way, leaves, i) {
        assert Link(find, h, id, load, k + 1, way, rest.leaves, i - 1);
      }
    }
  }

  // And it does answer whenever the root names a tile that fits.
  lemma RootTileIsFound(h: Header, len: nat, es: seq<DirEntry>, id: nat, room: nat, maxRange: nat, load: Loader, k: nat, e: DirEntry)
    requires ArchiveLen(h) == Some(len) && FoundEntry(es, id) == Some(e) && !IsLeaf(e) && FitsSection(DataSection(h), e)
    ensures Walk(FoundEntry, h, len, es, id, room, maxRange, load, k) == Ok(Resolved(Some(TileLocation(Placed(DataSection(h), e), len)), []))
  {
    StepIsExact(h, len, Some(e), room > 0);
  }

  // And whenever it names a leaf that fits, may be read, and leads to an answer.
  lemma LeafIsFollowed(h: Header, len: nat, es: seq<DirEntry>, id: nat, room: nat, maxRange: nat, load: Loader, k: nat, e: DirEntry, next: seq<DirEntry>)
    requires ArchiveLen(h) == Some(len) && FoundEntry(es, id) == Some(e) && IsLeaf(e) && FitsSection(LeafSection(h), e)
    requires room > 0 && e.length <= maxRange && load(k, Placed(LeafSection(h), e)) == Ok(next)
    requires Walk(FoundEntry, h, len, next, id, room - 1, maxRange, load, k + 1).Ok?
    ensures var rest := Walk(FoundEntry, h, len, next, id, room - 1, maxRange, load, k + 1).value;
            Walk(FoundEntry, h, len, es, id, room, maxRange, load, k) == Ok(Resolved(rest.tile, [Placed(LeafSection(h), e)] + rest.leaves))
  {
    StepIsExact(h, len, Some(e), true);
    StepsStayInside(h, len, Some(e), true);
  }

  predicate FindsLeaf(es: seq<DirEntry>, id: nat)
  {
    FoundEntry(es, id).Some? && IsLeaf(FoundEntry(es, id).value)
  }

  // A loader whose every answer points at yet another leaf, cyclic or not, is
  // refused.
  lemma {:induction false} CyclicLoaderIsRefused(h: Header, len: nat, es: seq<DirEntry>, id: nat, room: nat, maxRange: nat,
                                                 load: Loader, k: nat)
    requires FindsLeaf(es, id) && forall j, r :: load(j, r).Ok? ==> FindsLeaf(load(j, r).value, id)
    ensures Walk(FoundEntry, h, len, es, id, room, maxRange, load, k).Err?
    ensures (forall j, r :: load(j, r).Ok?) ==> Walk(FoundEntry, h, len, es, id, room, maxRange, load, k) == Err(InvalidArchive)
    decreases room
  {
    var step := StepOn(h, len, FoundEntry(es, id), room > 0);
    if room > 0 && step.Some? && RangeAllowed(step.value.range, maxRange) && load(k, step.value.range).Ok? {
      CyclicLoaderIsRefused(h, len, load(k, step.value.range).value, id, room - 1, maxRange, load, k + 1);
    }
  }

  // A directory that sends the walk to a leaf it may load.
  ghost predicate Descends(h: Header, len: nat, es: seq<DirEntry>, id: nat, maxRange: nat)
  {
    var step := StepOn(h, len, FoundEntry(es, id), true);
    step.Some? && step.value.Leaf? && RangeAllowed(step.value.range, maxRange)
  }

  // The bound is exact: such directories all the way down make the walk load
  // every level it may, and then it stops with an error.
  lemma {:induction false} BoundIsReached(h: Header, len: nat, es: seq<DirEntry>, id: nat, room: nat, maxRange: nat, load: Loader, k: nat)
    requires Descends(h, len, es, id, maxRange)
    requires forall j, r :: load(j, r).Ok? && Descends(h, len, load(j, r).value, id, maxRange)
    ensures |Loads(FoundEntry, h, len, es, id, room, maxRange, load, k)| == room
    ensures Walk(FoundEntry, h, len, es, id, room, maxRange, load, k) == Err(InvalidArchive)
    decreases room
  {
    if room > 0 {
      var step := StepOn(h, len, FoundEntry(es, id), true);
      assert load(k, step.value.range).Ok?;
      BoundIsReached(h, len, load(k, step.value.range).value, id, room - 1, maxRange, load, k + 1);
    }
  }

  ghost predicate Searchable(es: seq<DirEntry>, id: nat)
  {
    NonDecreasing(es) && AtMostOnce(es, id)
  }

  // Over directories as the parser accepts them, with the id not repeated, the
  // walk with binary search is the walk with linear scans.
  lemma {:induction false} WalkIsScan(h: Header, len: nat, es: seq<DirEntry>, id: nat, room: nat, maxRange: nat, load: Loader, k: nat)
    requires Searchable(es, id)
    requires forall j, r :: load(j, r).Ok? ==> Searchable(load(j, r).value, id)
    ensures Walk(FoundEntry, h, len, es, id, room, maxRange, load, k) == Walk(Scan, h, len, es, id, room, maxRange, load, k)
    decreases room
  {
    FindIsScan(es, id);
    hide Searchable, StepOn;
    var step := StepOn(h, len, Scan(es, id), room > 0);
    if step.Some? && step.value.Leaf? && room > 0 && RangeAllowed(step.value.range, maxRange) {
      var next := load(k, step.value.range);
      if next.Ok? {
        WalkIsScan(h, len, next.value, id, room - 1, maxRange, load, k + 1);
      }
    }
  }
}
