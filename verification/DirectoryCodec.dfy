// Writing a directory by section 4 of the PMTiles version 3 specification and
// parsing it back, and which entry lists a parse can produce at all.
module DirectoryCodec {
  import opened Types
  import opened Varint
  import opened Directory

  function IdColumn(es: seq<DirEntry>, last: nat): (s: seq<byte>)
    requires Ascending(es, last)
  {
    if es == [] then [] else Encode(es[0].tileId - last) + IdColumn(es[1..], es[0].tileId)
  }

  function RunColumn(es: seq<DirEntry>): (s: seq<byte>)
  {
    if es == [] then [] else Encode(es[0].runLength) + RunColumn(es[1..])
  }

  function LengthColumn(es: seq<DirEntry>): (s: seq<byte>)
  {
    if es == [] then [] else Encode(es[0].length) + LengthColumn(es[1..])
  }

  function Stored(offset: nat, last: Option<nat>): (v: nat)
  {
    if last == Some(offset) then 0 else offset + 1
  }

  function OffsetColumn(es: seq<DirEntry>, last: Option<nat>): (s: seq<byte>)
  {
    if es == [] then []
    else Encode(Stored(es[0].offset, last))
         + OffsetColumn(es[1..], Some(es[0].offset + es[0].length))
  }

  // Ids never decrease (and start at or after `last`).
  ghost predicate Ascending(es: seq<DirEntry>, last: nat)
  {
    es == [] || (last <= es[0].tileId < U64_LIMIT && Ascending(es[1..], es[0].tileId))
  }

  ghost predicate Narrow(es: seq<DirEntry>)
  {
    forall i :: 0 <= i < |es| ==> es[i].length < U32_LIMIT && es[i].runLength < U32_LIMIT
  }

  // Every offset either leaves room for the stored plus-one, or is implied.
  ghost predicate OffsetsFit(es: seq<DirEntry>, last: Option<nat>)
  {
    es == [] || ((es[0].offset + 1 < U64_LIMIT || (last == Some(es[0].offset) && es[0].offset < U64_LIMIT))
                 && OffsetsFit(es[1..], Some(es[0].offset + es[0].length)))
  }

  ghost predicate Encodable(es: seq<DirEntry>)
  {
    |es| * 4 < U64_LIMIT && Ascending(es, 0) && Narrow(es) && OffsetsFit(es, None)
  }

  function EncodeDirectory(es: seq<DirEntry>): (s: seq<byte>)
    requires Ascending(es, 0)
  {
    Encode(|es|) + (IdColumn(es, 0) + (RunColumn(es) + (LengthColumn(es) + OffsetColumn(es, None))))
  }

  function TileIds(es: seq<DirEntry>): (r: seq<nat>) { seq(|es|, i requires 0 <= i < |es| => es[i].tileId) }
  function Runs(es: seq<DirEntry>): (r: seq<nat>) { seq(|es|, i requires 0 <= i < |es| => es[i].runLength) }
  function Lengths(es: seq<DirEntry>): (r: seq<nat>) { seq(|es|, i requires 0 <= i < |es| => es[i].length) }
  function EntryOffsets(es: seq<DirEntry>): (r: seq<nat>) { seq(|es|, i requires 0 <= i < |es| => es[i].offset) }

  // Reading at the front of an encoded number followed by anything.
  lemma FrontNumber(v: nat, rest: seq<byte>)
    requires v < U64_LIMIT
    ensures var buf := Encode(v) + rest;
      ReadAt(buf) == Some((v, |Encode(v)|)) && buf[|Encode(v)|..] == rest
  {
    ReadEncoded(v, rest);
  }

  lemma IdsOne(buf: seq<byte>, n: nat, last: nat, delta: nat, k: nat, tail: seq<nat>, rest: seq<byte>)
    requires n > 0 && ReadAt(buf) == Some((delta, k)) && last + delta < U64_LIMIT
    requires Ids(buf[k..], n - 1, last + delta) == Some((tail, rest))
    ensures Ids(buf, n, last) == Some(([last + delta] + tail, rest))
  {
  }

  lemma OffsetsOne(buf: seq<byte>, lengths: seq<nat>, last: Option<nat>, v: nat, k: nat, tail: seq<nat>, rest: seq<byte>)
    requires lengths != [] && ReadAt(buf) == Some((v, k)) && NextOffset(v, last).Some?
    requires Offsets(buf[k..], lengths[1..], Some(NextOffset(v, last).value + lengths[0])) == Some((tail, rest))
    ensures Offsets(buf, lengths, last) == Some(([NextOffset(v, last).value] + tail, rest))
  {
  }

  lemma IdColumnStep(es: seq<DirEntry>, last: nat, rest: seq<byte>)
    requires es != [] && Ascending(es, last)
    ensures IdColumn(es, last) + rest == Encode(es[0].tileId - last) + (IdColumn(es[1..], es[0].tileId) + rest)
  {
  }

  lemma TileIdsStep(es: seq<DirEntry>)
    requires es != []
    ensures TileIds(es) == [es[0].tileId] + TileIds(es[1..])
  {
  }

  lemma AscendingStep(es: seq<DirEntry>, last: nat)
    requires es != [] && Ascending(es, last)
    ensures last <= es[0].tileId < U64_LIMIT && Ascending(es[1..], es[0].tileId)
  {
  }

  lemma NoIds(es: seq<DirEntry>, last: nat, rest: seq<byte>)
    requires es == []
    ensures Ascending(es, last) && Ids(IdColumn(es, last) + rest, |es|, last) == Some((TileIds(es), rest))
  {
    assert IdColumn(es, last) + rest == rest;
    assert TileIds(es) == [];
  }

  lemma {:induction false} IdsBack(es: seq<DirEntry>, last: nat, rest: seq<byte>)
    requires Ascending(es, last)
    ensures Ids(IdColumn(es, last) + rest, |es|, last) == Some((TileIds(es), rest))
  {
    hide *;
    if es == [] {
      NoIds(es, last, rest);
    } else {
      AscendingStep(es, last);
      var delta := es[0].tileId - last;
      var tail := IdColumn(es[1..], es[0].tileId) + rest;
      IdColumnStep(es, last, rest);
      FrontNumber(delta, tail);
      IdsBack(es[1..], es[0].tileId, rest);
      IdsOne(Encode(delta) + tail, |es|, last, delta, |Encode(delta)|, TileIds(es[1..]), rest);
      TileIdsStep(es);
    }
  }

  lemma {:induction false} RunsBack(es: seq<DirEntry>, rest: seq<byte>)
    requires Narrow(es)
    ensures Smalls(RunColumn(es) + rest, |es|) == Some((Runs(es), rest))
    ensures |RunColumn(es)| >= |es|
  {
    if es == [] {
      assert RunColumn(es) + rest == rest;
    } else {
      var tail := RunColumn(es[1..]) + rest;
      assert RunColumn(es) + rest == Encode(es[0].runLength) + tail;
      FrontNumber(es[0].runLength, tail);
      RunsBack(es[1..], rest);
      assert Runs(es) == [es[0].runLength] + Runs(es[1..]);
    }
  }

  lemma {:induction false} LengthsBack(es: seq<DirEntry>, rest: seq<byte>)
    requires Narrow(es)
    ensures Smalls(LengthColumn(es) + rest, |es|) == Some((Lengths(es), rest))
    ensures |LengthColumn(es)| >= |es|
  {
    if es == [] {
      assert LengthColumn(es) + rest == rest;
    } else {
      var tail := LengthColumn(es[1..]) + rest;
      assert LengthColumn(es) + rest == Encode(es[0].length) + tail;
      FrontNumber(es[0].length, tail);
      LengthsBack(es[1..], rest);
      assert Lengths(es) == [es[0].length] + Lengths(es[1..]);
    }
  }

  lemma OffsetColumnStep(es: seq<DirEntry>, last: Option<nat>, rest: seq<byte>)
    requires es != []
    ensures OffsetColumn(es, last) + rest
         == Encode(Stored(es[0].offset, last)) + (OffsetColumn(es[1..], Some(es[0].offset + es[0].length)) + rest)
  {
  }

  lemma OffsetsStep(es: seq<DirEntry>)
    requires es != []
    ensures EntryOffsets(es) == [es[0].offset] + EntryOffsets(es[1..])
    ensures Lengths(es) != [] && Lengths(es)[0] == es[0].length && Lengths(es)[1..] == Lengths(es[1..])
  {
  }

  lemma FitStep(es: seq<DirEntry>, last: Option<nat>)
    requires es != [] && OffsetsFit(es, last)
    ensures Stored(es[0].offset, last) < U64_LIMIT && NextOffset(Stored(es[0].offset, last), last) == Some(es[0].offset)
    ensures OffsetsFit(es[1..], Some(es[0].offset + es[0].length))
  {
  }

  lemma NoOffsets(es: seq<DirEntry>, last: Option<nat>, rest: seq<byte>)
    requires es == []
    ensures Offsets(OffsetColumn(es, last) + rest, Lengths(es), last) == Some((EntryOffsets(es), rest))
  {
    assert OffsetColumn(es, last) + rest == rest;
    assert Lengths(es) == [] && EntryOffsets(es) == [];
  }

  lemma {:induction false} OffsetsBack(es: seq<DirEntry>, last: Option<nat>, rest: seq<byte>)
    requires OffsetsFit(es, last)
    ensures Offsets(OffsetColumn(es, last) + rest, Lengths(es), last) == Some((EntryOffsets(es), rest))
  {
    hide *;
    if es == [] {
      NoOffsets(es, last, rest);
    } else {
      FitStep(es, last);
      OffsetsStep(es);
      var stored, next := Stored(es[0].offset, last), Some(es[0].offset + es[0].length);
      var tail := OffsetColumn(es[1..], next) + rest;
      OffsetColumnStep(es, last, rest);
      FrontNumber(stored, tail);
      OffsetsBack(es[1..], next, rest);
      OffsetsOne(Encode(stored) + tail, Lengths(es), last, stored, |Encode(stored)|, EntryOffsets(es[1..]), rest);
    }
  }

  // Every column spends at least a byte per entry.
  lemma {:induction false} IdColumnLength(es: seq<DirEntry>, last: nat)
    requires Ascending(es, last)
    ensures |IdColumn(es, last)| >= |es|
  {
    if es != [] {
      IdColumnLength(es[1..], es[0].tileId);
    }
  }

  lemma {:induction false} OffsetColumnLength(es: seq<DirEntry>, last: Option<nat>)
    ensures |OffsetColumn(es, last)| >= |es|
  {
    if es != [] {
      OffsetColumnLength(es[1..], Some(es[0].offset + es[0].length));
    }
  }

  // Round trip: parsing what was written gives the same entries, whatever
  // bytes follow.
  lemma ParseEncoded(es: seq<DirEntry>, trailing: seq<byte>)
    requires Encodable(es)
    ensures Parse(EncodeDirectory(es) + trailing) == Some(es)
  {
    var d := OffsetColumn(es, None) + trailing;
    var c := LengthColumn(es) + d;
    var b := RunColumn(es) + c;
    var a := IdColumn(es, 0) + b;
    var buf := EncodeDirectory(es) + trailing;
    assert buf == Encode(|es|) + a;
    FrontNumber(|es|, a);
    IdsBack(es, 0, b);
    RunsBack(es, c);
    LengthsBack(es, d);
    OffsetsBack(es, None, trailing);
    IdColumnLength(es, 0);
    OffsetColumnLength(es, None);
    assert |a| >= |es| * 4;
    assert Zipped(TileIds(es), Runs(es), Lengths(es), EntryOffsets(es)) == es;
  }

  // ---- what a parse can produce ----

  lemma {:induction false} IdsAscend(buf: seq<byte>, n: nat, last: nat, es: seq<DirEntry>)
    requires Ids(buf, n, last).Some? && |es| == n && TileIds(es) == Ids(buf, n, last).value.0
    ensures Ascending(es, last)
    decreases n
  {
    if n > 0 {
      var (delta, k) := ReadAt(buf).value;
      assert TileIds(es)[0] == es[0].tileId;
      assert TileIds(es[1..]) == TileIds(es)[1..];
      IdsAscend(buf[k..], n - 1, last + delta, es[1..]);
    }
  }

  lemma {:induction false} SmallsNarrow(buf: seq<byte>, n: nat)
    requires Smalls(buf, n).Some?
    ensures forall i :: 0 <= i < n ==> Smalls(buf, n).value.0[i] < U32_LIMIT
    decreases n
  {
    if n > 0 {
      SmallsNarrow(buf[ReadAt(buf).value.1..], n - 1);
    }
  }

  lemma {:induction false} OffsetsAreFit(buf: seq<byte>, last: Option<nat>, es: seq<DirEntry>)
    requires Offsets(buf, Lengths(es), last).Some? && EntryOffsets(es) == Offsets(buf, Lengths(es), last).value.0
    ensures OffsetsFit(es, last)
    decreases |es|
  {
    if es != [] {
      var (v, k) := ReadAt(buf).value;
      assert EntryOffsets(es)[0] == es[0].offset;
      assert Lengths(es)[1..] == Lengths(es[1..]) && EntryOffsets(es)[1..] == EntryOffsets(es[1..]);
      OffsetsAreFit(buf[k..], Some(es[0].offset + es[0].length), es[1..]);
    }
  }

  // A list is the parse of some bytes exactly when it is encodable: ids in
  // 64-bit order, 32-bit lengths and runs, storable offsets.
  lemma ParsedIsEncodable(buf: seq<byte>)
    requires Parse(buf).Some?
    ensures Encodable(Parse(buf).value)
    ensures Parse(EncodeDirectory(Parse(buf).value)) == Parse(buf)
  {
    var es := Parse(buf).value;
    var (n, k) := ReadAt(buf).value;
    var (ids, afterIds) := Ids(buf[k..], n, 0).value;
    var (runs, afterRuns) := Smalls(afterIds, n).value;
    var (lengths, afterLengths) := Smalls(afterRuns, n).value;
    var (offsets, _) := Offsets(afterLengths, lengths, None).value;
    assert TileIds(es) == ids && Lengths(es) == lengths && EntryOffsets(es) == offsets;
    IdsAscend(buf[k..], n, 0, es);
    SmallsNarrow(afterIds, n);
    SmallsNarrow(afterRuns, n);
    OffsetsAreFit(afterLengths, None, es);
    ParseEncoded(es, []);
    assert EncodeDirectory(es) + [] == EncodeDirectory(es);
  }

  lemma {:induction false} AscendingOrder(es: seq<DirEntry>, last: nat, i: nat, j: nat)
    requires Ascending(es, last) && i < j < |es|
    ensures last <= es[i].tileId <= es[j].tileId
  {
    if i > 0 {
      AscendingOrder(es[1..], es[0].tileId, i - 1, j - 1);
    } else if j > 1 {
      AscendingOrder(es[1..], es[0].tileId, 0, j - 1);
    } else {
      assert es[1..][0] == es[1];
    }
  }

  // What a lookup may rely on: parsed ids never decrease.
  lemma ParsedNeverDecreases(buf: seq<byte>)
    requires Parse(buf).Some?
    ensures forall i, j :: 0 <= i < j < |Parse(buf).value| ==> Parse(buf).value[i].tileId <= Parse(buf).value[j].tileId
  {
    hide Parse;
    ParsedIsEncodable(buf);
    var es := Parse(buf).value;
    forall i, j | 0 <= i < j < |es| ensures es[i].tileId <= es[j].tileId {
      AscendingOrder(es, 0, i, j);
    }
  }
}
