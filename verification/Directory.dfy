// The columnar directory of section 4 of the PMTiles version 3 specification,
// as crates/mmpf-pmtiles/src/format.rs parses it, and the round trip with the
// encoder that section describes.
module Directory {
  import opened Types
  import opened Varint

  datatype DirEntry = DirEntry(tileId: nat, offset: nat, length: nat, runLength: nat)

  const DEFAULT_ENTRY := DirEntry(0, 0, 0, 0)

  // ---- the columns, front to back ----

  // Tile ids are stored as differences.
  function Ids(buf: seq<byte>, n: nat, last: nat): (r: Option<(seq<nat>, seq<byte>)>)
    ensures r.Some? ==> |r.value.0| == n
    decreases n
  {
    if n == 0 then Some(([], buf))
    else match ReadAt(buf)
      case None => None
      case Some((delta, k)) =>
        if last + delta >= U64_LIMIT then None
        else match Ids(buf[k..], n - 1, last + delta)
          case None => None
          case Some((tail, rest)) => Some(([last + delta] + tail, rest))
  }

  function Smalls(buf: seq<byte>, n: nat): (r: Option<(seq<nat>, seq<byte>)>)
    ensures r.Some? ==> |r.value.0| == n
    decreases n
  {
    if n == 0 then Some(([], buf))
    else match ReadAt(buf)
      case None => None
      case Some((v, k)) =>
        if v >= U32_LIMIT then None
        else match Smalls(buf[k..], n - 1)
          case None => None
          case Some((tail, rest)) => Some(([v] + tail, rest))
  }

  // An offset is stored plus one; zero means "right after the previous entry",
  // whose end is `last`.
  function NextOffset(v: nat, last: Option<nat>): (r: Option<nat>)
  {
    if v > 0 then Some(v - 1)
    else if last.Some? && last.value < U64_LIMIT then Some(last.value)
    else None
  }

  function Offsets(buf: seq<byte>, lengths: seq<nat>, last: Option<nat>): (r: Option<(seq<nat>, seq<byte>)>)
    ensures r.Some? ==> |r.value.0| == |lengths|
    decreases |lengths|
  {
    if lengths == [] then Some(([], buf))
    else match ReadAt(buf)
      case None => None
      case Some((v, k)) =>
        match NextOffset(v, last)
        case None => None
        case Some(offset) =>
          match Offsets(buf[k..], lengths[1..], Some(offset + lengths[0]))
          case None => None
          case Some((tail, rest)) => Some(([offset] + tail, rest))
  }

  function Zipped(ids: seq<nat>, runs: seq<nat>, lengths: seq<nat>, offsets: seq<nat>): (r: seq<DirEntry>)
    requires |ids| == |runs| == |lengths| == |offsets|
  {
    seq(|ids|, i requires 0 <= i < |ids| => DirEntry(ids[i], offsets[i], lengths[i], runs[i]))
  }

  function Parse(buf: seq<byte>): (r: Option<seq<DirEntry>>)
  {
    match ReadAt(buf)
    case None => None
    case Some((n, k)) =>
      if n * 4 >= U64_LIMIT || n * 4 > |buf| - k then None
      else match Ids(buf[k..], n, 0)
        case None => None
        case Some((ids, afterIds)) =>
          match Smalls(afterIds, n)
          case None => None
          case Some((runs, afterRuns)) =>
            match Smalls(afterRuns, n)
            case None => None
            case Some((lengths, afterLengths)) =>
              match Offsets(afterLengths, lengths, None)
              case None => None
              case Some((offsets, _)) => Some(Zipped(ids, runs, lengths, offsets))
  }

  // ---- the parser's loops ----

  function Prepend(done: seq<nat>, r: Option<(seq<nat>, seq<byte>)>): (p: Option<(seq<nat>, seq<byte>)>)
  {
    match r
    case None => None
    case Some((tail, rest)) => Some((done + tail, rest))
  }

  lemma PrependNothing(r: Option<(seq<nat>, seq<byte>)>)
    ensures Prepend([], r) == r
  {
    if r.Some? {
      assert [] + r.value.0 == r.value.0;
    }
  }

  lemma PrependMore(done: seq<nat>, x: nat, r: Option<(seq<nat>, seq<byte>)>)
    ensures Prepend(done + [x], r) == Prepend(done, Prepend([x], r))
  {
    if r.Some? {
      assert done + [x] + r.value.0 == done + ([x] + r.value.0);
    }
  }

  // One more number of a column, behind those already read; or its end.
  lemma IdsNext(buf: seq<byte>, n: nat, last: nat, done: seq<nat>)
    ensures n == 0 ==> Prepend(done, Ids(buf, n, last)) == Some((done, buf))
    ensures n > 0 ==>
              var v := ReadAt(buf);
              Prepend(done, Ids(buf, n, last)) ==
              if v.None? || last + v.value.0 >= U64_LIMIT then None
              else Prepend(done + [last + v.value.0], Ids(buf[v.value.1..], n - 1, last + v.value.0))
  {
    if n == 0 {
      assert done + [] == done;
    } else {
      var v := ReadAt(buf);
      if v.Some? && last + v.value.0 < U64_LIMIT {
        PrependMore(done, last + v.value.0, Ids(buf[v.value.1..], n - 1, last + v.value.0));
      }
    }
  }

  lemma SmallsNext(buf: seq<byte>, n: nat, done: seq<nat>)
    ensures n == 0 ==> Prepend(done, Smalls(buf, n)) == Some((done, buf))
    ensures n > 0 ==>
              var v := ReadAt(buf);
              Prepend(done, Smalls(buf, n)) ==
              if v.None? || v.value.0 >= U32_LIMIT then None
              else Prepend(done + [v.value.0], Smalls(buf[v.value.1..], n - 1))
  {
    if n == 0 {
      assert done + [] == done;
    } else {
      var v := ReadAt(buf);
      if v.Some? && v.value.0 < U32_LIMIT {
        PrependMore(done, v.value.0, Smalls(buf[v.value.1..], n - 1));
      }
    }
  }

  lemma OffsetsNext(buf: seq<byte>, lengths: seq<nat>, last: Option<nat>, done: seq<nat>)
    ensures lengths == [] ==> Prepend(done, Offsets(buf, lengths, last)) == Some((done, buf))
    ensures lengths != [] ==>
              var v := ReadAt(buf);
              Prepend(done, Offsets(buf, lengths, last)) ==
              if v.None? || NextOffset(v.value.0, last).None? then None
              else
                var offset := NextOffset(v.value.0, last).value;
                Prepend(done + [offset], Offsets(buf[v.value.1..], lengths[1..], Some(offset + lengths[0])))
  {
    if lengths == [] {
      assert done + [] == done;
    } else {
      hide ReadAt, NextOffset;
      var v := ReadAt(buf);
      if v.Some? && NextOffset(v.value.0, last).Some? {
        var offset := NextOffset(v.value.0, last).value;
        var tail := Offsets(buf[v.value.1..], lengths[1..], Some(offset + lengths[0]));
        assert Offsets(buf, lengths, last) == Prepend([offset], tail);
        PrependMore(done, offset, tail);
      }
    }
  }

  method ReadIds(buf: seq<byte>, entries: array<DirEntry>) returns (ok: bool, rest: seq<byte>)
    modifies entries
    ensures ok <==> Ids(buf, entries.Length, 0).Some?
    ensures ok ==> rest == Ids(buf, entries.Length, 0).value.1
    ensures ok ==> forall i :: 0 <= i < entries.Length ==>
           entries[i] == old(entries[i]).(tileId := Ids(buf, entries.Length, 0).value.0[i])
  {
    hide Ids, ReadAt, Prepend;
    rest := buf;
    var next: nat := 0;
    ghost var done: seq<nat> := [];
    PrependNothing(Ids(buf, entries.Length, 0));
    for i := 0 to entries.Length
      invariant |done| == i
      invariant Ids(buf, entries.Length, 0) == Prepend(done, Ids(rest, entries.Length - i, next))
      invariant forall j :: 0 <= j < i ==> entries[j] == old(entries[j]).(tileId := done[j])
      invariant forall j :: i <= j < entries.Length ==> entries[j] == old(entries[j])
    {
      IdsNext(rest, entries.Length - i, next, done);
      var delta, after := ReadVarint(rest);
      if delta.None? || next + delta.value >= U64_LIMIT {
        return false, rest;
      }
      next := next + delta.value;
      rest := after;
      entries[i] := entries[i].(tileId := next);
      done := done + [next];
    }
    IdsNext(rest, 0, next, done);
    ok := true;
  }

  method ReadRuns(buf: seq<byte>, entries: array<DirEntry>) returns (ok: bool, rest: seq<byte>)
    modifies entries
    ensures ok <==> Smalls(buf, entries.Length).Some?
    ensures ok ==> rest == Smalls(buf, entries.Length).value.1
    ensures ok ==> forall i :: 0 <= i < entries.Length ==>
           entries[i] == old(entries[i]).(runLength := Smalls(buf, entries.Length).value.0[i])
  {
    hide Smalls, ReadAt, Prepend;
    rest := buf;
    ghost var done: seq<nat> := [];
    PrependNothing(Smalls(buf, entries.Length));
    for i := 0 to entries.Length
      invariant |done| == i
      invariant Smalls(buf, entries.Length) == Prepend(done, Smalls(rest, entries.Length - i))
      invariant forall j :: 0 <= j < i ==> entries[j] == old(entries[j]).(runLength := done[j])
      invariant forall j :: i <= j < entries.Length ==> entries[j] == old(entries[j])
    {
      SmallsNext(rest, entries.Length - i, done);
      var v, after := ReadVarint(rest);
      if v.None? || v.value >= U32_LIMIT {
        return false, rest;
      }
      rest := after;
      entries[i] := entries[i].(runLength := v.value);
      done := done + [v.value];
    }
    SmallsNext(rest, 0, done);
    ok := true;
  }

  method ReadLengths(buf: seq<byte>, entries: array<DirEntry>) returns (ok: bool, rest: seq<byte>)
    modifies entries
    ensures ok <==> Smalls(buf, entries.Length).Some?
    ensures ok ==> rest == Smalls(buf, entries.Length).value.1
    ensures ok ==> forall i :: 0 <= i < entries.Length ==>
           entries[i] == old(entries[i]).(length := Smalls(buf, entries.Length).value.0[i])
  {
    hide Smalls, ReadAt, Prepend;
    rest := buf;
    ghost var done: seq<nat> := [];
    PrependNothing(Smalls(buf, entries.Length));
    for i := 0 to entries.Length
      invariant |done| == i
      invariant Smalls(buf, entries.Length) == Prepend(done, Smalls(rest, entries.Length - i))
      invariant forall j :: 0 <= j < i ==> entries[j] == old(entries[j]).(length := done[j])
      invariant forall j :: i <= j < entries.Length ==> entries[j] == old(entries[j])
    {
      SmallsNext(rest, entries.Length - i, done);
      var v, after := ReadVarint(rest);
      if v.None? || v.value >= U32_LIMIT {
        return false, rest;
      }
      rest := after;
      entries[i] := entries[i].(length := v.value);
      done := done + [v.value];
    }
    SmallsNext(rest, 0, done);
    ok := true;
  }

  method ReadOffsets(buf: seq<byte>, ghost lengths: seq<nat>, entries: array<DirEntry>) returns (ok: bool)
    requires |lengths| == entries.Length && forall i :: 0 <= i < entries.Length ==> entries[i].length == lengths[i]
    modifies entries
    ensures ok <==> Offsets(buf, lengths, None).Some?
    ensures ok ==> forall i :: 0 <= i < entries.Length ==>
           entries[i] == old(entries[i]).(offset := Offsets(buf, lengths, None).value.0[i])
  {
    hide Offsets, ReadAt, Prepend, NextOffset;
    var rest := buf;
    var previous: Option<nat> := None;
    ghost var done: seq<nat> := [];
    assert lengths[0..] == lengths;
    PrependNothing(Offsets(buf, lengths, None));
    for i := 0 to entries.Length
      invariant |done| == i
      invariant Offsets(buf, lengths, None) == Prepend(done, Offsets(rest, lengths[i..], previous))
      invariant forall j :: 0 <= j < i ==> entries[j] == old(entries[j]).(offset := done[j])
      invariant forall j :: i <= j < entries.Length ==> entries[j] == old(entries[j])
    {
      OffsetsNext(rest, lengths[i..], previous, done);
      var v, after := ReadVarint(rest);
      if v.None? {
        return false;
      }
      var offset := NextOffset(v.value, previous);
      if offset.None? {
        return false;
      }
      assert lengths[i..][1..] == lengths[i + 1..];
      rest := after;
      entries[i] := entries[i].(offset := offset.value);
      previous := Some(offset.value + entries[i].length);
      done := done + [offset.value];
    }
    assert lengths[entries.Length..] == [];
    OffsetsNext(rest, [], previous, done);
    ok := true;
  }

  // `Directory::parse_with_limit` on the decompressed bytes.
  method ParseDirectory(buf: seq<byte>) returns (r: Option<seq<DirEntry>>)
    ensures r == Parse(buf)
  {
    var count, rest := ReadVarint(buf);
    if count.None? {
      return None;
    }
    var n := count.value;
    if n * 4 >= U64_LIMIT || n * 4 > |rest| {
      return None;
    }
    var entries := new DirEntry[n](_ => DEFAULT_ENTRY);
    var ok;
    ok, rest := ReadIds(rest, entries);
    if !ok {
      return None;
    }
    ok, rest := ReadRuns(rest, entries);
    if !ok {
      return None;
    }
    ghost var beforeLengths := rest;
    ok, rest := ReadLengths(rest, entries);
    if !ok {
      return None;
    }
    ok := ReadOffsets(rest, Smalls(beforeLengths, n).value.0, entries);
    if !ok {
      return None;
    }
    r := Some(entries[..]);
    assert entries[..] == Parse(buf).value;
  }
}
