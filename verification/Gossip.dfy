// Publishing a node's workers as changed keys, and decoding the accumulated map
// in whatever order its keys come (crates/biei-core/src/types.rs, node.rs and
// worker_pool.rs).
module Gossip {
  import opened Types
  import opened Decimal
  import opened GossipText

  type Kvs = map<string, string>

  // ---- encoding ----

  // A snapshot's workers: numbered from zero, machine-sized fields.
  ghost predicate Encodable(ws: seq<WorkerView>)
  {
    && |ws| <= U32_LIMIT
    && forall i :: 0 <= i < |ws| ==> ws[i].id == i && WorkerFits(ws[i])
  }

  predicate WorkerFits(w: WorkerView)
  {
    w.queueDepth < U64_LIMIT && (w.loaded.Some? ==> w.loaded.value.style.version < U64_LIMIT)
  }

  function FieldValue(w: WorkerView, f: Field): (r: string)
  {
    match f
    case Style => if w.loaded.Some? then RevisionText(w.loaded.value.style) else ""
    case Mode => if w.loaded.Some? then ModeText(w.loaded.value.mode) else ""
    case ScaleField => if w.loaded.Some? then ScaleText(w.loaded.value.scale) else ""
    case Queue => Print(w.queueDepth)
  }

  function BoolText(b: bool): (r: string)
  {
    if b then "true" else "false"
  }

  // Every field of every worker and nothing else.
  ghost predicate WorkersIn(m: Kvs, ws: seq<WorkerView>)
  {
    && (forall i: nat, f :: i < |ws| ==> WorkerKey(i, f) in m && m[WorkerKey(i, f)] == FieldValue(ws[i], f))
    && (forall k :: k in m ==> IsWorkerKey(k, |ws|))
  }

  ghost predicate IsWorkerKey(k: string, n: nat)
  {
    exists i: nat, f :: i < n && k == WorkerKey(i, f)
  }

  ghost predicate SnapshotOf(m: Kvs, ws: seq<WorkerView>, accepts: bool)
  {
    && ADMISSION_KEY in m && m[ADMISSION_KEY] == BoolText(accepts)
    && WorkersIn(m - {ADMISSION_KEY}, ws)
  }

  method EncodeWorker(m: Kvs, w: WorkerView) returns (r: Kvs)
    ensures r == m[WorkerKey(w.id, Style) := FieldValue(w, Style)]
                  [WorkerKey(w.id, Mode) := FieldValue(w, Mode)]
                  [WorkerKey(w.id, ScaleField) := FieldValue(w, ScaleField)]
                  [WorkerKey(w.id, Queue) := FieldValue(w, Queue)]
  {
    var style, mode, scale := "", "", "";
    if w.loaded.Some? {
      style := RevisionText(w.loaded.value.style);
      mode := ModeText(w.loaded.value.mode);
      scale := ScaleText(w.loaded.value.scale);
    }
    r := m[WorkerKey(w.id, Style) := style];
    r := r[WorkerKey(w.id, Mode) := mode];
    r := r[WorkerKey(w.id, ScaleField) := scale];
    r := r[WorkerKey(w.id, Queue) := Print(w.queueDepth)];
  }

  lemma KeysDistinct(i: nat, f: Field, j: nat, g: Field)
    requires i < U32_LIMIT && j < U32_LIMIT
    ensures WorkerKey(i, f) == WorkerKey(j, g) <==> i == j && f == g
    ensures WorkerKey(i, f) != ADMISSION_KEY
  {
    KeyRoundTrip(i, f);
    KeyRoundTrip(j, g);
    AdmissionIsNotWorker(WorkerKey(i, f));
  }

  method SnapshotKvs(ws: seq<WorkerView>, accepts: bool) returns (m: Kvs)
    requires Encodable(ws)
    ensures SnapshotOf(m, ws, accepts)
  {
    hide WorkerKey, FieldValue;
    m := map[];
    for n := 0 to |ws|
      invariant WorkersIn(m, ws[..n])
    {
      ghost var before := m;
      m := EncodeWorker(m, ws[n]);
      EncodedOneMore(before, m, ws, n);
    }
    assert ws[..|ws|] == ws;
    assert ADMISSION_KEY !in m by {
      if ADMISSION_KEY in m {
        var i: nat, f :| i < |ws| && ADMISSION_KEY == WorkerKey(i, f);
        KeysDistinct(i, f, i, f);
      }
    }
    ghost var workers := m;
    m := m[ADMISSION_KEY := BoolText(accepts)];
    assert m - {ADMISSION_KEY} == workers;
  }

  lemma EncodedOneMore(before: Kvs, after: Kvs, ws: seq<WorkerView>, n: nat)
    requires Encodable(ws) && n < |ws| && WorkersIn(before, ws[..n])
    requires after == before[WorkerKey(n, Style) := FieldValue(ws[n], Style)]
                            [WorkerKey(n, Mode) := FieldValue(ws[n], Mode)]
                            [WorkerKey(n, ScaleField) := FieldValue(ws[n], ScaleField)]
                            [WorkerKey(n, Queue) := FieldValue(ws[n], Queue)]
    ensures WorkersIn(after, ws[..n + 1])
  {
    hide WorkerKey, FieldValue;
    forall i: nat, f, g | i < U32_LIMIT ensures WorkerKey(i, f) == WorkerKey(n, g) <==> i == n && f == g {
      KeysDistinct(i, f, n, g);
    }
    forall i: nat, f | i < n + 1 ensures WorkerKey(i, f) in after && after[WorkerKey(i, f)] == FieldValue(ws[i], f) {
      if i < n {
        assert WorkerKey(i, f) in before;
      } else {
        match f
        case Style => case Mode => case ScaleField => case Queue =>
      }
    }
    forall k | k in after ensures IsWorkerKey(k, n + 1) {
      if k in before {
        var i: nat, f :| i < n && k == WorkerKey(i, f);
      }
    }
  }

  // ---- decoding ----

  datatype Builder = Builder(
    revision: Option<Option<StyleRevision>>,
    mode: Option<RenderMode>,
    scale: Option<Scale>,
    queue: Option<nat>)

  const EMPTY_BUILDER := Builder(None, None, None, None)

  datatype Decoding = Decoding(accepts: bool, builders: map<nat, Builder>)

  function SetField(b: Builder, f: Field, value: string): (r: Builder)
  {
    match f
    case Style =>
      if value == "" then b.(revision := Some(None))
      else if ParseRevision(value).Some? then b.(revision := Some(ParseRevision(value)))
      else b
    case Mode => if value == "" then b else b.(mode := ParseMode(value))
    case ScaleField => if value == "" then b else b.(scale := ParseScale(value))
    case Queue => b.(queue := Parse(value, U64_LIMIT))
  }

  function DecodePair(d: Decoding, key: string, value: string): (r: Decoding)
  {
    match ParseKey(key)
    case Admission => d.(accepts := value == "true")
    case Foreign => d
    case WorkerField(i, f) =>
      var b := if i in d.builders then d.builders[i] else EMPTY_BUILDER;
      d.(builders := d.builders[i := if f.Some? then SetField(b, f.value, value) else b])
  }

  ghost function Decode(kvs: seq<(string, string)>): (r: Decoding)
  {
    if kvs == [] then Decoding(false, map[])
    else DecodePair(Decode(kvs[..|kvs| - 1]), kvs[|kvs| - 1].0, kvs[|kvs| - 1].1)
  }

  // A builder that never got its style or queue, or lacks part of its profile,
  // is a partial worker.
  function Build(i: nat, b: Builder): (r: Option<WorkerView>)
  {
    if b.revision.None? || b.queue.None? then None
    else if b.revision.value.None? then Some(WorkerView(i, None, b.queue.value))
    else if b.mode.None? || b.scale.None? then None
    else Some(WorkerView(i, Some(WorkerProfile(b.revision.value.value, b.mode.value, b.scale.value)), b.queue.value))
  }

  ghost predicate Ascending(ws: seq<WorkerView>)
  {
    forall i, j :: 0 <= i < j < |ws| ==> ws[i].id < ws[j].id
  }

  // The complete workers among the keys in `done`, in id order.
  ghost predicate BuiltSoFar(builders: map<nat, Builder>, done: set<nat>, ws: seq<WorkerView>)
  {
    && Ascending(ws)
    && forall w :: w in ws <==> w.id in done && w.id in builders && Build(w.id, builders[w.id]) == Some(w)
  }

  ghost predicate BuiltFrom(builders: map<nat, Builder>, ws: seq<WorkerView>)
  {
    BuiltSoFar(builders, builders.Keys, ws)
  }

  lemma BuildNext(builders: map<nat, Builder>, done: set<nat>, ws: seq<WorkerView>, k: nat)
    requires BuiltSoFar(builders, done, ws) && k in builders && k !in done
    requires forall j :: j in done ==> j < k
    ensures var w := Build(k, builders[k]);
            BuiltSoFar(builders, done + {k}, if w.Some? then ws + [w.value] else ws)
  {
    hide Build;
    BuildKeepsId(k, builders[k]);
    assert forall i :: 0 <= i < |ws| ==> ws[i] in ws;
  }

  method LeastKey(s: set<nat>) returns (k: nat)
    requires s != {}
    ensures k in s && forall i :: i in s ==> k <= i
  {
    k :| k in s;
    var rest := s - {k};
    while rest != {}
      invariant rest <= s && k in s
      invariant forall i :: i in s && i !in rest ==> k <= i
      decreases rest
    {
      var x :| x in rest;
      if x < k {
        k := x;
      }
      rest := rest - {x};
    }
  }

  // Iteration over an ordered map: always the least key not yet seen.
  method CollectWorkers(builders: map<nat, Builder>) returns (ws: seq<WorkerView>)
    ensures BuiltFrom(builders, ws)
  {
    hide Build, BuiltSoFar;
    ws := [];
    var rest := builders.Keys;
    ghost var done: set<nat> := {};
    BuiltNothing(builders);
    while rest != {}
      invariant rest <= builders.Keys && done == builders.Keys - rest
      invariant forall j, i :: j in done && i in rest ==> j < i
      invariant BuiltSoFar(builders, done, ws)
      decreases rest
    {
      var k := LeastKey(rest);
      BuildNext(builders, done, ws, k);
      var w := Build(k, builders[k]);
      if w.Some? {
        ws := ws + [w.value];
      }
      assert forall i :: i in rest - {k} ==> k < i;
      rest, done := rest - {k}, done + {k};
    }
    assert done == builders.Keys;
  }

  lemma BuiltNothing(builders: map<nat, Builder>)
    ensures BuiltSoFar(builders, {}, [])
  {
  }

  lemma BuildKeepsId(i: nat, b: Builder)
    ensures Build(i, b).Some? ==> Build(i, b).value.id == i
  {
  }

  method FromKvs(id: NodeId, kvs: seq<(string, string)>) returns (n: NodeStateView)
    ensures n.id == id && n.accepts == Decode(kvs).accepts && BuiltFrom(Decode(kvs).builders, n.workers)
  {
    hide DecodePair;
    var d := Decoding(false, map[]);
    for k := 0 to |kvs|
      invariant d == Decode(kvs[..k])
    {
      assert kvs[..k + 1][..k] == kvs[..k];
      d := DecodePair(d, kvs[k].0, kvs[k].1);
    }
    assert kvs[..|kvs|] == kvs;
    var ws := CollectWorkers(d.builders);
    return NodeStateView(id, d.accepts, ws);
  }

  // ---- the round trip ----

  // Any order, with or without repeats, that shows the whole map.
  ghost predicate Lists(kvs: seq<(string, string)>, m: Kvs)
  {
    && (forall i :: 0 <= i < |kvs| ==> kvs[i].0 in m && kvs[i].1 == m[kvs[i].0])
    && (forall k :: k in m ==> exists i :: 0 <= i < |kvs| && kvs[i].0 == k)
  }

  ghost function Seen(kvs: seq<(string, string)>): (r: set<string>)
  {
    set i | 0 <= i < |kvs| :: kvs[i].0
  }

  // What worker i's builder holds once the keys in `seen` have come by.
  ghost function Partial(w: WorkerView, seen: set<string>): (r: Builder)
  {
    Builder(
      if WorkerKey(w.id, Style) !in seen then None
      else if w.loaded.None? then Some(None)
      else if w.loaded.value.style.id == "" then None
      else Some(Some(w.loaded.value.style)),
      if WorkerKey(w.id, Mode) in seen && w.loaded.Some? then Some(w.loaded.value.mode) else None,
      if WorkerKey(w.id, ScaleField) in seen && w.loaded.Some? then Some(w.loaded.value.scale) else None,
      if WorkerKey(w.id, Queue) in seen then Some(w.queueDepth) else None)
  }

  ghost predicate Mentioned(i: nat, seen: set<string>)
  {
    exists f :: WorkerKey(i, f) in seen
  }

  ghost predicate DecodedSoFar(d: Decoding, ws: seq<WorkerView>, accepts: bool, seen: set<string>)
  {
    && d.accepts == (ADMISSION_KEY in seen && accepts)
    && (forall i: nat :: i in d.builders <==> i < |ws| && Mentioned(i, seen))
    && (forall i: nat :: i in d.builders ==> d.builders[i] == Partial(ws[i], seen))
  }

  lemma SetFieldValue(w: WorkerView, f: Field, seen: set<string>)
    requires w.id < U32_LIMIT && WorkerFits(w)
    ensures SetField(Partial(w, seen), f, FieldValue(w, f)) == Partial(w, seen + {WorkerKey(w.id, f)})
  {
    hide WorkerKey, Parse, Print, ParseRevision, RevisionText;
    forall g ensures WorkerKey(w.id, g) == WorkerKey(w.id, f) <==> g == f {
      KeysDistinct(w.id, g, w.id, f);
    }
    ParsePrinted(w.queueDepth, U64_LIMIT);
    if w.loaded.Some? {
      RevisionRoundTrip(w.loaded.value.style);
      RevisionNotEmpty(w.loaded.value.style);
      assert ParseMode(ModeText(w.loaded.value.mode)) == Some(w.loaded.value.mode) && ModeText(w.loaded.value.mode) != "";
      assert ParseScale(ScaleText(w.loaded.value.scale)) == Some(w.loaded.value.scale) && ScaleText(w.loaded.value.scale) != "";
    }
  }

  lemma RevisionNotEmpty(r: StyleRevision)
    ensures RevisionText(r) != ""
  {
    assert |RevisionText(r)| > 0;
  }

  // A key speaks only about its own worker.
  lemma OtherWorker(w: WorkerView, seen: set<string>, i: nat, f: Field)
    requires w.id < U32_LIMIT && i < U32_LIMIT && w.id != i
    ensures Mentioned(w.id, seen + {WorkerKey(i, f)}) <==> Mentioned(w.id, seen)
    ensures Partial(w, seen + {WorkerKey(i, f)}) == Partial(w, seen)
  {
    hide WorkerKey;
    forall g ensures WorkerKey(w.id, g) != WorkerKey(i, f) {
      KeysDistinct(w.id, g, i, f);
    }
    assert forall g :: WorkerKey(w.id, g) in seen + {WorkerKey(i, f)} <==> WorkerKey(w.id, g) in seen;
  }

  lemma Unmentioned(w: WorkerView, seen: set<string>)
    requires !Mentioned(w.id, seen)
    ensures Partial(w, seen) == EMPTY_BUILDER
  {
    hide WorkerKey;
    assert forall g :: WorkerKey(w.id, g) !in seen;
  }

  lemma DecodeWorkerKey(d: Decoding, ws: seq<WorkerView>, accepts: bool, seen: set<string>, i: nat, f: Field)
    requires Encodable(ws) && i < |ws| && DecodedSoFar(d, ws, accepts, seen)
    ensures DecodedSoFar(DecodePair(d, WorkerKey(i, f), FieldValue(ws[i], f)), ws, accepts, seen + {WorkerKey(i, f)})
  {
    hide WorkerKey, SetField, FieldValue, ParseKey, Partial, Mentioned, WorkerFits;
    var key := WorkerKey(i, f);
    KeyRoundTrip(i, f);
    KeysDistinct(i, f, i, f);
    SetFieldValue(ws[i], f, seen);
    Mention(i, f, seen);
    if i !in d.builders {
      Unmentioned(ws[i], seen);
    }
    forall j: nat | j < |ws| && j != i
      ensures Mentioned(j, seen + {key}) <==> Mentioned(j, seen)
      ensures Partial(ws[j], seen + {key}) == Partial(ws[j], seen)
    {
      OtherWorker(ws[j], seen, i, f);
    }
  }

  lemma Mention(i: nat, f: Field, seen: set<string>)
    ensures Mentioned(i, seen + {WorkerKey(i, f)})
  {
    assert WorkerKey(i, f) in seen + {WorkerKey(i, f)};
  }

  lemma {:induction false} DecodeInvariant(kvs: seq<(string, string)>, m: Kvs, ws: seq<WorkerView>, accepts: bool)
    requires Encodable(ws) && SnapshotOf(m, ws, accepts)
    requires forall i :: 0 <= i < |kvs| ==> kvs[i].0 in m && kvs[i].1 == m[kvs[i].0]
    ensures DecodedSoFar(Decode(kvs), ws, accepts, Seen(kvs))
  {
    hide DecodePair, DecodedSoFar, WorkerKey, FieldValue;
    if kvs == [] {
      DecodeNothing(ws, accepts);
      assert Seen(kvs) == {};
    } else {
      var init, key := kvs[..|kvs| - 1], kvs[|kvs| - 1].0;
      DecodeInvariant(init, m, ws, accepts);
      assert Seen(kvs) == Seen(init) + {key} by {
        assert forall i :: 0 <= i < |init| ==> init[i] == kvs[i];
      }
      if key == ADMISSION_KEY {
        DecodeAdmission(Decode(init), ws, accepts, Seen(init));
      } else {
        assert IsWorkerKey(key, |ws|);
        var i: nat, f :| i < |ws| && key == WorkerKey(i, f);
        DecodeWorkerKey(Decode(init), ws, accepts, Seen(init), i, f);
        assert (m - {ADMISSION_KEY})[key] == FieldValue(ws[i], f);
      }
    }
  }

  lemma DecodeNothing(ws: seq<WorkerView>, accepts: bool)
    ensures DecodedSoFar(Decoding(false, map[]), ws, accepts, {})
  {
  }

  lemma DecodeAdmission(d: Decoding, ws: seq<WorkerView>, accepts: bool, seen: set<string>)
    requires Encodable(ws) && DecodedSoFar(d, ws, accepts, seen)
    ensures DecodedSoFar(DecodePair(d, ADMISSION_KEY, BoolText(accepts)), ws, accepts, seen + {ADMISSION_KEY})
  {
    hide WorkerKey;
    forall i: nat, f | i < |ws| ensures WorkerKey(i, f) != ADMISSION_KEY {
      KeysDistinct(i, f, i, f);
    }
    assert "true" != "false" by {
      assert "true"[0] != "false"[0];
    }
    forall j: nat | j < |ws| ensures Mentioned(j, seen + {ADMISSION_KEY}) <==> Mentioned(j, seen) {
      assert forall g :: WorkerKey(j, g) in seen + {ADMISSION_KEY} <==> WorkerKey(j, g) in seen;
    }
  }

  predicate Survives(w: WorkerView)
  {
    w.loaded.None? || w.loaded.value.style.id != ""
  }

  lemma BuildPartial(w: WorkerView, seen: set<string>)
    requires forall f :: WorkerKey(w.id, f) in seen
    ensures Build(w.id, Partial(w, seen)) == if Survives(w) then Some(w) else None
  {
  }

  lemma TailMembers(a: seq<WorkerView>)
    requires a != [] && Ascending(a)
    ensures forall w :: w in a[1..] <==> w in a && w != a[0]
  {
    assert forall w :: w in a <==> w == a[0] || w in a[1..];
    assert forall i :: 0 < i < |a| ==> a[i].id != a[0].id;
  }

  lemma {:induction false} AscendingUnique(a: seq<WorkerView>, b: seq<WorkerView>)
    requires Ascending(a) && Ascending(b) && forall w :: w in a <==> w in b
    ensures a == b
  {
    assert a != [] ==> a[0] in b;
    assert b != [] ==> b[0] in a;
    if a != [] {
      assert a[0] == b[0];
      TailMembers(a);
      TailMembers(b);
      AscendingUnique(a[1..], b[1..]);
      assert a == [a[0]] + a[1..] && b == [b[0]] + b[1..];
    }
  }

  // Whatever order the keys arrive in, the flag comes back, every worker with a
  // nameable style comes back unchanged, and nothing else appears.
  lemma DecodeEncoded(kvs: seq<(string, string)>, m: Kvs, ws: seq<WorkerView>, accepts: bool, decoded: seq<WorkerView>)
    requires Encodable(ws) && SnapshotOf(m, ws, accepts) && Lists(kvs, m)
    requires BuiltFrom(Decode(kvs).builders, decoded)
    ensures Decode(kvs).accepts == accepts
    ensures forall w :: w in decoded <==> w in ws && Survives(w)
    ensures decoded == ws <==> forall i :: 0 <= i < |ws| ==> Survives(ws[i])
  {
    hide Build, WorkerKey, FieldValue, Partial, Survives, Decode;
    DecodeInvariant(kvs, m, ws, accepts);
    var seen, d := Seen(kvs), Decode(kvs);
    forall k | k in m ensures k in seen {
      var i :| 0 <= i < |kvs| && kvs[i].0 == k;
    }
    forall i: nat, f | i < |ws| ensures WorkerKey(i, f) in seen {
      assert WorkerKey(i, f) in m - {ADMISSION_KEY};
    }
    forall i: nat | i < |ws| ensures i in d.builders && Build(i, d.builders[i]) == if Survives(ws[i]) then Some(ws[i]) else None {
      assert WorkerKey(i, Style) in seen;
      assert Mentioned(i, seen);
      BuildPartial(ws[i], seen);
    }
    forall w ensures w in decoded <==> w in ws && Survives(w) {
      if w in ws && Survives(w) {
        assert ws[w.id] == w;
      }
      if w in decoded {
        assert w.id < |ws| && ws[w.id] in ws;
      }
    }
    if forall i :: 0 <= i < |ws| ==> Survives(ws[i]) {
      AscendingUnique(decoded, ws);
    } else if decoded == ws {
      var i :| 0 <= i < |ws| && !Survives(ws[i]);
      assert ws[i] in decoded;
    }
  }

  // ---- nothing is made up ----

  // Some pair gave this value to that field of that worker.
  ghost predicate Said(kvs: seq<(string, string)>, i: nat, f: Field, value: string)
  {
    exists k :: 0 <= k < |kvs| && ParseKey(kvs[k].0) == WorkerField(i, Some(f)) && kvs[k].1 == value
  }

  ghost predicate SaidStyle(kvs: seq<(string, string)>, i: nat, revision: Option<StyleRevision>)
  {
    if revision.None? then Said(kvs, i, Style, "")
    else exists v :: Said(kvs, i, Style, v) && v != "" && ParseRevision(v) == revision
  }

  ghost predicate SaidMode(kvs: seq<(string, string)>, i: nat, mode: RenderMode)
  {
    exists v :: Said(kvs, i, Mode, v) && ParseMode(v) == Some(mode)
  }

  ghost predicate SaidScale(kvs: seq<(string, string)>, i: nat, scale: Scale)
  {
    exists v :: Said(kvs, i, ScaleField, v) && ParseScale(v) == Some(scale)
  }

  ghost predicate SaidQueue(kvs: seq<(string, string)>, i: nat, depth: nat)
  {
    exists v :: Said(kvs, i, Queue, v) && Parse(v, U64_LIMIT) == Some(depth)
  }

  ghost predicate BuilderSaid(kvs: seq<(string, string)>, i: nat, b: Builder)
  {
    && (b.revision.Some? ==> SaidStyle(kvs, i, b.revision.value))
    && (b.mode.Some? ==> SaidMode(kvs, i, b.mode.value))
    && (b.scale.Some? ==> SaidScale(kvs, i, b.scale.value))
    && (b.queue.Some? ==> SaidQueue(kvs, i, b.queue.value))
  }

  lemma SaidStays(kvs: seq<(string, string)>, pair: (string, string), i: nat)
    ensures forall f, v :: Said(kvs, i, f, v) ==> Said(kvs + [pair], i, f, v)
  {
    hide ParseKey;
    forall f, v | Said(kvs, i, f, v) ensures Said(kvs + [pair], i, f, v) {
      var k :| 0 <= k < |kvs| && ParseKey(kvs[k].0) == WorkerField(i, Some(f)) && kvs[k].1 == v;
      assert (kvs + [pair])[k] == kvs[k];
    }
  }

  lemma BuilderStays(kvs: seq<(string, string)>, pair: (string, string), i: nat, b: Builder)
    requires BuilderSaid(kvs, i, b)
    ensures BuilderSaid(kvs + [pair], i, b)
  {
    SaidStays(kvs, pair, i);
    hide Said, Parse, ParseRevision, ParseMode, ParseScale;
  }

  lemma FieldWasSaid(kvs: seq<(string, string)>, i: nat, b: Builder, f: Field, value: string)
    requires BuilderSaid(kvs, i, b) && Said(kvs, i, f, value)
    ensures BuilderSaid(kvs, i, SetField(b, f, value))
  {
    hide Said, Parse, ParseRevision, ParseMode, ParseScale;
  }

  lemma {:induction false} BuildersWereSaid(kvs: seq<(string, string)>)
    ensures forall i :: i in Decode(kvs).builders ==> BuilderSaid(kvs, i, Decode(kvs).builders[i])
  {
    if kvs != [] {
      var init, pair := kvs[..|kvs| - 1], kvs[|kvs| - 1];
      BuildersWereSaid(init);
      assert kvs == init + [pair];
      var d, r := Decode(init), Decode(kvs);
      hide BuilderSaid, SetField, ParseKey;
      forall i | i in r.builders ensures BuilderSaid(kvs, i, r.builders[i]) {
        NothingWasSaid(init, i);
        var b := if i in d.builders then d.builders[i] else EMPTY_BUILDER;
        BuilderStays(init, pair, i, b);
        match ParseKey(pair.0)
        case WorkerField(j, Some(f)) =>
          if j == i {
            LastWasSaid(init, pair, i, f);
            FieldWasSaid(kvs, i, b, f, pair.1);
          }
        case _ =>
      }
    }
  }

  lemma NothingWasSaid(kvs: seq<(string, string)>, i: nat)
    ensures BuilderSaid(kvs, i, EMPTY_BUILDER)
  {
  }

  lemma LastWasSaid(kvs: seq<(string, string)>, pair: (string, string), i: nat, f: Field)
    requires ParseKey(pair.0) == WorkerField(i, Some(f))
    ensures Said(kvs + [pair], i, f, pair.1)
  {
    hide ParseKey;
    assert (kvs + [pair])[|kvs|] == pair;
  }

  // Whatever pairs a peer sends, in whatever state of propagation: every decoded
  // worker has a queue and a style that were sent and parse, and if it is loaded a
  // mode and a scale too. A worker that lacks one of them, or whose text is
  // malformed, is left out.
  lemma DecodedWasSaid(kvs: seq<(string, string)>, ws: seq<WorkerView>, w: WorkerView)
    requires BuiltFrom(Decode(kvs).builders, ws) && w in ws
    ensures SaidQueue(kvs, w.id, w.queueDepth)
    ensures w.loaded.None? ==> SaidStyle(kvs, w.id, None)
    ensures w.loaded.Some? ==>
              && SaidStyle(kvs, w.id, Some(w.loaded.value.style))
              && SaidMode(kvs, w.id, w.loaded.value.mode)
              && SaidScale(kvs, w.id, w.loaded.value.scale)
  {
    hide Decode, SaidQueue, SaidStyle, SaidMode, SaidScale;
    BuildersWereSaid(kvs);
    assert BuilderSaid(kvs, w.id, Decode(kvs).builders[w.id]);
  }

  // A node is routable only if its latest word on admission was yes.
  lemma {:induction false} AdmissionIsLatest(kvs: seq<(string, string)>)
    ensures Decode(kvs).accepts <==>
            exists k :: 0 <= k < |kvs| && kvs[k] == (ADMISSION_KEY, "true") && forall j :: k < j < |kvs| ==> kvs[j].0 != ADMISSION_KEY
  {
    if kvs != [] {
      var n := |kvs| - 1;
      AdmissionIsLatest(kvs[..n]);
      assert ParseKey(kvs[n].0).Admission? <==> kvs[n].0 == ADMISSION_KEY;
      hide ParseKey, SetField;
      if kvs[n].0 != ADMISSION_KEY {
        assert forall k :: 0 <= k < n ==> kvs[..n][k] == kvs[k];
      }
    }
  }

  // ---- publishing ----

  function Changed(last: Kvs, kvs: Kvs): (r: Kvs)
  {
    map k | k in kvs && !(k in last && last[k] == kvs[k]) :: kvs[k]
  }

  class Publisher {
    var lastSent: Kvs
    var remote: Kvs

    // The remote copy is what was last sent in full.
    ghost predicate InStep()
      reads this
    {
      remote == lastSent
    }

    constructor ()
      ensures InStep() && remote == map[]
    {
      lastSent, remote := map[], map[];
    }

    method PublishRound(kvs: Kvs) returns (sent: Kvs)
      requires InStep()
      modifies this
      // Only what is new or has another value goes out.
      ensures forall k :: k in sent <==> k in kvs && (k !in old(lastSent) || old(lastSent)[k] != kvs[k])
      ensures forall k :: k in sent ==> sent[k] == kvs[k]
      ensures lastSent == kvs
      ensures remote == old(remote) + kvs
      // Keys are never deleted remotely, so a vanished key is the one way out of step.
      ensures InStep() <==> old(lastSent).Keys <= kvs.Keys
    {
      var changed := Changed(lastSent, kvs);
      sent := changed;
      if changed != map[] {
        remote := remote + changed;
      }
      assert forall k :: k in kvs && k !in changed ==> k in remote && remote[k] == kvs[k];
      assert remote == old(remote) + kvs;
      lastSent := kvs;
      assert remote == kvs <==> old(lastSent).Keys <= kvs.Keys by {
        if old(lastSent).Keys <= kvs.Keys {
          assert remote == kvs;
        } else {
          var k :| k in old(lastSent).Keys && k !in kvs.Keys;
          assert k in remote;
        }
      }
    }
  }

  // ---- whole runs ----

  datatype Snapshot = Snapshot(workers: seq<WorkerView>, accepts: bool, kvs: Kvs)

  // A node's snapshots: one fixed number of workers.
  ghost predicate History(n: nat, rounds: seq<Snapshot>)
  {
    forall i :: 0 <= i < |rounds| ==>
                  && Encodable(rounds[i].workers) && |rounds[i].workers| == n
                  && SnapshotOf(rounds[i].kvs, rounds[i].workers, rounds[i].accepts)
  }

  // The remote map after every round sent only what changed since the last.
  ghost function RemoteAfter(rounds: seq<Snapshot>): (r: Kvs)
  {
    if rounds == [] then map[]
    else
      var n := |rounds| - 1;
      RemoteAfter(rounds[..n]) + Changed(if n == 0 then map[] else rounds[n - 1].kvs, rounds[n].kvs)
  }

  lemma SnapshotKeys(a: Snapshot, b: Snapshot)
    requires Encodable(a.workers) && Encodable(b.workers) && |a.workers| == |b.workers|
    requires SnapshotOf(a.kvs, a.workers, a.accepts) && SnapshotOf(b.kvs, b.workers, b.accepts)
    ensures a.kvs.Keys == b.kvs.Keys
  {
    hide WorkerKey, FieldValue;
    forall k ensures k in a.kvs <==> k in b.kvs {
      if k != ADMISSION_KEY {
        if k in a.kvs {
          assert k in a.kvs - {ADMISSION_KEY};
          var i: nat, f :| i < |a.workers| && k == WorkerKey(i, f);
          assert k in b.kvs - {ADMISSION_KEY};
        }
        if k in b.kvs {
          assert k in b.kvs - {ADMISSION_KEY};
          var i: nat, f :| i < |b.workers| && k == WorkerKey(i, f);
          assert k in a.kvs - {ADMISSION_KEY};
        }
      }
    }
  }

  lemma {:induction false} RemoteIsLatest(n: nat, rounds: seq<Snapshot>)
    requires History(n, rounds) && rounds != []
    ensures RemoteAfter(rounds) == rounds[|rounds| - 1].kvs
  {
    hide SnapshotOf;
    var k := |rounds| - 1;
    if k == 0 {
      assert RemoteAfter(rounds[..0]) == map[];
    } else {
      RemoteIsLatest(n, rounds[..k]);
      SnapshotKeys(rounds[k - 1], rounds[k]);
    }
  }

  // End to end: however many rounds were published, a reader that lists the
  // remote map in any order sees the workers of the latest round.
  lemma ReaderSeesLatest(n: nat, rounds: seq<Snapshot>, kvs: seq<(string, string)>, decoded: seq<WorkerView>)
    requires History(n, rounds) && rounds != []
    requires Lists(kvs, RemoteAfter(rounds)) && BuiltFrom(Decode(kvs).builders, decoded)
    ensures var last := rounds[|rounds| - 1];
            && Decode(kvs).accepts == last.accepts
            && (decoded == last.workers <==> forall i :: 0 <= i < |last.workers| ==> Survives(last.workers[i]))
  {
    RemoteIsLatest(n, rounds);
    var last := rounds[|rounds| - 1];
    DecodeEncoded(kvs, last.kvs, last.workers, last.accepts, decoded);
  }
}
