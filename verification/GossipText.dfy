// Gossip values and keys (crates/biei-core/src/types.rs): the printed style
// revision, the enum names and the per-worker key names.
module GossipText {
  import opened Types
  import opened Decimal

  const ADMISSION_KEY: string := "renderer.accepting"
  const WORKER_PREFIX: string := "worker."

  // ---- splitting ----

  // The position of the last `c`.
  function LastIndex(s: string, c: char): (r: Option<nat>)
    ensures r.Some? ==> r.value < |s| && s[r.value] == c && forall j :: r.value < j < |s| ==> s[j] != c
    ensures r.None? ==> c !in s
  {
    if s == [] then None
    else if s[|s| - 1] == c then Some(|s| - 1)
    else
      assert s == s[..|s| - 1] + [s[|s| - 1]];
      LastIndex(s[..|s| - 1], c)
  }

  // The position of the first `c`.
  function FirstIndex(s: string, c: char): (r: Option<nat>)
    ensures r.Some? ==> r.value < |s| && s[r.value] == c && forall j :: 0 <= j < r.value ==> s[j] != c
    ensures r.None? ==> c !in s
  {
    if s == [] then None
    else if s[0] == c then Some(0)
    else
      var r := FirstIndex(s[1..], c);
      assert s == [s[0]] + s[1..];
      if r.Some? then Some(r.value + 1) else None
  }

  // ---- style revisions ----

  function RevisionText(r: StyleRevision): (out: string)
  {
    r.id + "@" + Print(r.version)
  }

  function ParseRevision(s: string): (r: Option<StyleRevision>)
  {
    var at := LastIndex(s, '@');
    if at.None? || at.value == 0 then None
    else
      var version := Parse(s[at.value + 1..], U64_LIMIT);
      if version.None? then None else Some(StyleRevision(s[..at.value], version.value))
  }

  // Ids may contain '@'; only the empty id does not survive the trip.
  lemma RevisionRoundTrip(r: StyleRevision)
    requires r.version < U64_LIMIT
    ensures ParseRevision(RevisionText(r)) == if r.id == "" then None else Some(r)
  {
    var s, digits := RevisionText(r), Print(r.version);
    var at := LastIndex(s, '@');
    assert s[|r.id|] == '@';
    assert forall j :: |r.id| < j < |s| ==> s[j] == digits[j - |r.id| - 1];
    assert at == Some(|r.id|);
    assert s[|r.id| + 1..] == digits && s[..|r.id|] == r.id;
    ParsePrinted(r.version, U64_LIMIT);
  }

  // And whatever parses is an id, a last '@' and a version in 64 bits.
  lemma ParsedRevisionMeans(s: string)
    requires ParseRevision(s).Some?
    ensures var r := ParseRevision(s).value;
            && r.id != "" && |r.id| < |s| && s[|r.id|] == '@' && s[..|r.id|] == r.id
            && '@' !in s[|r.id| + 1..] && Parse(s[|r.id| + 1..], U64_LIMIT) == Some(r.version)
  {
    var at := LastIndex(s, '@').value;
    var tail := s[at + 1..];
    assert forall j :: 0 <= j < |tail| ==> tail[j] != '@';
  }

  // The text always tells revisions apart.
  lemma RevisionTextInjective(a: StyleRevision, b: StyleRevision)
    requires a.version < U64_LIMIT && b.version < U64_LIMIT && RevisionText(a) == RevisionText(b)
    ensures a == b
  {
    RevisionRoundTrip(a);
    RevisionRoundTrip(b);
    if a.id == "" {
      assert b.id == "";
      assert RevisionText(a)[1..] == Print(a.version) && RevisionText(b)[1..] == Print(b.version);
      PrintInjective(a.version, b.version);
    }
  }

  function ModeText(m: RenderMode): (r: string)
  {
    if m.Static? then "static" else "tile"
  }

  function ParseMode(s: string): (r: Option<RenderMode>)
  {
    if s == "static" then Some(Static) else if s == "tile" then Some(Tile) else None
  }

  function ScaleText(x: Scale): (r: string)
  {
    if x.X1? then "1x" else "2x"
  }

  function ParseScale(s: string): (r: Option<Scale>)
  {
    if s == "1x" then Some(X1) else if s == "2x" then Some(X2) else None
  }

  // ---- keys ----

  datatype Field = Style | Mode | ScaleField | Queue

  function FieldName(f: Field): (r: string)
  {
    match f
    case Style => "style"
    case Mode => "mode"
    case ScaleField => "scale"
    case Queue => "queue"
  }

  function ParseField(s: string): (r: Option<Field>)
  {
    if s == "style" then Some(Style)
    else if s == "mode" then Some(Mode)
    else if s == "scale" then Some(ScaleField)
    else if s == "queue" then Some(Queue)
    else None
  }

  datatype Key = Admission | WorkerField(worker: nat, field: Option<Field>) | Foreign

  function WorkerKey(i: nat, f: Field): (r: string)
  {
    WORKER_PREFIX + Print(i) + "." + FieldName(f)
  }

  // An unknown field still names its worker.
  function ParseKey(key: string): (r: Key)
  {
    if key == ADMISSION_KEY then Admission
    else if !(WORKER_PREFIX <= key) then Foreign
    else
      var rest := key[|WORKER_PREFIX|..];
      var dot := FirstIndex(rest, '.');
      if dot.None? then Foreign
      else
        var worker := Parse(rest[..dot.value], U32_LIMIT);
        if worker.None? then Foreign else WorkerField(worker.value, ParseField(rest[dot.value + 1..]))
  }

  lemma AdmissionIsNotWorker(key: string)
    requires WORKER_PREFIX <= key
    ensures key != ADMISSION_KEY
  {
    assert key[0] == 'w' && ADMISSION_KEY[0] == 'r';
  }

  lemma FieldRoundTrip(f: Field)
    ensures ParseField(FieldName(f)) == Some(f)
  {
    assert |"style"| == 5 && "style"[1] == 't';
    assert |"scale"| == 5 && "scale"[1] == 'c';
    assert |"mode"| == 4;
    assert |"queue"| == 5 && "queue"[1] == 'u';
  }

  lemma KeyRoundTrip(i: nat, f: Field)
    requires i < U32_LIMIT
    ensures ParseKey(WorkerKey(i, f)) == WorkerField(i, Some(f))
  {
    hide FieldName, ParseField;
    var key, digits, name := WorkerKey(i, f), Print(i), FieldName(f);
    AdmissionIsNotWorker(key);
    var rest := key[|WORKER_PREFIX|..];
    assert rest == digits + "." + name;
    assert rest[|digits|] == '.';
    assert forall j :: 0 <= j < |digits| ==> rest[j] == digits[j];
    assert FirstIndex(rest, '.') == Some(|digits|);
    assert rest[..|digits|] == digits && rest[|digits| + 1..] == name;
    ParsePrinted(i, U32_LIMIT);
    FieldRoundTrip(f);
  }

  // A worker key in its three parts.
  predicate KeyParts(key: string, digits: string, name: string)
  {
    key == WORKER_PREFIX + digits + "." + name && '.' !in digits
  }

  lemma SplitKey(key: string) returns (digits: string, name: string)
    requires ParseKey(key).WorkerField?
    ensures KeyParts(key, digits, name)
    ensures Parse(digits, U32_LIMIT) == Some(ParseKey(key).worker) && ParseField(name) == ParseKey(key).field
  {
    hide Parse, ParseField;
    var rest := key[|WORKER_PREFIX|..];
    var dot := FirstIndex(rest, '.').value;
    digits, name := rest[..dot], rest[dot + 1..];
    assert rest == digits + "." + name;
    assert key == WORKER_PREFIX + rest;
    assert WORKER_PREFIX + (digits + "." + name) == WORKER_PREFIX + digits + "." + name;
  }

  lemma ParsedFieldMeans(s: string)
    ensures ParseField(s).Some? ==> s == FieldName(ParseField(s).value)
  {
  }

  // Only keys of that shape name a worker, and only the admission key admits.
  lemma ParsedKeyMeans(key: string)
    ensures ParseKey(key).Admission? <==> key == ADMISSION_KEY
    ensures ParseKey(key).WorkerField? ==>
              exists digits, name ::
                && KeyParts(key, digits, name)
                && Parse(digits, U32_LIMIT) == Some(ParseKey(key).worker)
                && (ParseKey(key).field.Some? ==> name == FieldName(ParseKey(key).field.value))
  {
    if ParseKey(key).WorkerField? {
      var digits, name := SplitKey(key);
      ParsedFieldMeans(name);
      hide ParseKey, KeyParts, Parse, ParseField, FieldName;
      assert KeyParts(key, digits, name);
    }
  }
}
