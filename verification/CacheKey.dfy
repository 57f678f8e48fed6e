// The render-cache key (crates/biei-core/src/render_cache.rs) and why equal keys
// mean equal requests: the request-local layer enters the key as a
// length-framed text.
module CacheKey {
  import opened Types
  import opened Decimal

  datatype AddLayerSource = AddLayerSource(tilesetId: string, json: string)

  datatype AddLayer = AddLayer(json: string, hash: nat, source: Option<AddLayerSource>)

  function Framed(component: string): (s: string)
  {
    Print(|component|) + ":" + component
  }

  function Frames(components: seq<string>): (s: string)
  {
    if components == [] then [] else Framed(components[0]) + Frames(components[1..])
  }

  // One component for a plain layer, three when it brings its own source.
  function Components(layer: AddLayer): (r: seq<string>)
  {
    match layer.source
    case None => [layer.json]
    case Some(source) => [layer.json, source.tilesetId, source.json]
  }

  method AddlayerIdentity(layer: AddLayer) returns (identity: string)
    ensures identity == Frames(Components(layer))
  {
    identity := [];
    identity := identity + Framed(layer.json);
    if layer.source.Some? {
      identity := identity + Framed(layer.source.value.tilesetId);
      identity := identity + Framed(layer.source.value.json);
      FramesOfThree(layer.json, layer.source.value.tilesetId, layer.source.value.json);
    } else {
      assert Frames([layer.json]) == Framed(layer.json) + Frames([]);
    }
  }

  lemma FramesOfThree(a: string, b: string, c: string)
    ensures Frames([a, b, c]) == Framed(a) + Framed(b) + Framed(c)
  {
    assert [a, b, c][1..] == [b, c] && [b, c][1..] == [c] && [c][1..] == [];
    assert Frames([c]) == Framed(c) + Frames([]);
    assert Frames([b, c]) == Framed(b) + Frames([c]);
  }

  // A digit run ends at the first colon, so the two prefixes are the same.
  lemma {:induction false} SplitAtColon(a: string, x: string, b: string, y: string)
    requires AllDigits(a) && AllDigits(b) && a + ":" + x == b + ":" + y
    ensures a == b && x == y
  {
    var left := a + ":" + x;
    assert a == [] ==> left[0] == ':' && left[1..] == x;
    assert b == [] ==> left[0] == ':' && left[1..] == y;
    assert a != [] ==> left[0] == a[0] && IsDigit(a[0]) && left[1..] == a[1..] + ":" + x;
    assert b != [] ==> left[0] == b[0] && IsDigit(b[0]) && left[1..] == b[1..] + ":" + y;
    if a != [] {
      SplitAtColon(a[1..], x, b[1..], y);
      assert a == [a[0]] + a[1..] && b == [b[0]] + b[1..];
    }
  }

  lemma FrameSplits(a: string, x: string, b: string, y: string)
    requires Framed(a) + x == Framed(b) + y
    ensures a == b && x == y
  {
    assert Framed(a) + x == Print(|a|) + ":" + (a + x);
    assert Framed(b) + y == Print(|b|) + ":" + (b + y);
    SplitAtColon(Print(|a|), a + x, Print(|b|), b + y);
    PrintInjective(|a|, |b|);
    assert (a + x)[..|a|] == a && (b + y)[..|b|] == b;
    assert (a + x)[|a|..] == x && (b + y)[|b|..] == y;
  }

  // Length framing is unambiguous for any contents and any component count.
  lemma {:induction false} FramesInjective(a: seq<string>, b: seq<string>)
    requires Frames(a) == Frames(b)
    ensures a == b
  {
    if a != [] && b != [] {
      FrameSplits(a[0], Frames(a[1..]), b[0], Frames(b[1..]));
      FramesInjective(a[1..], b[1..]);
      assert a == [a[0]] + a[1..] && b == [b[0]] + b[1..];
    }
  }

  lemma IdentityInjective(a: AddLayer, b: AddLayer)
    requires Frames(Components(a)) == Frames(Components(b))
    ensures a.json == b.json && a.source == b.source
  {
    FramesInjective(Components(a), Components(b));
    assert Components(a)[0] == Components(b)[0];
    if a.source.Some? && b.source.Some? {
      assert Components(a)[1] == Components(b)[1] && Components(a)[2] == Components(b)[2];
    }
  }

  // ---- the request and its key ----

  datatype ImageFormat = Png | Webp | Jpeg

  // A float is known by its bits, which is what `to_bits` reads off.
  datatype F64 = F64(bits: nat)
  datatype F32 = F32(bits: nat)

  datatype LngLat = LngLat(lon: F64, lat: F64)

  datatype Positioning =
    | Center(lon: F64, lat: F64, zoom: F64, bearing: F32, pitch: F32)
    | Bbox(minLon: F64, minLat: F64, maxLon: F64, maxLat: F64)
    | Auto

  datatype Padding = Padding(top: nat, right: nat, bottom: nat, left: nat)

  datatype PinSize = Small | Medium | Large

  // Parsed GeoJSON; how it prints is a parameter.
  datatype Json =
    | JsonNull
    | JsonBool(b: bool)
    | JsonNumber(digits: string)
    | JsonString(chars: string)
    | JsonArray(items: seq<Json>)
    | JsonObject(members: seq<(string, Json)>)

  type Printer = Json -> string

  datatype Overlay =
    | Path(strokeWidth: Option<F32>, strokeColor: Option<string>, strokeOpacity: Option<F32>,
           fillColor: Option<string>, fillOpacity: Option<F32>, coordinates: seq<LngLat>)
    | GeoJson(features: Json)
    | Pin(size: PinSize, caption: Option<string>, color: string, coordinate: LngLat)

  datatype RenderRequest =
    | TileRequest(z: nat, x: nat, y: nat, size: nat)
    | StaticRequest(positioning: Positioning, width: nat, height: nat, overlays: seq<Overlay>,
                    beforeLayer: Option<string>, padding: Padding, addlayer: Option<AddLayer>)

  datatype RenderTask = RenderTask(
    style: StyleRevision, request: RenderRequest, scale: Scale, format: ImageFormat, sourceHash: Option<nat>)

  datatype LngLatKey = LngLatKey(lonBits: nat, latBits: nat)

  datatype PositioningKey =
    | CenterKey(lonBits: nat, latBits: nat, zoomBits: nat, bearingBits: nat, pitchBits: nat)
    | BboxKey(minLonBits: nat, minLatBits: nat, maxLonBits: nat, maxLatBits: nat)
    | AutoKey

  datatype OverlayKey =
    | PathKey(strokeWidthBits: Option<nat>, strokeColor: Option<string>, strokeOpacityBits: Option<nat>,
              fillColor: Option<string>, fillOpacityBits: Option<nat>, coordinates: seq<LngLatKey>)
    | GeoJsonKey(text: string)
    | PinKey(size: PinSize, caption: Option<string>, color: string, coordinate: LngLatKey)

  datatype RequestKey =
    | TileKey(z: nat, x: nat, y: nat, size: nat)
    | StaticKey(positioning: PositioningKey, width: nat, height: nat, overlays: seq<OverlayKey>,
                beforeLayer: Option<string>, padding: Padding, addlayer: Option<string>)

  datatype RenderKey = RenderKey(
    style: StyleRevision, request: RequestKey, scale: Scale, format: ImageFormat, sourceHash: Option<nat>)

  function BitsOf(f: Option<F32>): (r: Option<nat>)
  {
    if f.Some? then Some(f.value.bits) else None
  }

  function LngLatKeyOf(p: LngLat): (k: LngLatKey)
  {
    LngLatKey(p.lon.bits, p.lat.bits)
  }

  function PositioningKeyOf(p: Positioning): (k: PositioningKey)
  {
    match p
    case Center(lon, lat, zoom, bearing, pitch) => CenterKey(lon.bits, lat.bits, zoom.bits, bearing.bits, pitch.bits)
    case Bbox(minLon, minLat, maxLon, maxLat) => BboxKey(minLon.bits, minLat.bits, maxLon.bits, maxLat.bits)
    case Auto => AutoKey
  }

  function CoordinateKeys(ps: seq<LngLat>): (ks: seq<LngLatKey>)
    ensures |ks| == |ps| && forall i :: 0 <= i < |ps| ==> ks[i] == LngLatKeyOf(ps[i])
  {
    seq(|ps|, i requires 0 <= i < |ps| => LngLatKeyOf(ps[i]))
  }

  function OverlayKeyOf(o: Overlay, text: Printer): (k: OverlayKey)
  {
    match o
    case Path(width, stroke, strokeOpacity, fill, fillOpacity, coordinates) =>
      PathKey(BitsOf(width), stroke, BitsOf(strokeOpacity), fill, BitsOf(fillOpacity), CoordinateKeys(coordinates))
    case GeoJson(features) => GeoJsonKey(text(features))
    case Pin(size, caption, color, coordinate) => PinKey(size, caption, color, LngLatKeyOf(coordinate))
  }

  function OverlayKeys(os: seq<Overlay>, text: Printer): (ks: seq<OverlayKey>)
    ensures |ks| == |os| && forall i :: 0 <= i < |os| ==> ks[i] == OverlayKeyOf(os[i], text)
  {
    seq(|os|, i requires 0 <= i < |os| => OverlayKeyOf(os[i], text))
  }

  function AddLayerKey(layer: Option<AddLayer>): (k: Option<string>)
  {
    if layer.Some? then Some(Frames(Components(layer.value))) else None
  }

  function RequestKeyOf(r: RenderRequest, text: Printer): (k: RequestKey)
  {
    match r
    case TileRequest(z, x, y, size) => TileKey(z, x, y, size)
    case StaticRequest(positioning, width, height, overlays, beforeLayer, padding, addlayer) =>
      StaticKey(PositioningKeyOf(positioning), width, height, OverlayKeys(overlays, text), beforeLayer, padding, AddLayerKey(addlayer))
  }

  function KeyOf(t: RenderTask, text: Printer): (k: RenderKey)
  {
    RenderKey(t.style, RequestKeyOf(t.request, text), t.scale, t.format, t.sourceHash)
  }

  // ---- which tasks ask for the same image ----

  // Two GeoJSON overlays are alike when they print alike, any others when they
  // are equal.
  ghost predicate SameOverlay(a: Overlay, b: Overlay, text: Printer)
  {
    if a.GeoJson? && b.GeoJson? then text(a.features) == text(b.features) else a == b
  }

  // The carried 64-bit hash of a layer is not part of what it draws.
  ghost predicate SameLayer(a: Option<AddLayer>, b: Option<AddLayer>)
  {
    (a.None? && b.None?) || (a.Some? && b.Some? && a.value.json == b.value.json && a.value.source == b.value.source)
  }

  ghost predicate SameRequest(a: RenderRequest, b: RenderRequest, text: Printer)
  {
    if a.StaticRequest? && b.StaticRequest? then
      && a.positioning == b.positioning && a.width == b.width && a.height == b.height
      && |a.overlays| == |b.overlays|
      && (forall i :: 0 <= i < |a.overlays| ==> SameOverlay(a.overlays[i], b.overlays[i], text))
      && a.beforeLayer == b.beforeLayer && a.padding == b.padding && SameLayer(a.addlayer, b.addlayer)
    else a == b
  }

  ghost predicate SameImage(a: RenderTask, b: RenderTask, text: Printer)
  {
    && a.style == b.style && a.scale == b.scale && a.format == b.format && a.sourceHash == b.sourceHash
    && SameRequest(a.request, b.request, text)
  }

  lemma CoordinatesFaithful(a: seq<LngLat>, b: seq<LngLat>)
    ensures CoordinateKeys(a) == CoordinateKeys(b) <==> a == b
  {
    if CoordinateKeys(a) == CoordinateKeys(b) {
      forall i | 0 <= i < |a| ensures a[i] == b[i] {
        assert CoordinateKeys(a)[i] == CoordinateKeys(b)[i];
      }
    }
  }

  lemma OverlayFaithful(a: Overlay, b: Overlay, text: Printer)
    ensures OverlayKeyOf(a, text) == OverlayKeyOf(b, text) <==> SameOverlay(a, b, text)
  {
    if a.Path? && b.Path? {
      CoordinatesFaithful(a.coordinates, b.coordinates);
    }
  }

  lemma OverlaysFaithful(a: seq<Overlay>, b: seq<Overlay>, text: Printer)
    ensures OverlayKeys(a, text) == OverlayKeys(b, text) <==>
            |a| == |b| && forall i :: 0 <= i < |a| ==> SameOverlay(a[i], b[i], text)
  {
    hide SameOverlay, OverlayKeyOf;
    var ka, kb := OverlayKeys(a, text), OverlayKeys(b, text);
    if |a| == |b| {
      forall i | 0 <= i < |a| ensures ka[i] == kb[i] <==> SameOverlay(a[i], b[i], text) {
        OverlayFaithful(a[i], b[i], text);
      }
    }
  }

  lemma LayerFaithful(a: Option<AddLayer>, b: Option<AddLayer>)
    ensures AddLayerKey(a) == AddLayerKey(b) <==> SameLayer(a, b)
  {
    if a.Some? && b.Some? {
      if AddLayerKey(a) == AddLayerKey(b) {
        IdentityInjective(a.value, b.value);
      } else {
        assert Components(a.value) != Components(b.value);
      }
    }
  }

  // Two tasks share a cache entry exactly when they ask for the same image.
  lemma KeyIsFaithful(a: RenderTask, b: RenderTask, text: Printer)
    ensures KeyOf(a, text) == KeyOf(b, text) <==> SameImage(a, b, text)
  {
    if a.request.StaticRequest? && b.request.StaticRequest? {
      hide OverlayKeys, AddLayerKey, SameLayer, SameOverlay;
      OverlaysFaithful(a.request.overlays, b.request.overlays, text);
      LayerFaithful(a.request.addlayer, b.request.addlayer);
    }
  }

  ghost predicate Injective(text: Printer)
  {
    forall x, y :: text(x) == text(y) ==> x == y
  }

  // With a printer that tells GeoJSON apart, sharing an entry means an equal
  // request, up to the hash of a layer.
  lemma FaithfulPrinterSharesEqual(a: RenderTask, b: RenderTask, text: Printer)
    requires Injective(text) && KeyOf(a, text) == KeyOf(b, text)
    ensures a.style == b.style && a.scale == b.scale && a.format == b.format && a.sourceHash == b.sourceHash
    ensures a.request.TileRequest? ==> a == b
    ensures a.request.StaticRequest? ==> b.request.StaticRequest? && a.request.(addlayer := None) == b.request.(addlayer := None)
  {
    hide KeyOf;
    KeyIsFaithful(a, b, text);
    if a.request.StaticRequest? {
      forall i | 0 <= i < |a.request.overlays| ensures a.request.overlays[i] == b.request.overlays[i] {
        assert SameOverlay(a.request.overlays[i], b.request.overlays[i], text);
      }
    }
  }
}
