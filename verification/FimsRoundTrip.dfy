/** Every frame decodes to the normal form of the message it was written for, with
    the tables of any later moment. */
module FimsRoundTrip {
  import opened Text
  import opened FimsValues
  import opened FimsTables
  import opened FimsDecoder

  /** The decoder holds exactly the tables of the key, each entry at index enum - 1. */
  ghost predicate Describes(dec: KeyDecoder, meta: KeyMetadata) {
    && dec.key == meta.key && dec.dataType == meta.dataType
    && Enumerates(meta.stringEnums, dec.stringDecoder)
    && Lists(dec.mapDecoder, meta.mapEnums)
  }

  lemma FloatFieldRoundTrip(dec: KeyDecoder, bits: uint64, rest: seq<byte>)
    requires dec.dataType == FLOAT64
    ensures DecodeField(dec, BigEndian(bits, 8) + rest) == Ok((Normal(FLOAT64, Some(Num(bits))), rest))
  {
    Pow256Widths();
    BigEndianRoundTrip(bits, 8);
    var bs := BigEndian(bits, 8) + rest;
    assert bs[..8] == BigEndian(bits, 8) && bs[8..] == rest;
  }

  lemma DecodeStringByte(dec: KeyDecoder, t: map<string, byte>, c: string, rest: seq<byte>)
    requires dec.dataType == STRING && Enumerates(t, dec.stringDecoder) && c in t
    ensures DecodeField(dec, [t[c]] + rest) == Ok((Some(Str(c)), rest))
  {
    assert ([t[c]] + rest)[1..] == rest;
  }

  /** The byte written for a string selects its cleaned text in any later table. */
  lemma StringFieldRoundTrip(t: map<string, byte>, s: string, later: map<string, byte>, dec: KeyDecoder, rest: seq<byte>)
    requires SoundStrings(t) && |StringEnum(t, s).1| <= 255
    requires WithinStrings(StringEnum(t, s).1, later)
    requires dec.dataType == STRING && Enumerates(later, dec.stringDecoder)
    ensures DecodeField(dec, [StringEnum(t, s).0] + rest) == Ok((Some(Str(CleanString(s))), rest))
  {
    StringEnumMeaning(t, s);
    DecodeStringByte(dec, later, CleanString(s), rest);
  }

  lemma DecodeSliceBytes(dec: KeyDecoder, es: seq<byte>, rest: seq<byte>)
    requires dec.dataType == MAP_SLICE && 1 <= |es| <= 255 && ValidMapEnums(es, |dec.mapDecoder|)
    ensures DecodeField(dec, [|es| % 256] + es + rest) == Ok((Some(Arr(MapsAt(dec.mapDecoder, es))), rest))
  {
    var bs := [|es| % 256] + es + rest;
    assert bs[0] == |es| && bs[1..] == es + rest;
    assert bs[1..][..|es|] == es && bs[1..][|es|..] == rest;
  }

  ghost predicate Lists(table: seq<Fields>, t: map<byte, Fields>) {
    |table| == |t| && forall b: byte | 1 <= b <= |table| :: b in t && table[b - 1] == t[b]
  }

  lemma SelectedMaps(table: seq<Fields>, t: map<byte, Fields>, es: seq<byte>, items: seq<Value>)
    requires AllObjects(items) && Selects(t, es, items) && Dense(t) && Lists(table, t)
    ensures ValidMapEnums(es, |table|) && MapsAt(table, es) == CleanItems(items)
  {
    forall i | 0 <= i < |es| ensures 1 <= es[i] <= |table| && table[es[i] - 1] == CleanFields(items[i].fields) {
    }
  }

  /** The bytes written for a slice select its cleaned maps in any later table. */
  lemma SliceFieldRoundTrip(t: map<byte, Fields>, items: seq<Value>, later: map<byte, Fields>, dec: KeyDecoder, rest: seq<byte>)
    requires Dense(t) && LegalMaps(t) && 1 <= |items| <= 255 && AllObjects(items)
    requires (forall x | x in items :: LegalKeys(x.fields)) && |EncodeMaps(t, items).1| <= 255
    requires Within(EncodeMaps(t, items).1, later) && Dense(later)
    requires dec.dataType == MAP_SLICE && Lists(dec.mapDecoder, later)
    ensures DecodeField(dec, [|items| % 256] + EncodeMaps(t, items).0 + rest) == Ok((Some(Arr(CleanItems(items))), rest))
  {
    EncodeMapsMeaning(t, items);
    var es := EncodeMaps(t, items).0;
    assert Selects(later, es, items);
    SelectedMaps(dec.mapDecoder, later, es, items);
    DecodeSliceBytes(dec, es, rest);
  }

  lemma MissingFieldDecodes(dec: KeyDecoder, rest: seq<byte>)
    requires IsDataType(dec.dataType)
    ensures DecodeField(dec, MissingMarker(dec.dataType) + rest) == Ok((None, rest))
  {
    var bs := MissingMarker(dec.dataType) + rest;
    if dec.dataType == FLOAT64 {
      FloatFieldRoundTrip(dec, MISSING_FLOAT, rest);
    } else {
      assert bs[1..] == rest;
    }
  }

  /** One field, read back with any later state of the key's tables. */
  lemma FieldRoundTrip(meta: KeyMetadata, v: Option<Value>, later: KeyMetadata, dec: KeyDecoder, rest: seq<byte>)
    requires Sound(meta) && Carriable(meta.dataType, v) && Fits(EncodeField(meta, v).0)
    requires Grows(EncodeField(meta, v).0, later) && Describes(dec, later) && Dense(later.mapEnums)
    ensures DecodeField(dec, EncodeField(meta, v).1 + rest) == Ok((Normal(meta.dataType, v), rest))
  {
    if Normal(meta.dataType, v).None? && EncodeField(meta, v).1 == MissingMarker(meta.dataType) {
      MissingFieldDecodes(dec, rest);
    } else if meta.dataType == FLOAT64 {
      FloatFieldRoundTrip(dec, v.value.bits, rest);
    } else if meta.dataType == STRING {
      StringFieldRoundTrip(meta.stringEnums, v.value.text, later.stringEnums, dec, rest);
    } else if meta.dataType == BOOL {
      var bs := EncodeField(meta, v).1 + rest;
      assert bs[1..] == rest;
    } else {
      SliceFieldRoundTrip(meta.mapEnums, v.value.items, later.mapEnums, dec, rest);
    }
  }

  // ---- A whole message -------------------------------------------------------

  ghost predicate AllSound(metas: seq<KeyMetadata>) {
    forall i | 0 <= i < |metas| :: Sound(metas[i])
  }

  ghost predicate AllFit(metas: seq<KeyMetadata>) {
    forall i | 0 <= i < |metas| :: Fits(metas[i])
  }

  ghost predicate AllGrow(a: seq<KeyMetadata>, b: seq<KeyMetadata>) {
    |a| == |b| && forall i | 0 <= i < |a| :: Grows(a[i], b[i])
  }

  ghost predicate AllDescribe(decs: seq<KeyDecoder>, metas: seq<KeyMetadata>) {
    |decs| == |metas| && forall i | 0 <= i < |decs| :: Describes(decs[i], metas[i])
  }

  ghost predicate CarriableBody(metas: seq<KeyMetadata>, body: Fields) {
    forall i | 0 <= i < |metas| :: Carriable(metas[i].dataType, Lookup(body, metas[i].key))
  }

  /** What the decoder accumulates, key by key. */
  function Overlay(metas: seq<KeyMetadata>, body: Fields, acc: Fields): Fields {
    if metas == [] then acc
    else
      var v := Normal(metas[0].dataType, Lookup(body, metas[0].key));
      Overlay(metas[1..], body, if v.Some? then acc[metas[0].key := v.value] else acc)
  }

  lemma {:induction false} EncodeFieldsAt(metas: seq<KeyMetadata>, body: Fields, i: nat)
    requires i < |metas|
    ensures EncodeFields(metas, body).0[i] == EncodeField(metas[i], Lookup(body, metas[i].key)).0
  {
    if i > 0 {
      EncodeFieldsAt(metas[1..], body, i - 1);
    }
  }

  /** Whatever follows it, the chunk decodes to `v` and is consumed exactly. */
  ghost predicate Yields(dec: KeyDecoder, chunk: seq<byte>, v: Option<Value>) {
    forall rest: seq<byte> :: DecodeField(dec, chunk + rest) == Ok((v, rest))
  }

  lemma FieldYields(meta: KeyMetadata, v: Option<Value>, later: KeyMetadata, dec: KeyDecoder)
    requires Sound(meta) && Carriable(meta.dataType, v) && Fits(EncodeField(meta, v).0)
    requires Grows(EncodeField(meta, v).0, later) && Describes(dec, later) && Dense(later.mapEnums)
    ensures Yields(dec, EncodeField(meta, v).1, Normal(meta.dataType, v))
  {
    forall rest ensures DecodeField(dec, EncodeField(meta, v).1 + rest) == Ok((Normal(meta.dataType, v), rest)) {
      FieldRoundTrip(meta, v, later, dec, rest);
    }
  }

  lemma DecodeFieldsStep(decs: seq<KeyDecoder>, chunk: seq<byte>, v: Option<Value>, rest: seq<byte>, acc: Fields)
    requires decs != [] && Yields(decs[0], chunk, v)
    ensures DecodeFields(decs, chunk + rest, acc)
         == DecodeFields(decs[1..], rest, if v.Some? then acc[decs[0].key := v.value] else acc)
  {
  }

  lemma {:induction false} YieldingFieldsDecode(metas: seq<KeyMetadata>, body: Fields,
      decs: seq<KeyDecoder>, rest: seq<byte>, acc: Fields)
    requires |metas| == |decs| && forall i | 0 <= i < |metas| :: decs[i].key == metas[i].key
    requires forall i | 0 <= i < |metas| :: Yields(decs[i], EncodeField(metas[i], Lookup(body, metas[i].key)).1,
                                                  Normal(metas[i].dataType, Lookup(body, metas[i].key)))
    ensures DecodeFields(decs, EncodeFields(metas, body).1 + rest, acc) == Ok((Overlay(metas, body, acc), rest))
  {
    hide EncodeField, DecodeField, Normal, Lookup, Yields;
    if metas == [] {
      assert EncodeFields(metas, body).1 + rest == rest;
    } else {
      var v := Lookup(body, metas[0].key);
      var chunk := EncodeField(metas[0], v).1;
      var n := Normal(metas[0].dataType, v);
      var more := EncodeFields(metas[1..], body).1;
      assert EncodeFields(metas, body).1 + rest == chunk + (more + rest);
      DecodeFieldsStep(decs, chunk, n, more + rest, acc);
      YieldingFieldsDecode(metas[1..], body, decs[1..], rest, if n.Some? then acc[metas[0].key := n.value] else acc);
    }
  }

  /** A frame's fields decode to the normal form of the body, completely. */
  lemma FieldsRoundTrip(metas: seq<KeyMetadata>, body: Fields, later: seq<KeyMetadata>,
      decs: seq<KeyDecoder>, rest: seq<byte>)
    requires AllSound(metas) && CarriableBody(metas, body) && AllFit(EncodeFields(metas, body).0)
    requires AllGrow(EncodeFields(metas, body).0, later) && AllSound(later) && AllDescribe(decs, later)
    ensures DecodeFields(decs, EncodeFields(metas, body).1 + rest, map[]) == Ok((Overlay(metas, body, map[]), rest))
  {
    forall i | 0 <= i < |metas|
      ensures decs[i].key == metas[i].key
      ensures Yields(decs[i], EncodeField(metas[i], Lookup(body, metas[i].key)).1,
                     Normal(metas[i].dataType, Lookup(body, metas[i].key)))
    {
      EncodeFieldsAt(metas, body, i);
      FieldYields(metas[i], Lookup(body, metas[i].key), later[i], decs[i]);
    }
    YieldingFieldsDecode(metas, body, decs, rest, map[]);
  }

  // ---- A run of messages -----------------------------------------------------

  datatype Entry = Entry(now: uint64, body: Fields)

  ghost function EncodeAll(metas: seq<KeyMetadata>, entries: seq<Entry>): (r: (seq<KeyMetadata>, seq<byte>))
    ensures |r.0| == |metas|
    decreases |entries|
  {
    if entries == [] then (metas, [])
    else
      var (ms, bs) := EncodeFields(metas, entries[0].body);
      var (final, rest) := EncodeAll(ms, entries[1..]);
      (final, BigEndian(entries[0].now, 8) + bs + rest)
  }

  /** The distinct strings, and the distinct maps, that a key is given over a run. */
  function SeenStrings(key: string, pool: seq<Entry>): set<string> {
    set e | e in pool && IsString(Lookup(e.body, key)) :: CleanString(Lookup(e.body, key).value.text)
  }

  function SeenMaps(key: string, pool: seq<Entry>): set<Fields> {
    set e, x | e in pool && IsSlice(Lookup(e.body, key)) && x in Lookup(e.body, key).value.items :: CleanFields(x.fields)
  }

  predicate IsString(v: Option<Value>) {
    v.Some? && v.value.Str?
  }

  predicate IsSlice(v: Option<Value>) {
    v.Some? && v.value.Arr? && AllObjects(v.value.items)
  }

  /** The key's tables hold only what the run has shown it, each map once. */
  ghost predicate Drawn(meta: KeyMetadata, pool: seq<Entry>) {
    && (meta.dataType == STRING || meta.stringEnums == map[])
    && (meta.dataType == MAP_SLICE || meta.mapEnums == map[])
    && meta.stringEnums.Keys <= SeenStrings(meta.key, pool)
    && DrawnMaps(meta.mapEnums, SeenMaps(meta.key, pool))
  }

  ghost predicate DrawnMaps(t: map<byte, Fields>, seen: set<Fields>) {
    InjectiveMaps(t) && forall b | b in t :: t[b] in seen
  }

  lemma {:induction false} InjectiveMapIsSmall(t: map<byte, Fields>, seen: set<Fields>)
    requires DrawnMaps(t, seen)
    ensures |t| <= |seen|
    decreases |t|
  {
    if t != map[] {
      var b :| b in t;
      InjectiveMapIsSmall(t - {b}, seen - {t[b]});
      assert (t - {b}).Keys == t.Keys - {b};
      assert |t| == |t.Keys|;
      assert |t - {b}| == |(t - {b}).Keys|;
    }
  }

  lemma SubsetIsSmall<T>(a: set<T>, b: set<T>)
    requires a <= b
    ensures |a| <= |b|
  {
    assert b == a + (b - a);
  }

  predicate Roomy(key: string, dataType: DataType, pool: seq<Entry>) {
    && (dataType == STRING ==> |SeenStrings(key, pool)| <= 255)
    && (dataType == MAP_SLICE ==> |SeenMaps(key, pool)| <= 255)
  }

  lemma DrawnFits(meta: KeyMetadata, pool: seq<Entry>)
    requires Drawn(meta, pool) && Roomy(meta.key, meta.dataType, pool)
    ensures Fits(meta)
  {
    SubsetIsSmall(meta.stringEnums.Keys, SeenStrings(meta.key, pool));
    assert |meta.stringEnums| == |meta.stringEnums.Keys|;
    InjectiveMapIsSmall(meta.mapEnums, SeenMaps(meta.key, pool));
  }

  lemma {:induction false} EncodeMapsDrawn(t: map<byte, Fields>, items: seq<Value>, seen: set<Fields>)
    requires AllObjects(items) && DrawnMaps(t, seen)
    requires forall x | x in items :: CleanFields(x.fields) in seen
    ensures DrawnMaps(EncodeMaps(t, items).1, seen)
  {
    if items != [] {
      var n := |items| - 1;
      EncodeMapsDrawn(t, items[..n], seen);
      assert items[n] in items;
      CleanLegalFields(items[n].fields);
      MapEnumDrawn(EncodeMaps(t, items[..n]).1, items[n].fields, seen);
    }
  }

  lemma MapEnumDrawn(t: map<byte, Fields>, m: Fields, seen: set<Fields>)
    requires DrawnMaps(t, seen) && CleanFields(m) in seen
    ensures DrawnMaps(MapEnum(t, m).1, seen)
  {
    CleanLegalFields(m);
  }

  lemma StringEnumDrawn(t: map<string, byte>, s: string, seen: set<string>)
    requires t.Keys <= seen && CleanString(s) in seen
    ensures StringEnum(t, s).1.Keys <= seen
  {
  }

  lemma EncodeFieldDrawn(meta: KeyMetadata, e: Entry, pool: seq<Entry>)
    requires Drawn(meta, pool) && e in pool
    ensures Drawn(EncodeField(meta, Lookup(e.body, meta.key)).0, pool)
  {
    var v := Lookup(e.body, meta.key);
    if meta.dataType == STRING && IsString(v) {
      StringEnumDrawn(meta.stringEnums, v.value.text, SeenStrings(meta.key, pool));
    } else if EncodeField(meta, v).0 != meta {
      assert IsSlice(v) && AllObjects(v.value.items);
      forall x | x in v.value.items ensures CleanFields(x.fields) in SeenMaps(meta.key, pool) {
      }
      EncodeMapsDrawn(meta.mapEnums, v.value.items, SeenMaps(meta.key, pool));
    }
  }

  /** The bounds that one-byte enumerations and lengths impose on a run. */
  predicate InBounds(key: string, dataType: DataType, pool: seq<Entry>) {
    Roomy(key, dataType, pool) && forall e | e in pool :: Carriable(dataType, Lookup(e.body, key))
  }

  ghost predicate Tracks(meta: KeyMetadata, pool: seq<Entry>) {
    Sound(meta) && Drawn(meta, pool) && InBounds(meta.key, meta.dataType, pool)
  }

  ghost predicate AllTrack(metas: seq<KeyMetadata>, pool: seq<Entry>) {
    forall i | 0 <= i < |metas| :: Tracks(metas[i], pool)
  }

  lemma FieldKeepsTrack(meta: KeyMetadata, e: Entry, pool: seq<Entry>)
    requires Tracks(meta, pool) && e in pool
    ensures var m := EncodeField(meta, Lookup(e.body, meta.key)).0; Tracks(m, pool) && Grows(meta, m) && Fits(m)
  {
    EncodeFieldDrawn(meta, e, pool);
    DrawnFits(EncodeField(meta, Lookup(e.body, meta.key)).0, pool);
    EncodeFieldKeepsTables(meta, Lookup(e.body, meta.key));
  }

  lemma FrameKeepsTrack(metas: seq<KeyMetadata>, e: Entry, pool: seq<Entry>)
    requires AllTrack(metas, pool) && e in pool
    ensures var ms := EncodeFields(metas, e.body).0;
      AllTrack(ms, pool) && AllGrow(metas, ms) && AllFit(ms)
  {
    forall i | 0 <= i < |metas|
      ensures var m := EncodeFields(metas, e.body).0[i]; Tracks(m, pool) && Grows(metas[i], m) && Fits(m)
    {
      EncodeFieldsAt(metas, e.body, i);
      FieldKeepsTrack(metas[i], e, pool);
    }
  }

  lemma {:induction false} RunKeepsTables(metas: seq<KeyMetadata>, entries: seq<Entry>, pool: seq<Entry>)
    requires AllTrack(metas, pool)
    requires forall e | e in entries :: e in pool
    ensures AllTrack(EncodeAll(metas, entries).0, pool) && AllGrow(metas, EncodeAll(metas, entries).0)
    decreases |entries|
  {
    if entries != [] {
      FrameKeepsTrack(metas, entries[0], pool);
      var ms := EncodeFields(metas, entries[0].body).0;
      RunKeepsTables(ms, entries[1..], pool);
      GrowsTransitive(metas, ms, EncodeAll(ms, entries[1..]).0);
    }
  }

  lemma GrowsTransitive(a: seq<KeyMetadata>, b: seq<KeyMetadata>, c: seq<KeyMetadata>)
    requires AllGrow(a, b) && AllGrow(b, c)
    ensures AllGrow(a, c)
  {
    forall i | 0 <= i < |a| ensures Grows(a[i], c[i]) {
      assert Grows(a[i], b[i]) && Grows(b[i], c[i]);
    }
  }

  /** The messages that decoding must give back. */
  function Expected(metas: seq<KeyMetadata>, entries: seq<Entry>): (r: seq<Message>)
    ensures |r| == |entries|
  {
    if entries == [] then []
    else [Message(entries[0].now, Overlay(metas, entries[0].body, map[]))] + Expected(metas, entries[1..])
  }

  lemma {:induction false} OverlayIgnoresTables(a: seq<KeyMetadata>, b: seq<KeyMetadata>, body: Fields, acc: Fields)
    requires AllGrow(a, b)
    ensures Overlay(a, body, acc) == Overlay(b, body, acc)
  {
    if a != [] {
      assert Grows(a[0], b[0]);
      var v := Normal(a[0].dataType, Lookup(body, a[0].key));
      forall i | 0 <= i < |a[1..]| ensures Grows(a[1..][i], b[1..][i]) {
        assert Grows(a[i + 1], b[i + 1]);
      }
      OverlayIgnoresTables(a[1..], b[1..], body, if v.Some? then acc[a[0].key := v.value] else acc);
    }
  }

  lemma {:induction false} ExpectedIgnoresTables(a: seq<KeyMetadata>, b: seq<KeyMetadata>, entries: seq<Entry>)
    requires AllGrow(a, b)
    ensures Expected(a, entries) == Expected(b, entries)
  {
    if entries != [] {
      OverlayIgnoresTables(a, b, entries[0].body, map[]);
      ExpectedIgnoresTables(a, b, entries[1..]);
    }
  }

  lemma DecodeMessageOf(decs: seq<KeyDecoder>, now: uint64, bs: seq<byte>, body: Fields, rest: seq<byte>)
    requires DecodeFields(decs, bs, map[]) == Ok((body, rest))
    ensures DecodeMessage(decs, BigEndian(now, 8) + bs) == Ok((Message(now, body), rest))
  {
    var all := BigEndian(now, 8) + bs;
    assert all[..8] == BigEndian(now, 8) && all[8..] == bs;
    Pow256Widths();
    BigEndianRoundTrip(now, 8);
  }

  /** One frame is consumed completely and gives the normal form of its message. */
  lemma MessageRoundTrip(metas: seq<KeyMetadata>, e: Entry, pool: seq<Entry>, later: seq<KeyMetadata>,
      decs: seq<KeyDecoder>, rest: seq<byte>)
    requires AllTrack(metas, pool) && e in pool
    requires AllGrow(EncodeFields(metas, e.body).0, later) && AllTrack(later, pool) && AllDescribe(decs, later)
    ensures DecodeMessage(decs, BigEndian(e.now, 8) + (EncodeFields(metas, e.body).1 + rest))
         == Ok((Message(e.now, Overlay(metas, e.body, map[])), rest))
  {
    FrameKeepsTrack(metas, e, pool);
    forall i | 0 <= i < |metas|
      ensures Carriable(metas[i].dataType, Lookup(e.body, metas[i].key)) && Sound(metas[i])
    {
      assert Tracks(metas[i], pool);
    }
    forall i | 0 <= i < |later| ensures Sound(later[i]) { assert Tracks(later[i], pool); }
    FieldsRoundTrip(metas, e.body, later, decs, rest);
    DecodeMessageOf(decs, e.now, EncodeFields(metas, e.body).1 + rest, Overlay(metas, e.body, map[]), rest);
  }

  lemma DecodeMessagesStep(decs: seq<KeyDecoder>, bs: seq<byte>, m: Message, mid: seq<byte>, ms: seq<Message>, rest: seq<byte>)
    requires DecodeMessage(decs, bs) == Ok((m, mid))
    requires DecodeMessages(decs, |ms|, mid) == Ok((ms, rest))
    ensures DecodeMessages(decs, |[m] + ms|, bs) == Ok(([m] + ms, rest))
  {
  }

  lemma EncodeAllBytes(metas: seq<KeyMetadata>, entries: seq<Entry>, rest: seq<byte>)
    requires entries != []
    ensures var (ms, bs) := EncodeFields(metas, entries[0].body);
      var (final, more) := EncodeAll(ms, entries[1..]);
      && EncodeAll(metas, entries).0 == final
      && EncodeAll(metas, entries).1 + rest == BigEndian(entries[0].now, 8) + (bs + (more + rest))
  {
    var (ms, bs) := EncodeFields(metas, entries[0].body);
    Regroup(BigEndian(entries[0].now, 8), bs, EncodeAll(ms, entries[1..]).1, rest);
  }

  lemma Regroup(a: seq<byte>, b: seq<byte>, c: seq<byte>, d: seq<byte>)
    ensures a + b + c + d == a + (b + (c + d))
  {
  }

  /** Every frame of a run decodes with the tables of the end of the run. */
  lemma {:induction false} RunRoundTrip(metas: seq<KeyMetadata>, entries: seq<Entry>, pool: seq<Entry>,
      decs: seq<KeyDecoder>, rest: seq<byte>)
    requires AllTrack(metas, pool) && forall e | e in entries :: e in pool
    requires AllDescribe(decs, EncodeAll(metas, entries).0)
    ensures DecodeMessages(decs, |entries|, EncodeAll(metas, entries).1 + rest) == Ok((Expected(metas, entries), rest))
    decreases |entries|
  {
    if entries == [] {
      assert EncodeAll(metas, entries).1 + rest == rest;
    } else {
      var e := entries[0];
      var (ms, bs) := EncodeFields(metas, e.body);
      var (final, more) := EncodeAll(ms, entries[1..]);
      FrameKeepsTrack(metas, e, pool);
      RunKeepsTables(ms, entries[1..], pool);
      EncodeAllBytes(metas, entries, rest);
      MessageRoundTrip(metas, e, pool, final, decs, more + rest);
      RunRoundTrip(ms, entries[1..], pool, decs, rest);
      ExpectedIgnoresTables(metas, ms, entries[1..]);
      DecodeMessagesStep(decs, BigEndian(e.now, 8) + (bs + (more + rest)), Message(e.now, Overlay(metas, e.body, map[])),
        more + rest, Expected(ms, entries[1..]), rest);
    }
  }
}
