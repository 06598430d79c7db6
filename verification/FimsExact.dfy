/** The limits of the format are exact: a data file reads back if and only if every key
    stays within its one-byte enumerations and lengths. */
module FimsExact {
  import opened Text
  import opened FimsValues
  import opened FimsTables
  import opened FimsDecoder
  import opened FimsRoundTrip
  import opened FimsArchive
  import opened FimsCodec
  import opened FimsLimits

  /** Tables as a run within the limits leaves them. */
  ghost predicate Good(meta: KeyMetadata) {
    Sound(meta) && Fits(meta) && InjectiveMaps(meta.mapEnums)
  }

  // ---- One field that reads back is within the limits -----------------------------------------

  lemma StringForced(t: map<string, byte>, s: string, dec: KeyDecoder, rest: seq<byte>, x: Value, left: seq<byte>)
    requires SoundStrings(t) && |t| <= 255 && dec.dataType == STRING
    requires DecodeField(dec, [StringEnum(t, s).0] + rest) == Ok((Some(x), left))
    ensures |StringEnum(t, s).1| <= 255 && left == rest
  {
    hide CleanString, SoundStrings;
    assert ([StringEnum(t, s).0] + rest)[1..] == rest;
  }

  /** What a decoded slice tells about its bytes. */
  lemma SliceDecoded(dec: KeyDecoder, k: byte, es: seq<byte>, rest: seq<byte>, xs: seq<Value>, left: seq<byte>)
    requires dec.dataType == MAP_SLICE && DecodeField(dec, [k] + es + rest) == Ok((Some(Arr(xs)), left))
    ensures |xs| == k && k != 0
    ensures |es| == k ==> left == rest && 0 !in es
  {
    var bs := [k] + es + rest;
    assert bs[0] == k && bs[1..] == es + rest;
    if |es| == k {
      assert bs[1..][..k] == es && bs[1..][k..] == rest;
    }
  }

  lemma SliceForced(t: map<byte, Fields>, items: seq<Value>, dec: KeyDecoder, rest: seq<byte>, left: seq<byte>)
    requires Dense(t) && LegalMaps(t) && InjectiveMaps(t) && |t| <= 255 && items != [] && AllObjects(items)
    requires dec.dataType == MAP_SLICE
    requires DecodeField(dec, [|items| % 256] + EncodeMaps(t, items).0 + rest) == Ok((Some(Arr(CleanItems(items))), left))
    ensures |items| <= 255 && (forall x | x in items :: LegalKeys(x.fields)) && left == rest
    ensures |Known(t, items)| <= 255 && |EncodeMaps(t, items).1| <= 255
  {
    hide DecodeField, EncodeMaps, LegalKeys, LegalMaps, Dense, Known, CleanFields, InjectiveMaps;
    var es := EncodeMaps(t, items).0;
    SliceDecoded(dec, |items| % 256, es, rest, CleanItems(items), left);
    assert forall i | 0 <= i < |es| :: es[i] != 0;
    forall x | x in items ensures LegalKeys(x.fields) {
      var i :| 0 <= i < |items| && items[i] == x;
      if !LegalKeys(x.fields) {
        IllegalKeyIsWritten(t, items, i);
      }
    }
    if |Known(t, items)| > 255 {
      var i := OverflowWritesZero(t, items);
    }
    TableHoldsKnown(t, items);
  }

  /** The field's own text or maps are in the table. */
  ghost predicate Covers(meta: KeyMetadata, v: Option<Value>) {
    && (meta.dataType == STRING && IsString(v) ==> CleanString(v.value.text) in meta.stringEnums)
    && (meta.dataType == MAP_SLICE && IsSlice(v) ==>
          forall x | x in v.value.items :: CleanFields(x.fields) in MapsOf(meta.mapEnums))
  }

  /** What the right value read back says about a field. */
  ghost predicate Forced(meta: KeyMetadata, v: Option<Value>) {
    var after := EncodeField(meta, v).0;
    Carriable(meta.dataType, v) && Good(after) && Grows(meta, after) && Covers(after, v)
  }

  lemma StringFieldForced(meta: KeyMetadata, v: Option<Value>, dec: KeyDecoder, rest: seq<byte>, left: seq<byte>)
    requires Good(meta) && dec.dataType == meta.dataType == STRING && IsString(v)
    requires DecodeField(dec, EncodeField(meta, v).1 + rest) == Ok((Normal(meta.dataType, v), left))
    ensures left == rest && Forced(meta, v)
  {
    hide CleanString, DecodeField, StringEnum, Dense, LegalMaps, InjectiveMaps, SoundStrings;
    var t, s := meta.stringEnums, v.value.text;
    StringForced(t, s, dec, rest, Str(CleanString(s)), left);
    StringEnumMeaning(t, s);
  }

  lemma SliceFieldForced(meta: KeyMetadata, v: Option<Value>, dec: KeyDecoder, rest: seq<byte>, left: seq<byte>)
    requires Good(meta) && dec.dataType == meta.dataType == MAP_SLICE && IsSlice(v) && v.value.items != []
    requires DecodeField(dec, EncodeField(meta, v).1 + rest) == Ok((Normal(meta.dataType, v), left))
    ensures left == rest && Forced(meta, v)
  {
    hide DecodeField, EncodeMaps, LegalKeys, LegalMaps, Dense, Known, CleanFields, InjectiveMaps, SoundStrings, MapsOf, Selects, CleanItems;
    var t, items := meta.mapEnums, v.value.items;
    SliceForced(t, items, dec, rest, left);
    EncodeMapsMeaning(t, items);
    TableHoldsKnown(t, items);
    KnownIsDrawn(t, items);
    EncodeMapsDrawn(t, items, Known(t, items));
    DrawnIsInjective(EncodeMaps(t, items).1, Known(t, items));
  }

  lemma DrawnIsInjective(t: map<byte, Fields>, seen: set<Fields>)
    requires DrawnMaps(t, seen)
    ensures InjectiveMaps(t)
  {
  }

  lemma PlainFieldForced(meta: KeyMetadata, v: Option<Value>, dec: KeyDecoder, rest: seq<byte>, left: seq<byte>)
    requires Good(meta) && dec.dataType == meta.dataType
    requires !(meta.dataType == STRING && IsString(v)) && !(meta.dataType == MAP_SLICE && IsSlice(v) && v.value.items != [])
    requires DecodeField(dec, EncodeField(meta, v).1 + rest) == Ok((Normal(meta.dataType, v), left))
    ensures left == rest && Forced(meta, v)
  {
    hide Good, CleanFields, LegalKeys;
    if meta.dataType == FLOAT64 && v.Some? && v.value.Num? {
      FloatFieldRoundTrip(dec, v.value.bits, rest);
    } else if meta.dataType == BOOL && v.Some? && v.value.Bool? {
      var bs := EncodeField(meta, v).1 + rest;
      assert bs[1..] == rest;
    } else {
      GoodType(meta);
      MissingFieldDecodes(dec, rest);
    }
    GoodGrows(meta);
  }

  lemma GoodType(meta: KeyMetadata)
    requires Good(meta)
    ensures IsDataType(meta.dataType)
  {
  }

  lemma GoodGrows(meta: KeyMetadata)
    ensures Grows(meta, meta)
  {
  }

  /** A field that reads back as its normal form was within the limits. */
  lemma FieldForced(meta: KeyMetadata, v: Option<Value>, dec: KeyDecoder, rest: seq<byte>, left: seq<byte>)
    requires Good(meta) && dec.dataType == meta.dataType
    requires DecodeField(dec, EncodeField(meta, v).1 + rest) == Ok((Normal(meta.dataType, v), left))
    ensures left == rest && Forced(meta, v)
  {
    hide Good, DecodeField, EncodeField, Normal, Forced;
    if meta.dataType == STRING && IsString(v) {
      StringFieldForced(meta, v, dec, rest, left);
    } else if meta.dataType == MAP_SLICE && IsSlice(v) && v.value.items != [] {
      SliceFieldForced(meta, v, dec, rest, left);
    } else {
      PlainFieldForced(meta, v, dec, rest, left);
    }
  }

  // ---- Messages ---------------------------------------------------------------------------------

  ghost predicate AllGood(metas: seq<KeyMetadata>) {
    forall i | 0 <= i < |metas| :: Good(metas[i])
  }

  /** Decoders for the keys and types of a run, whatever their tables. */
  predicate Typed(decs: seq<KeyDecoder>, metas: seq<KeyMetadata>) {
    |decs| == |metas|
    && forall i | 0 <= i < |decs| :: decs[i].key == metas[i].key && decs[i].dataType == metas[i].dataType
  }

  ghost predicate AllForced(metas: seq<KeyMetadata>, body: Fields) {
    forall i | 0 <= i < |metas| :: Forced(metas[i], Lookup(body, metas[i].key))
  }

  lemma {:induction false} DecodedElsewhere(decs: seq<KeyDecoder>, bs: seq<byte>, acc: Fields, k: string)
    requires DecodeFields(decs, bs, acc).Ok? && forall i | 0 <= i < |decs| :: decs[i].key != k
    ensures var body := DecodeFields(decs, bs, acc).value.0;
      (k in body <==> k in acc) && (k in acc ==> body[k] == acc[k])
    decreases |decs|
  {
    hide DecodeField;
    if decs != [] {
      var (v, left) := DecodeField(decs[0], bs).value;
      DecodedElsewhere(decs[1..], left, if v.Some? then acc[decs[0].key := v.value] else acc, k);
    }
  }

  lemma {:induction false} FieldsForced(metas: seq<KeyMetadata>, body: Fields, decs: seq<KeyDecoder>, rest: seq<byte>,
      acc: Fields, left: seq<byte>)
    requires AllGood(metas) && Typed(decs, metas) && DistinctKeys(metas)
    requires forall i | 0 <= i < |metas| :: metas[i].key !in acc
    requires DecodeFields(decs, EncodeFields(metas, body).1 + rest, acc) == Ok((Overlay(metas, body, acc), left))
    ensures left == rest && AllForced(metas, body)
    decreases |metas|
  {
    hide EncodeField, DecodeField, Normal, Lookup, Good, Forced;
    if metas == [] {
      assert EncodeFields(metas, body).1 + rest == rest;
    } else {
      var m, key := metas[0], metas[0].key;
      var v := Lookup(body, key);
      var chunk, more := EncodeField(m, v).1, EncodeFields(metas[1..], body).1;
      assert EncodeFields(metas, body).1 + rest == chunk + (more + rest);
      var (x, mid) := DecodeField(decs[0], chunk + (more + rest)).value;
      var acc' := if x.Some? then acc[key := x.value] else acc;
      assert decs[0].key == key;
      assert DecodeFields(decs, chunk + (more + rest), acc) == DecodeFields(decs[1..], mid, acc');
      DecodedElsewhere(decs[1..], mid, acc', key);
      OverlayAt(metas, body, acc, 0);
      assert x == Normal(m.dataType, v);
      FieldForced(m, v, decs[0], more + rest, mid);
      FieldsForced(metas[1..], body, decs[1..], rest, acc', left);
      AllForcedCons(metas, body);
    }
  }

  lemma AllForcedCons(metas: seq<KeyMetadata>, body: Fields)
    requires metas != [] && Forced(metas[0], Lookup(body, metas[0].key)) && AllForced(metas[1..], body)
    ensures AllForced(metas, body)
  {
    hide Forced, Lookup;
    forall i | 0 <= i < |metas| ensures Forced(metas[i], Lookup(body, metas[i].key)) {
      if i > 0 {
        assert metas[1..][i - 1] == metas[i];
      }
    }
  }

  lemma MessageForced(metas: seq<KeyMetadata>, e: Entry, decs: seq<KeyDecoder>, rest: seq<byte>, left: seq<byte>)
    requires AllGood(metas) && Typed(decs, metas) && DistinctKeys(metas)
    requires DecodeMessage(decs, BigEndian(e.now, 8) + (EncodeFields(metas, e.body).1 + rest))
      == Ok((Message(e.now, Overlay(metas, e.body, map[])), left))
    ensures left == rest && AllForced(metas, e.body)
  {
    hide EncodeFields, DecodeFields, AllGood, AllForced, Overlay, FromBigEndian;
    var all := BigEndian(e.now, 8) + (EncodeFields(metas, e.body).1 + rest);
    assert all[8..] == EncodeFields(metas, e.body).1 + rest;
    FieldsForced(metas, e.body, decs, rest, map[], left);
  }

  /** A frame that reads back leaves good tables that hold what it wrote. */
  lemma FrameForced(metas: seq<KeyMetadata>, body: Fields, decs: seq<KeyDecoder>)
    requires AllForced(metas, body) && Typed(decs, metas) && DistinctKeys(metas)
    ensures var ms := EncodeFields(metas, body).0;
      AllGood(ms) && AllGrow(metas, ms) && Typed(decs, ms) && DistinctKeys(ms)
      && forall i | 0 <= i < |metas| ::
        Carriable(metas[i].dataType, Lookup(body, metas[i].key)) && Covers(ms[i], Lookup(body, metas[i].key))
  {
    hide EncodeFields, EncodeField, Good, Carriable, Covers, Lookup;
    var ms := EncodeFields(metas, body).0;
    forall i | 0 <= i < |metas|
      ensures Good(ms[i]) && Grows(metas[i], ms[i])
      ensures Carriable(metas[i].dataType, Lookup(body, metas[i].key)) && Covers(ms[i], Lookup(body, metas[i].key))
    {
      EncodeFieldsAt(metas, body, i);
      assert Forced(metas[i], Lookup(body, metas[i].key));
    }
  }

  // ---- Whole runs ----------------------------------------------------------------------------------

  /** Every entry is within the limits of the key and held by its tables. */
  ghost predicate Holds(meta: KeyMetadata, entries: seq<Entry>) {
    forall e | e in entries ::
      Carriable(meta.dataType, Lookup(e.body, meta.key)) && Covers(meta, Lookup(e.body, meta.key))
  }

  lemma CoversGrows(a: KeyMetadata, b: KeyMetadata, v: Option<Value>)
    requires Covers(a, v) && Grows(a, b)
    ensures Covers(b, v)
  {
    hide CleanFields, CleanString;
    forall m | m in MapsOf(a.mapEnums) ensures m in MapsOf(b.mapEnums) {
      var e :| e in a.mapEnums && a.mapEnums[e] == m;
      assert b.mapEnums[e] == m;
    }
  }

  lemma HoldsCons(first: KeyMetadata, meta: KeyMetadata, entries: seq<Entry>)
    requires entries != [] && Grows(first, meta) && Holds(meta, entries[1..])
    requires Carriable(first.dataType, Lookup(entries[0].body, first.key)) && Covers(first, Lookup(entries[0].body, first.key))
    ensures Holds(meta, entries)
  {
    hide Carriable, Covers, Lookup;
    CoversGrows(first, meta, Lookup(entries[0].body, first.key));
    assert entries == [entries[0]] + entries[1..];
  }

  /** What the first message of a decoded run says. */
  lemma DecodedRun(decs: seq<KeyDecoder>, bs: seq<byte>, m: Message, ms: seq<Message>, left: seq<byte>)
    requires DecodeMessages(decs, |ms| + 1, bs) == Ok(([m] + ms, left))
    ensures DecodeMessage(decs, bs).Ok? && DecodeMessage(decs, bs).value.0 == m
    ensures DecodeMessages(decs, |ms|, DecodeMessage(decs, bs).value.1) == Ok((ms, left))
  {
    hide DecodeMessage;
    var (m', rest) := DecodeMessage(decs, bs).value;
    var (ms', _) := DecodeMessages(decs, |ms|, rest).value;
    assert ([m'] + ms')[0] == m && ([m'] + ms')[1..] == ms' && ([m] + ms)[1..] == ms;
  }

  /** A run that reads back was within the limits. */
  lemma {:induction false} RunForced(metas: seq<KeyMetadata>, entries: seq<Entry>, decs: seq<KeyDecoder>, rest: seq<byte>, left: seq<byte>)
    requires AllGood(metas) && Typed(decs, metas) && DistinctKeys(metas)
    requires DecodeMessages(decs, |entries|, EncodeAll(metas, entries).1 + rest) == Ok((Expected(metas, entries), left))
    ensures var end := EncodeAll(metas, entries).0;
      AllGood(end) && AllGrow(metas, end) && forall i | 0 <= i < |end| :: Holds(end[i], entries)
    decreases |entries|
  {
    hide AllGood, Typed, DistinctKeys, DecodeMessages, DecodeMessage, EncodeFields, AllForced, Holds, Overlay, Carriable, Covers, Lookup;
    if entries == [] {
      NothingHeld(metas);
    } else {
      var e := entries[0];
      var (ms, bs) := EncodeFields(metas, e.body);
      var (end, more) := EncodeAll(ms, entries[1..]);
      EncodeAllBytes(metas, entries, rest);
      var all := BigEndian(e.now, 8) + (bs + (more + rest));
      var m := Message(e.now, Overlay(metas, e.body, map[]));
      DecodedRun(decs, all, m, Expected(metas, entries[1..]), left);
      var mid := DecodeMessage(decs, all).value.1;
      MessageForced(metas, e, decs, more + rest, mid);
      FrameForced(metas, e.body, decs);
      ExpectedIgnoresTables(metas, ms, entries[1..]);
      RunForced(ms, entries[1..], decs, rest, left);
      GrowsTransitive(metas, ms, end);
      forall i | 0 <= i < |end| ensures Holds(end[i], entries) {
        SameKey(ms[i], metas[i]);
        HoldsCons(ms[i], end[i], entries);
      }
    }
  }

  lemma SameKey(m: KeyMetadata, meta: KeyMetadata)
    requires Grows(meta, m)
    ensures m.key == meta.key && m.dataType == meta.dataType
  {
  }

  lemma NothingHeld(metas: seq<KeyMetadata>)
    ensures AllGrow(metas, metas) && forall i | 0 <= i < |metas| :: Holds(metas[i], [])
  {
  }

  lemma HeldIsBounded(meta: KeyMetadata, entries: seq<Entry>)
    requires Good(meta) && Holds(meta, entries)
    ensures InBounds(meta.key, meta.dataType, entries)
  {
    hide CleanFields, CleanString, LegalKeys;
    if meta.dataType == STRING {
      var seen := SeenStrings(meta.key, entries);
      assert seen <= meta.stringEnums.Keys;
      SubsetIsSmall(seen, meta.stringEnums.Keys);
      assert |meta.stringEnums| == |meta.stringEnums.Keys|;
    } else if meta.dataType == MAP_SLICE {
      var seen := SeenMaps(meta.key, entries);
      assert seen <= MapsOf(meta.mapEnums);
      SubsetIsSmall(seen, MapsOf(meta.mapEnums));
      InjectiveSize(meta.mapEnums);
    }
  }

  // ---- Exactness ---------------------------------------------------------------------------------------

  lemma FreshIsGood(meta: KeyMetadata)
    requires meta == Fresh(meta.key, meta.dataType) && IsDataType(meta.dataType)
    ensures Good(meta)
  {
    var none: seq<string> := [];
    assert Enumerates(meta.stringEnums, none);
  }

  /** The decoder that holds the tables of a key. */
  lemma DescribingDecoder(meta: KeyMetadata) returns (dec: KeyDecoder)
    requires Sound(meta) && Fits(meta)
    ensures Describes(dec, meta)
  {
    var table :| Enumerates(meta.stringEnums, table);
    dec := KeyDecoder(meta.key, meta.dataType, table, MapTable(meta.mapEnums));
  }

  lemma {:induction false} DescribingDecoders(metas: seq<KeyMetadata>) returns (decs: seq<KeyDecoder>)
    requires AllSound(metas) && AllFit(metas)
    ensures AllDescribe(decs, metas) && Typed(decs, metas)
    decreases |metas|
  {
    hide Sound, Fits;
    if metas == [] {
      decs := [];
    } else {
      var n := |metas| - 1;
      var front := DescribingDecoders(metas[..n]);
      var last := DescribingDecoder(metas[n]);
      decs := front + [last];
    }
  }

  lemma FileDecoded(decs: seq<KeyDecoder>, count: nat, bs: seq<byte>, ms: seq<Message>) returns (left: seq<byte>)
    requires count <= MAX_MESSAGES && DecodeFile(decs, BigEndian(count, 2) + bs) == Ok(ms)
    ensures DecodeMessages(decs, count, bs) == Ok((ms, left))
  {
    Pow256Widths();
    BigEndianRoundTrip(count, 2);
    var all := BigEndian(count, 2) + bs;
    assert all[..2] == BigEndian(count, 2) && all[2..] == bs;
    left := DecodeMessages(decs, count, bs).value.1;
  }

  /** Every key of a run stays within its one-byte enumerations and lengths. */
  predicate AllInBounds(types: map<string, DataType>, entries: seq<Entry>) {
    forall k | k in types :: InBounds(k, types[k], entries)
  }

  /** Some decoders of the run's keys and types, whatever their tables, give back the normal
      forms of its messages. */
  ghost predicate ReadsBack(end: EncoderState, types: map<string, DataType>, entries: seq<Entry>) {
    exists decs | Typed(decs, end.metas) :: DecodeFile(decs, DataFile(end)) == Ok(NormalMessages(types, entries))
  }

  /** For every sequence of Encode calls: the data file reads back if and only if every key
      stays within its limits. */
  lemma LimitsAreExact(uri: string, additional: map<string, string>, calls: seq<Call>)
    requires forall c | c in calls :: IsOrder(c.order, c.body.Keys)
    requires Taken(0, calls) != [] && Encodable(Taken(0, calls)[0].body)
    ensures var entries, end := Taken(0, calls), Run(NewEncoder(uri, additional), calls);
      var types := SchemaOf(entries[0].body);
      ReadsBack(end, types, entries) <==> AllInBounds(types, entries)
  {
    hide Run, Taken, Encodable, SchemaOf, AllInBounds, ReadsBack, IsOrder, Wrote, Realizes, Schema;
    var entries := Taken(0, calls);
    var types := SchemaOf(entries[0].body);
    var st := NewEncoder(uri, additional);
    var end := Run(st, calls);
    var order := RunFresh(st, calls);
    var metas := Schema(entries[0].body, order);
    SchemaRealizes(entries[0].body, order);
    TakenIsShort(0, calls);
    if AllInBounds(types, entries) {
      BoundedReadsBack(metas, types, entries, st, end);
    }
    if ReadsBack(end, types, entries) {
      ReadBackIsBounded(metas, types, entries, st, end);
    }
  }

  lemma BoundedReadsBack(metas: seq<KeyMetadata>, types: map<string, DataType>, entries: seq<Entry>, st: EncoderState,
      end: EncoderState)
    requires st.data == [] && st.count == 0 && Wrote(st, end, metas, entries) && |entries| <= MAX_MESSAGES
    requires Realizes(metas, types) && forall m | m in metas :: m == Fresh(m.key, m.dataType) && IsDataType(m.dataType)
    requires AllInBounds(types, entries)
    ensures ReadsBack(end, types, entries)
  {
    hide InBounds, DecodeFile, Typed, EncodeAll, Fresh;
    forall i | 0 <= i < |metas| ensures Tracks(metas[i], entries) {
      assert metas[i] in metas;
      FreshTracks(metas[i], entries);
    }
    RunKeepsTables(metas, entries, entries);
    forall i | 0 <= i < |end.metas| ensures Sound(end.metas[i]) && Fits(end.metas[i]) {
      TrackedFits(end.metas[i], entries);
    }
    var decs := DescribingDecoders(end.metas);
    DataRoundTrip(metas, types, entries, st, end, decs);
  }

  lemma TrackedFits(meta: KeyMetadata, pool: seq<Entry>)
    requires Tracks(meta, pool)
    ensures Sound(meta) && Fits(meta)
  {
    DrawnFits(meta, pool);
  }

  lemma ReadBackIsBounded(metas: seq<KeyMetadata>, types: map<string, DataType>, entries: seq<Entry>, st: EncoderState,
      end: EncoderState)
    requires st.data == [] && st.count == 0 && Wrote(st, end, metas, entries) && |entries| <= MAX_MESSAGES
    requires Realizes(metas, types) && forall m | m in metas :: m == Fresh(m.key, m.dataType) && IsDataType(m.dataType)
    requires ReadsBack(end, types, entries)
    ensures AllInBounds(types, entries)
  {
    hide InBounds, DecodeFile, DecodeMessages, EncodeAll, Fresh, Good, Holds, NormalMessages, Expected;
    forall i | 0 <= i < |metas| ensures Good(metas[i]) {
      assert metas[i] in metas;
      FreshIsGood(metas[i]);
    }
    var decs :| Typed(decs, end.metas) && DecodeFile(decs, DataFile(end)) == Ok(NormalMessages(types, entries));
    ExpectedIsNormal(metas, types, entries);
    var left := FileDecoded(decs, end.count, end.data, NormalMessages(types, entries));
    assert end.data == EncodeAll(metas, entries).1 + [];
    EndIsTyped(metas, entries, decs);
    RunForced(metas, entries, decs, [], left);
    forall k | k in types ensures InBounds(k, types[k], entries) {
      var i :| 0 <= i < |metas| && metas[i].key == k;
      SameKey(end.metas[i], metas[i]);
      HeldIsBounded(end.metas[i], entries);
    }
  }

  /** Keys and types never change. */
  lemma {:induction false} EndIsTyped(metas: seq<KeyMetadata>, entries: seq<Entry>, decs: seq<KeyDecoder>)
    requires Typed(decs, EncodeAll(metas, entries).0)
    ensures Typed(decs, metas)
    decreases |entries|
  {
    hide EncodeFields, Lookup;
    if entries != [] {
      var ms := EncodeFields(metas, entries[0].body).0;
      EndIsTyped(ms, entries[1..], decs);
      forall i | 0 <= i < |metas| ensures ms[i].key == metas[i].key && ms[i].dataType == metas[i].dataType {
        EncodeFieldsAt(metas, entries[0].body, i);
      }
    }
  }
}
