/** The headline theorem: decoding the archive of any run of Encode calls gives back
    the timestamps in order and exactly the normal forms of the accepted bodies. */
module FimsCodec {
  import opened Text
  import opened FimsValues
  import opened FimsTables
  import opened FimsDecoder
  import opened FimsRoundTrip
  import opened FimsMetadata
  import opened FimsArchive

  /** One call of Encode: the clock, the body, and the order Go ranges the body in. */
  datatype Call = Call(now: uint64, body: Fields, order: seq<string>)

  function NewEncoder(uri: string, additional: map<string, string>): EncoderState {
    EncoderState(uri, additional, [], [], 0)
  }

  ghost function Run(st: EncoderState, calls: seq<Call>): EncoderState
    decreases |calls|
  {
    if calls == [] then st
    else Run(Encode(st, calls[0].now, calls[0].body, calls[0].order), calls[1..])
  }

  /** The calls that are not refused, as entries. */
  function Taken(count: nat, calls: seq<Call>): seq<Entry>
    decreases |calls|
  {
    if calls == [] then []
    else if count != MAX_MESSAGES && calls[0].body != map[] then
      [Entry(calls[0].now, calls[0].body)] + Taken(count + 1, calls[1..])
    else Taken(count, calls[1..])
  }

  datatype Archive = Archive(uri: string, messages: seq<Message>, additional: map<string, string>)

  /** `decodeFrom`: metadata first, then the one data file of the archive. */
  function DecodeArchive(ft: FloatText, text: string, data: seq<byte>): Result<Archive> {
    match ReadMetadata(ft, text)
    case Err => Err
    case Ok(meta) =>
      match DecodeFile(meta.decoders, data)
      case Err => Err
      case Ok(ms) => Ok(Archive(meta.uri, ms, meta.additional))
  }

  function DataFile(st: EncoderState): seq<byte> {
    BigEndian(st.count, 2) + st.data
  }

  function NormalMessages(types: map<string, DataType>, entries: seq<Entry>): seq<Message> {
    if entries == [] then []
    else [Message(entries[0].now, NormalBody(types, entries[0].body))] + NormalMessages(types, entries[1..])
  }

  /** What the format can carry under one key. Each clause can be checked on the
      messages before any of them is encoded. */
  predicate WithinLimits(ft: FloatText, key: string, dataType: DataType, entries: seq<Entry>) {
    && '\t' !in key && '\n' !in key
    && InBounds(key, dataType, entries)
    && (dataType == MAP_SLICE ==>
          forall m | m in SeenMaps(key, entries) :: m != map[] && ReadableFields(ft, m))
  }

  // ---- The schema --------------------------------------------------------------

  ghost predicate DistinctKeys(metas: seq<KeyMetadata>) {
    forall i, j | 0 <= i < j < |metas| :: metas[i].key != metas[j].key
  }

  lemma {:induction false} SchemaMembers(body: Fields, order: seq<string>)
    ensures forall m | m in Schema(body, order) ::
      m.key in order && Accepted(body, m.key) && m == Fresh(m.key, FirstType(body[m.key]).value)
    ensures forall k | k in order && Accepted(body, k) :: Fresh(k, FirstType(body[k]).value) in Schema(body, order)
  {
    if order != [] {
      var n := |order| - 1;
      SchemaMembers(body, order[..n]);
      assert order == order[..n] + [order[n]];
    }
  }

  lemma {:induction false} SchemaDistinct(body: Fields, order: seq<string>)
    requires forall i, j | 0 <= i < j < |order| :: order[i] != order[j]
    ensures DistinctKeys(Schema(body, order))
  {
    if order != [] {
      var n := |order| - 1;
      SchemaDistinct(body, order[..n]);
      SchemaMembers(body, order[..n]);
    }
  }

  /** The key list and the schema say the same. */
  ghost predicate Realizes(metas: seq<KeyMetadata>, types: map<string, DataType>) {
    && DistinctKeys(metas)
    && (forall i | 0 <= i < |metas| :: metas[i].key in types && types[metas[i].key] == metas[i].dataType)
    && (forall k | k in types :: exists i :: 0 <= i < |metas| && metas[i].key == k)
  }

  lemma SchemaRealizes(body: Fields, order: seq<string>)
    requires IsOrder(order, body.Keys)
    ensures Realizes(Schema(body, order), SchemaOf(body))
    ensures forall m | m in Schema(body, order) :: m == Fresh(m.key, m.dataType) && IsDataType(m.dataType)
  {
    SchemaMembers(body, order);
    SchemaDistinct(body, order);
    var metas := Schema(body, order);
    forall k | k in SchemaOf(body) ensures exists i :: 0 <= i < |metas| && metas[i].key == k {
      var m := Fresh(k, FirstType(body[k]).value);
      assert m in metas;
      var i :| 0 <= i < |metas| && metas[i] == m;
    }
  }

  lemma {:induction false} OverlayElsewhere(metas: seq<KeyMetadata>, body: Fields, acc: Fields, k: string)
    requires forall i | 0 <= i < |metas| :: metas[i].key != k
    ensures k in Overlay(metas, body, acc) <==> k in acc
    ensures k in acc ==> Overlay(metas, body, acc)[k] == acc[k]
    decreases |metas|
  {
    if metas != [] {
      var v := Normal(metas[0].dataType, Lookup(body, metas[0].key));
      OverlayElsewhere(metas[1..], body, if v.Some? then acc[metas[0].key := v.value] else acc, k);
    }
  }

  lemma {:induction false} OverlayAt(metas: seq<KeyMetadata>, body: Fields, acc: Fields, i: nat)
    requires DistinctKeys(metas) && i < |metas| && metas[i].key !in acc
    ensures var v := Normal(metas[i].dataType, Lookup(body, metas[i].key));
      && (metas[i].key in Overlay(metas, body, acc) <==> v.Some?)
      && (v.Some? ==> Overlay(metas, body, acc)[metas[i].key] == v.value)
    decreases |metas|
  {
    var v := Normal(metas[0].dataType, Lookup(body, metas[0].key));
    var acc' := if v.Some? then acc[metas[0].key := v.value] else acc;
    if i == 0 {
      OverlayElsewhere(metas[1..], body, acc', metas[0].key);
    } else {
      assert metas[0].key != metas[i].key;
      OverlayAt(metas[1..], body, acc', i - 1);
    }
  }

  lemma OverlayIsNormalBody(metas: seq<KeyMetadata>, types: map<string, DataType>, body: Fields)
    requires Realizes(metas, types)
    ensures Overlay(metas, body, map[]) == NormalBody(types, body)
  {
    var a, b := Overlay(metas, body, map[]), NormalBody(types, body);
    forall k
      ensures k in a <==> k in b
      ensures k in a ==> a[k] == b[k]
    {
      if k in types {
        var i :| 0 <= i < |metas| && metas[i].key == k;
        OverlayAt(metas, body, map[], i);
      } else {
        OverlayElsewhere(metas, body, map[], k);
      }
    }
  }

  lemma {:induction false} ExpectedIsNormal(metas: seq<KeyMetadata>, types: map<string, DataType>, entries: seq<Entry>)
    requires Realizes(metas, types)
    ensures Expected(metas, entries) == NormalMessages(types, entries)
  {
    if entries != [] {
      OverlayIsNormalBody(metas, types, entries[0].body);
      ExpectedIsNormal(metas, types, entries[1..]);
    }
  }

  // ---- Runs ----------------------------------------------------------------------

  ghost predicate Wrote(st: EncoderState, end: EncoderState, metas: seq<KeyMetadata>, entries: seq<Entry>) {
    && end.uri == st.uri && end.additional == st.additional
    && end.metas == EncodeAll(metas, entries).0
    && end.data == st.data + EncodeAll(metas, entries).1
    && end.count == st.count + |entries|
  }

  lemma EncodeAllCons(metas: seq<KeyMetadata>, e: Entry, rest: seq<Entry>)
    ensures var (ms, bs) := EncodeFields(metas, e.body);
      EncodeAll(metas, [e] + rest) == (EncodeAll(ms, rest).0, BigEndian(e.now, 8) + bs + EncodeAll(ms, rest).1)
  {
    assert ([e] + rest)[1..] == rest;
  }

  lemma WroteStep(st: EncoderState, c: Call, next: EncoderState, end: EncoderState, metas: seq<KeyMetadata>, rest: seq<Entry>)
    requires Takes(st, c.body) && next == Encode(st, c.now, c.body, c.order)
    requires metas == if st.count == 0 then Schema(c.body, c.order) else st.metas
    requires Wrote(next, end, next.metas, rest)
    ensures Wrote(st, end, metas, [Entry(c.now, c.body)] + rest)
  {
    EncodeAllCons(metas, Entry(c.now, c.body), rest);
    var (ms, bs) := EncodeFields(metas, c.body);
    Rearrange(st.data, BigEndian(c.now, 8), bs, EncodeAll(ms, rest).1);
  }

  lemma Rearrange(a: seq<byte>, b: seq<byte>, c: seq<byte>, d: seq<byte>)
    ensures a + b + c + d == a + (b + c + d)
  {
  }

  lemma {:induction false} RunConfigured(st: EncoderState, calls: seq<Call>)
    requires st.count > 0
    ensures Wrote(st, Run(st, calls), st.metas, Taken(st.count, calls))
    decreases |calls|
  {
    if calls != [] {
      var c := calls[0];
      var next := Encode(st, c.now, c.body, c.order);
      RunConfigured(next, calls[1..]);
      if Takes(st, c.body) {
        WroteStep(st, c, next, Run(st, calls), st.metas, Taken(next.count, calls[1..]));
      }
    } else {
      assert st.data + [] == st.data;
    }
  }

  lemma {:induction false} RunFresh(st: EncoderState, calls: seq<Call>) returns (order: seq<string>)
    requires st.count == 0 && st.metas == [] && Taken(0, calls) != []
    requires forall c | c in calls :: IsOrder(c.order, c.body.Keys)
    ensures IsOrder(order, Taken(0, calls)[0].body.Keys)
    ensures Wrote(st, Run(st, calls), Schema(Taken(0, calls)[0].body, order), Taken(0, calls))
    decreases |calls|
  {
    var c := calls[0];
    assert c in calls;
    var next := Encode(st, c.now, c.body, c.order);
    if Takes(st, c.body) {
      order := c.order;
      RunConfigured(next, calls[1..]);
      WroteStep(st, c, next, Run(st, calls), Schema(c.body, order), Taken(1, calls[1..]));
    } else {
      order := RunFresh(st, calls[1..]);
    }
  }

  lemma {:induction false} TakenIsShort(count: nat, calls: seq<Call>)
    requires count <= MAX_MESSAGES
    ensures count + |Taken(count, calls)| <= MAX_MESSAGES
    decreases |calls|
  {
    if calls != [] {
      if count != MAX_MESSAGES && calls[0].body != map[] {
        TakenIsShort(count + 1, calls[1..]);
      } else {
        TakenIsShort(count, calls[1..]);
      }
    }
  }

  lemma FreshTracks(meta: KeyMetadata, pool: seq<Entry>)
    requires meta == Fresh(meta.key, meta.dataType) && IsDataType(meta.dataType)
    requires InBounds(meta.key, meta.dataType, pool)
    ensures Tracks(meta, pool)
  {
    var none: seq<string> := [];
    assert Enumerates(meta.stringEnums, none);
  }

  lemma TrackedIsReadable(ft: FloatText, meta: KeyMetadata, pool: seq<Entry>)
    requires Tracks(meta, pool) && WithinLimits(ft, meta.key, meta.dataType, pool)
    ensures ReadableMeta(ft, meta) && Fits(meta)
  {
    DrawnFits(meta, pool);
  }

  lemma DataFileDecodes(decs: seq<KeyDecoder>, count: nat, bs: seq<byte>, ms: seq<Message>)
    requires count <= MAX_MESSAGES
    requires DecodeMessages(decs, count, bs) == Ok((ms, []))
    ensures DecodeFile(decs, BigEndian(count, 2) + bs) == Ok(ms)
  {
    Pow256Widths();
    BigEndianRoundTrip(count, 2);
    var all := BigEndian(count, 2) + bs;
    assert all[..2] == BigEndian(count, 2) && all[2..] == bs;
  }

  /** The state that a run leaves is sound, printable and realizes the schema. */
  lemma RunState(ft: FloatText, uri: string, additional: map<string, string>, calls: seq<Call>)
      returns (metas: seq<KeyMetadata>)
    requires forall c | c in calls :: IsOrder(c.order, c.body.Keys)
    requires Taken(0, calls) != [] && Encodable(Taken(0, calls)[0].body)
    requires var types := SchemaOf(Taken(0, calls)[0].body);
      forall k | k in types :: WithinLimits(ft, k, types[k], Taken(0, calls))
    ensures var entries := Taken(0, calls);
      && var end := Run(NewEncoder(uri, additional), calls);
      && Wrote(NewEncoder(uri, additional), end, metas, entries)
      && AllTrack(metas, entries) && AllTrack(end.metas, entries)
      && Realizes(metas, SchemaOf(entries[0].body))
      && (SchemaOf(entries[0].body) != map[] ==> end.metas != [])
      && AllSound(end.metas) && AllFit(end.metas)
      && forall i | 0 <= i < |end.metas| :: ReadableMeta(ft, end.metas[i])
  {
    var entries := Taken(0, calls);
    var types := SchemaOf(entries[0].body);
    var st := NewEncoder(uri, additional);
    var order := RunFresh(st, calls);
    metas := Schema(entries[0].body, order);
    SchemaRealizes(entries[0].body, order);
    forall i | 0 <= i < |metas| ensures Tracks(metas[i], entries) {
      assert metas[i] in metas && WithinLimits(ft, metas[i].key, types[metas[i].key], entries);
      FreshTracks(metas[i], entries);
    }
    RunKeepsTables(metas, entries, entries);
    var final := EncodeAll(metas, entries).0;
    if types != map[] {
      var k :| k in types;
    }
    forall i | 0 <= i < |final| ensures ReadableMeta(ft, final[i]) && Fits(final[i]) && Sound(final[i]) {
      assert Grows(metas[i], final[i]) && WithinLimits(ft, metas[i].key, types[metas[i].key], entries);
      TrackedIsReadable(ft, final[i], entries);
    }
  }

  lemma DataRoundTrip(metas: seq<KeyMetadata>, types: map<string, DataType>, entries: seq<Entry>, st: EncoderState,
      end: EncoderState, decs: seq<KeyDecoder>)
    requires st.data == [] && st.count == 0 && Wrote(st, end, metas, entries)
    requires |entries| <= MAX_MESSAGES && AllTrack(metas, entries) && Realizes(metas, types)
    requires AllDescribe(decs, end.metas)
    ensures DecodeFile(decs, DataFile(end)) == Ok(NormalMessages(types, entries))
  {
    RunRoundTrip(metas, entries, entries, decs, []);
    assert EncodeAll(metas, entries).1 + [] == end.data;
    ExpectedIsNormal(metas, types, entries);
    DataFileDecodes(decs, end.count, end.data, NormalMessages(types, entries));
  }

  /** For every sequence of Encode calls within the limits, and every text the
      printer may produce, decoding gives the same timestamps in order and exactly
      the normal forms of the accepted bodies. */
  lemma CodecRoundTrip(ft: FloatText, uri: string, additional: map<string, string>, calls: seq<Call>, text: string)
    requires forall c | c in calls :: IsOrder(c.order, c.body.Keys)
    requires '\n' !in uri && ReadableAdditional(additional)
    requires Taken(0, calls) != [] && Encodable(Taken(0, calls)[0].body) && SchemaOf(Taken(0, calls)[0].body) != map[]
    requires var types := SchemaOf(Taken(0, calls)[0].body);
      forall k | k in types :: WithinLimits(ft, k, types[k], Taken(0, calls))
    requires PrintsMetadata(ft, text, Run(NewEncoder(uri, additional), calls))
    ensures var entries := Taken(0, calls);
      DecodeArchive(ft, text, DataFile(Run(NewEncoder(uri, additional), calls)))
        == Ok(Archive(uri, NormalMessages(SchemaOf(entries[0].body), entries), additional))
  {
    hide Taken, Run, SchemaOf, WithinLimits, PrintsMetadata, ReadableAdditional, ReadableMeta, IsOrder,
      AllSound, AllFit, AllTrack, AllDescribe, Realizes, EncodeAll, ReadMetadata, DecodeFile, DataFile, NormalMessages;
    var entries := Taken(0, calls);
    var types := SchemaOf(entries[0].body);
    var st := NewEncoder(uri, additional);
    var end := Run(st, calls);
    var metas := RunState(ft, uri, additional, calls);
    var decs := MetadataRoundTrip(ft, text, end);
    TakenIsShort(0, calls);
    DataRoundTrip(metas, types, entries, st, end, decs);
  }
}
