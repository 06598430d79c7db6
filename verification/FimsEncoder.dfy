/** The encoder object: tables, key list and data buffer updated in place, each
    method proved against the functions of FimsTables and FimsArchive. */
module FimsEncoder {
  import opened Text
  import opened FimsValues
  import opened FimsTables
  import opened FimsMetadata
  import opened FimsArchive
  import opened FimsCodec
  import opened FimsPrinter

  // ---- Enumeration tables --------------------------------------------------------

  method GetOrUpdateStringEnum(t: map<string, byte>, s: string) returns (e: byte, t': map<string, byte>, err: bool)
    ensures err <==> s !in t && Illegal(s)
    ensures err ==> e == 0 && t' == t
    ensures !err ==> (e, t') == AddString(t, s)
  {
    if s in t {
      return t[s], t, false;
    }
    if Illegal(s) {
      return 0, t, true;
    }
    e := NextEnum(|t|);
    t' := t[s := e];
    err := false;
  }

  /** The string's enumeration, or the invalid marker's when the string is refused. */
  method EnumerateString(t: map<string, byte>, s: string) returns (e: byte, t': map<string, byte>)
    ensures (e, t') == StringEnum(t, s)
  {
    var err;
    e, t', err := GetOrUpdateStringEnum(t, s);
    if err {
      e, t', err := GetOrUpdateStringEnum(t, INVALID_STRING);
    }
  }

  method HasLegalFields(m: Fields) returns (legal: bool)
    ensures legal <==> LegalFields(m)
  {
    var pending := m.Keys;
    while pending != {}
      invariant pending <= m.Keys
      invariant forall k | k in m && k !in pending :: !Illegal(k) && (m[k].Str? ==> !Illegal(m[k].text))
      decreases |pending|
    {
      var k :| k in pending;
      if Illegal(k) || (m[k].Str? && Illegal(m[k].text)) {
        return false;
      }
      pending := pending - {k};
    }
    legal := true;
  }

  method GetOrUpdateMapEnum(t: map<byte, Fields>, m: Fields) returns (e: byte, t': map<byte, Fields>, err: bool)
    requires InjectiveMaps(t)
    ensures err <==> FindMap(t, m).None? && !LegalFields(m)
    ensures err ==> e == 0 && t' == t
    ensures !err ==> (e, t') == AddMap(t, m)
    ensures InjectiveMaps(t')
  {
    var pending := t.Keys;
    while pending != {}
      invariant pending <= t.Keys
      invariant forall b | b in t && b !in pending :: t[b] != m
      decreases |pending|
    {
      var b :| b in pending;
      if t[b] == m {
        return b, t, false;
      }
      pending := pending - {b};
    }
    assert FindMap(t, m).None?;
    var legal := HasLegalFields(m);
    if !legal {
      return 0, t, true;
    }
    e := NextEnum(|t|);
    t' := t[e := m];
    err := false;
  }

  /** A copy of the map with every illegal string replaced by the invalid marker. */
  method MarkInvalidStrings(m: Fields) returns (c: Fields)
    ensures c == CleanFields(m)
  {
    c := map[];
    var pending := m.Keys;
    while pending != {}
      invariant pending <= m.Keys
      invariant c.Keys == m.Keys - pending
      invariant forall k | k in c :: c[k] == CleanValue(m[k])
      decreases |pending|
    {
      var k :| k in pending;
      c := c[k := CleanValue(m[k])];
      pending := pending - {k};
    }
  }

  method EnumerateMap(t: map<byte, Fields>, m: Fields) returns (e: byte, t': map<byte, Fields>)
    requires InjectiveMaps(t)
    ensures (e, t') == MapEnum(t, m) && InjectiveMaps(t')
  {
    var err;
    e, t', err := GetOrUpdateMapEnum(t, m);
    if err {
      var c := MarkInvalidStrings(m);
      e, t', err := GetOrUpdateMapEnum(t, c);
    }
  }

  method CastToMapSlice(items: seq<Value>) returns (maps: Option<seq<Fields>>)
    ensures maps.Some? <==> AllObjects(items)
    ensures maps.Some? ==> |maps.value| == |items| && forall i | 0 <= i < |items| :: items[i] == Obj(maps.value[i])
  {
    var out: seq<Fields> := [];
    for i := 0 to |items|
      invariant |out| == i && forall j | 0 <= j < i :: items[j] == Obj(out[j])
    {
      if !items[i].Obj? {
        return None;
      }
      out := out + [items[i].fields];
    }
    maps := Some(out);
  }

  method EnumerateMaps(t: map<byte, Fields>, maps: seq<Fields>, ghost items: seq<Value>)
      returns (es: seq<byte>, t': map<byte, Fields>)
    requires InjectiveMaps(t)
    requires |maps| == |items| && forall i | 0 <= i < |items| :: items[i] == Obj(maps[i])
    ensures (es, t') == EncodeMaps(t, items) && InjectiveMaps(t')
  {
    es, t' := [], t;
    for i := 0 to |maps|
      invariant (es, t') == EncodeMaps(t, items[..i]) && InjectiveMaps(t')
    {
      assert items[..i + 1][..i] == items[..i];
      var e;
      e, t' := EnumerateMap(t', maps[i]);
      es := es + [e];
    }
    assert items[..|maps|] == items;
  }

  // ---- The encoder -----------------------------------------------------------------

  datatype EncodeOutcome = Encoded | Full | EmptyBody

  lemma {:induction false} EncodeFieldsAppend(a: seq<KeyMetadata>, b: seq<KeyMetadata>, body: Fields)
    ensures EncodeFields(a + b, body) ==
      (EncodeFields(a, body).0 + EncodeFields(b, body).0, EncodeFields(a, body).1 + EncodeFields(b, body).1)
  {
    hide EncodeField, Lookup;
    if a == [] {
      assert a + b == b;
      assert [] + EncodeFields(b, body).0 == EncodeFields(b, body).0;
      assert [] + EncodeFields(b, body).1 == EncodeFields(b, body).1;
    } else {
      assert (a + b)[0] == a[0] && (a + b)[1..] == a[1..] + b;
      EncodeFieldsAppend(a[1..], b, body);
      var (m, bs) := EncodeField(a[0], Lookup(body, a[0].key));
      var ra, rb := EncodeFields(a[1..], body), EncodeFields(b, body);
      assert [m] + (ra.0 + rb.0) == ([m] + ra.0) + rb.0;
      assert bs + (ra.1 + rb.1) == (bs + ra.1) + rb.1;
    }
  }

  lemma EncodeFieldsOne(metas: seq<KeyMetadata>, meta: KeyMetadata, body: Fields)
    ensures var (m, bs) := EncodeField(meta, Lookup(body, meta.key));
      EncodeFields(metas + [meta], body) == (EncodeFields(metas, body).0 + [m], EncodeFields(metas, body).1 + bs)
  {
    hide EncodeField, Lookup;
    EncodeFieldsAppend(metas, [meta], body);
    assert [meta][1..] == [];
    var (m, bs) := EncodeField(meta, Lookup(body, meta.key));
    assert EncodeFields([meta][1..], body) == ([], []);
    assert bs + [] == bs && [m] + [] == [m];
  }

  lemma ConfigureStep(body: Fields, order: seq<string>, k: string)
    requires k in body
    ensures var done := EncodeFields(Schema(body, order), body);
      var now := EncodeFields(Schema(body, order + [k]), body);
      if Accepted(body, k) then
        var (m, bs) := EncodeField(Fresh(k, FirstType(body[k]).value), Unwrap(body[k]));
        now == (done.0 + [m], done.1 + bs)
      else now == done
  {
    hide EncodeField, FirstType, EncodeFields;
    assert (order + [k])[..|order|] == order;
    if Accepted(body, k) {
      EncodeFieldsOne(Schema(body, order), Fresh(k, FirstType(body[k]).value), body);
    } else {
      assert Schema(body, order) + [] == Schema(body, order);
    }
  }

  ghost function SomeOrder(s: set<string>): (order: seq<string>)
    ensures IsOrder(order, s)
  {
    if s == {} then [] else var x :| x in s; SomeOrder(s - {x}) + [x]
  }

  /** The first `i` keys of a later message have been written. */
  ghost predicate Advanced(before: seq<KeyMetadata>, body: Fields, base: seq<byte>, i: int, metas: seq<KeyMetadata>, data: seq<byte>) {
    && 0 <= i <= |before| == |metas|
    && metas == EncodeFields(before[..i], body).0 + before[i..]
    && data == base + EncodeFields(before[..i], body).1
    && AllInjective(metas)
  }

  ghost predicate AllInjective(metas: seq<KeyMetadata>) {
    forall j | 0 <= j < |metas| :: InjectiveMaps(metas[j].mapEnums)
  }

  lemma AdvancedInitially(before: seq<KeyMetadata>, body: Fields, base: seq<byte>)
    requires AllInjective(before)
    ensures Advanced(before, body, base, 0, before, base)
  {
    assert EncodeFields(before[..0], body) == ([], []);
    assert base + [] == base && [] + before[0..] == before;
  }

  lemma AdvancedStep(before: seq<KeyMetadata>, body: Fields, base: seq<byte>, i: int, metas: seq<KeyMetadata>, data: seq<byte>)
    requires Advanced(before, body, base, i, metas, data) && i < |before|
    ensures metas[i] == before[i] && InjectiveMaps(metas[i].mapEnums)
    ensures var (m, bs) := EncodeField(metas[i], Lookup(body, metas[i].key));
      InjectiveMaps(m.mapEnums) ==> Advanced(before, body, base, i + 1, metas[i := m], data + bs)
  {
    hide EncodeField, EncodeFields, InjectiveMaps, Lookup;
    var done := EncodeFields(before[..i], body);
    assert metas[i] == before[i..][0];
    var (m, bs) := EncodeField(metas[i], Lookup(body, metas[i].key));
    assert before[..i + 1] == before[..i] + [before[i]];
    EncodeFieldsOne(before[..i], before[i], body);
    assert metas[i := m] == (done.0 + [m]) + before[i + 1..];
    assert (base + done.1) + bs == base + (done.1 + bs);
  }

  lemma AdvancedFinally(before: seq<KeyMetadata>, body: Fields, base: seq<byte>, metas: seq<KeyMetadata>, data: seq<byte>)
    requires Advanced(before, body, base, |before|, metas, data)
    ensures metas == EncodeFields(before, body).0 && data == base + EncodeFields(before, body).1 && AllInjective(metas)
  {
    assert before[..|before|] == before;
  }

  /** The keys in `order` have been offered to a new encoder. */
  ghost predicate Offered(body: Fields, order: seq<string>, base: seq<byte>, metas: seq<KeyMetadata>, data: seq<byte>) {
    && metas == EncodeFields(Schema(body, order), body).0
    && data == base + EncodeFields(Schema(body, order), body).1
    && AllInjective(metas)
  }

  lemma OfferedInitially(body: Fields, base: seq<byte>)
    ensures Offered(body, [], base, [], base)
  {
    assert EncodeFields(Schema(body, []), body) == ([], []);
    assert base + [] == base;
  }

  lemma OfferedStep(body: Fields, order: seq<string>, base: seq<byte>, metas: seq<KeyMetadata>, data: seq<byte>, k: string)
    requires Offered(body, order, base, metas, data) && k in body
    ensures !Accepted(body, k) ==> Offered(body, order + [k], base, metas, data)
    ensures Accepted(body, k) ==>
      var (m, bs) := EncodeField(Fresh(k, FirstType(body[k]).value), Unwrap(body[k]));
      InjectiveMaps(m.mapEnums) ==> Offered(body, order + [k], base, metas + [m], data + bs)
  {
    hide EncodeField, EncodeFields, Schema, InjectiveMaps, Unwrap, FirstType, IsTimestampKey, Fresh;
    ConfigureStep(body, order, k);
    if Accepted(body, k) {
      var (m, bs) := EncodeField(Fresh(k, FirstType(body[k]).value), Unwrap(body[k]));
      var done := EncodeFields(Schema(body, order), body).1;
      assert (base + done) + bs == base + (done + bs);
    }
  }

  class Encoder {
    var uri: string
    var keyMetadatas: seq<KeyMetadata>
    var additionalData: map<string, string>
    var data: seq<byte>
    var numMessages: nat

    ghost predicate Valid()
      reads this
    {
      && numMessages <= MAX_MESSAGES
      && (numMessages == 0 ==> keyMetadatas == [])
      && AllInjective(keyMetadatas)
    }

    ghost function State(): EncoderState
      reads this
    {
      EncoderState(uri, additionalData, keyMetadatas, data, numMessages)
    }

    constructor (uri: string)
      ensures Valid() && State() == NewEncoder(uri, map[])
    {
      this.uri := uri;
      keyMetadatas := [];
      additionalData := map[];
      data := [];
      numMessages := 0;
    }

    method AppendMissingDataMarker(dataType: DataType)
      modifies this`data
      ensures data == old(data) + MissingMarker(dataType)
    {
      if dataType == STRING {
        data := data + [0];
      } else if dataType == BOOL {
        data := data + [MISSING_BOOL];
      } else if dataType == MAP_SLICE {
        data := data + [0];
      } else {
        data := data + BigEndian(MISSING_FLOAT, 8);
      }
    }

    /** Writes `v` under the given key description and returns the grown description. */
    method WriteField(meta: KeyMetadata, v: Option<Value>) returns (meta': KeyMetadata)
      requires InjectiveMaps(meta.mapEnums)
      modifies this`data
      ensures meta' == EncodeField(meta, v).0 && InjectiveMaps(meta'.mapEnums)
      ensures data == old(data) + EncodeField(meta, v).1
    {
      hide StringEnum, EncodeMaps, CleanString, InjectiveMaps, BigEndian;
      meta' := meta;
      if v.None? {
        AppendMissingDataMarker(meta.dataType);
      } else if meta.dataType == FLOAT64 && v.value.Num? {
        data := data + BigEndian(v.value.bits, 8);
      } else if meta.dataType == STRING && v.value.Str? {
        var e, t := EnumerateString(meta.stringEnums, v.value.text);
        meta' := meta.(stringEnums := t);
        data := data + [e];
      } else if meta.dataType == BOOL && v.value.Bool? {
        data := data + [if v.value.flag then 1 else 0];
      } else if meta.dataType == MAP_SLICE && v.value.Arr? && v.value.items != [] {
        var maps := CastToMapSlice(v.value.items);
        if maps.None? {
          AppendMissingDataMarker(meta.dataType);
        } else {
          var es, t := EnumerateMaps(meta.mapEnums, maps.value, v.value.items);
          assert AllObjects(v.value.items);
          meta' := meta.(mapEnums := t);
          data := data + [|es| % 256];
          data := data + es;
        }
      } else {
        AppendMissingDataMarker(meta.dataType);
      }
    }

    /** Adds a key that the first message introduces, unless its value is refused. */
    method AddDataToNewEncoder(key: string, value: Value)
      requires !ClothesNull(value)
      modifies this`data, this`keyMetadatas
      ensures FirstType(value).None? ==> data == old(data) && keyMetadatas == old(keyMetadatas)
      ensures FirstType(value).Some? ==>
        var (m, bs) := EncodeField(Fresh(key, FirstType(value).value), Unwrap(value));
        keyMetadatas == old(keyMetadatas) + [m] && data == old(data) + bs && InjectiveMaps(m.mapEnums)
    {
      if value.Null? {
        return;
      }
      var inner := value;
      if value.Obj? {
        if "value" !in value.fields || IsControl(value.fields) {
          return;
        }
        inner := value.fields["value"];
      }
      var t := TypeOf(inner);
      if t.None? {
        return;
      }
      var meta := WriteField(Fresh(key, t.value), Some(inner));
      keyMetadatas := keyMetadatas + [meta];
    }

    /** Adds the entry of a later message under the i-th key. */
    method AddDataToExistingEncoder(i: nat, value: Value)
      requires i < |keyMetadatas| && InjectiveMaps(keyMetadatas[i].mapEnums)
      modifies this`data, this`keyMetadatas
      ensures var (m, bs) := EncodeField(old(keyMetadatas)[i], Unwrap(value));
        keyMetadatas == old(keyMetadatas)[i := m] && data == old(data) + bs && InjectiveMaps(m.mapEnums)
    {
      var inner := Some(value);
      if value.Obj? {
        inner := if "value" in value.fields then Some(value.fields["value"]) else None;
      }
      var meta := WriteField(keyMetadatas[i], inner);
      keyMetadatas := keyMetadatas[i := meta];
    }

    /** Ranges over the first message in an arbitrary order, which it reports. */
    method ConfigureFrom(body: Fields) returns (ghost order: seq<string>)
      requires keyMetadatas == [] && Encodable(body)
      modifies this`data, this`keyMetadatas
      ensures IsOrder(order, body.Keys)
      ensures keyMetadatas == EncodeFields(Schema(body, order), body).0
      ensures data == old(data) + EncodeFields(Schema(body, order), body).1
      ensures AllInjective(keyMetadatas)
    {
      order := [];
      ghost var base := data;
      var pending := body.Keys;
      OfferedInitially(body, base);
      while pending != {}
        invariant pending <= body.Keys && IsOrder(order, body.Keys - pending)
        invariant Offered(body, order, base, keyMetadatas, data)
        decreases |pending|
      {
        var k :| k in pending;
        OfferedStep(body, order, base, keyMetadatas, data, k);
        OrderGrows(order, body.Keys, pending, k);
        OfferKey(k, body);
        order := order + [k];
        pending := pending - {k};
      }
    }

    method OfferKey(k: string, body: Fields)
      requires k in body && Encodable(body)
      modifies this`data, this`keyMetadatas
      ensures !Accepted(body, k) ==> data == old(data) && keyMetadatas == old(keyMetadatas)
      ensures Accepted(body, k) ==>
        var (m, bs) := EncodeField(Fresh(k, FirstType(body[k]).value), Unwrap(body[k]));
        keyMetadatas == old(keyMetadatas) + [m] && data == old(data) + bs && InjectiveMaps(m.mapEnums)
    {
      hide EncodeField, InjectiveMaps, Unwrap, FirstType, IsTimestampKey, Fresh;
      if !IsTimestampKey(k) {
        AddDataToNewEncoder(k, body[k]);
      }
    }

    /** One call of Encode, with the clock as an input. */
    method Encode(body: Fields, now: uint64) returns (outcome: EncodeOutcome, ghost order: seq<string>)
      requires Valid() && (numMessages == 0 ==> Encodable(body))
      modifies this`data, this`keyMetadatas, this`numMessages
      ensures Valid()
      ensures IsOrder(order, body.Keys)
      ensures State() == FimsTables.Encode(old(State()), now, body, order)
      ensures outcome == Encoded <==> Takes(old(State()), body)
      ensures outcome == Full <==> old(numMessages) == MAX_MESSAGES
    {
      if numMessages == MAX_MESSAGES || body == map[] {
        outcome := if numMessages == MAX_MESSAGES then Full else EmptyBody;
        order := SomeOrder(body.Keys);
        return;
      }
      data := data + BigEndian(now, 8);
      if numMessages == 0 {
        order := ConfigureFrom(body);
      } else {
        order := SomeOrder(body.Keys);
        EncodeKnownKeys(body);
      }
      numMessages := numMessages + 1;
      outcome := Encoded;
    }

    /** Looks up every known key in the message and writes its field or a marker. */
    method EncodeKnownKeys(body: Fields)
      requires AllInjective(keyMetadatas)
      modifies this`data, this`keyMetadatas
      ensures keyMetadatas == EncodeFields(old(keyMetadatas), body).0
      ensures data == old(data) + EncodeFields(old(keyMetadatas), body).1
      ensures AllInjective(keyMetadatas)
    {
      ghost var before, base := keyMetadatas, data;
      AdvancedInitially(before, body, base);
      for i := 0 to |keyMetadatas|
        invariant Advanced(before, body, base, i, keyMetadatas, data)
      {
        AdvancedStep(before, body, base, i, keyMetadatas, data);
        EncodeKeyAt(i, body);
      }
      AdvancedFinally(before, body, base, keyMetadatas, data);
    }

    method EncodeKeyAt(i: nat, body: Fields)
      requires i < |keyMetadatas| && InjectiveMaps(keyMetadatas[i].mapEnums)
      modifies this`data, this`keyMetadatas
      ensures var (m, bs) := EncodeField(old(keyMetadatas)[i], Lookup(body, old(keyMetadatas)[i].key));
        keyMetadatas == old(keyMetadatas)[i := m] && data == old(data) + bs && InjectiveMaps(m.mapEnums)
    {
      if keyMetadatas[i].key !in body {
        AppendMissingDataMarker(keyMetadatas[i].dataType);
        assert keyMetadatas == keyMetadatas[i := keyMetadatas[i]];
      } else {
        AddDataToExistingEncoder(i, body[keyMetadatas[i].key]);
      }
    }

    /** The two files of an archive: metadata text, and the message count followed by
        the data buffer. */
    method CreateArchive(ft: FloatText) returns (r: Result<(string, seq<byte>)>)
      requires Valid() && forall i | 0 <= i < |keyMetadatas| :: Orderly(keyMetadatas[i])
      ensures r.Ok? ==> PrintsMetadata(ft, r.value.0, State()) && r.value.1 == DataFile(State())
      ensures r.Ok? <==> additionalData != map[] && forall i | 0 <= i < |keyMetadatas| :: PrintableKey(keyMetadatas[i])
    {
      var text := CreateMetadata(ft, State(), uri, additionalData, keyMetadatas);
      if text.Err? {
        return Err;
      }
      r := Ok((text.value, BigEndian(numMessages, 2) + data));
    }
  }
}
