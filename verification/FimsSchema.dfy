/** Which entries of the first message become keys of the archive, in the terms of the
    message alone. */
module FimsSchema {
  import opened Text
  import opened FimsValues
  import opened FimsTables
  import opened FimsDecoder
  import opened FimsRoundTrip
  import opened FimsMetadata
  import opened FimsArchive
  import opened FimsCodec

  /** "timestamp" in any mixture of cases; a dotted capital I also lowers to i. */
  predicate SpellsTimestamp(key: string) {
    |key| == 9 && forall i | 0 <= i < 9 ::
      key[i] == "timestamp"[i] || key[i] == "TIMESTAMP"[i] || (i == 1 && key[i] == '\U{0130}')
  }

  /** The type a value is stored under, if it is a number, a text, a truth value or an array
      of maps only. */
  ghost predicate StoredAs(v: Value, t: DataType) {
    || (v.Num? && t == FLOAT64)
    || (v.Str? && t == STRING)
    || (v.Bool? && t == BOOL)
    || (v.Arr? && (forall i | 0 <= i < |v.items| :: v.items[i].Obj?) && t == MAP_SLICE)
  }

  /** What an entry of the first message is taken as: a bare value as itself, a wrapped one
      by its "value" unless its "ui_type" is "control" or not a text. */
  ghost predicate TakenAs(entry: Value, t: DataType) {
    if entry.Obj? then
      "value" in entry.fields && StoredAs(entry.fields["value"], t)
      && ("ui_type" in entry.fields ==> entry.fields["ui_type"].Str? && entry.fields["ui_type"].text != "control")
    else StoredAs(entry, t)
  }

  lemma TimestampSpelling(key: string)
    ensures IsTimestampKey(key) <==> SpellsTimestamp(key)
  {
    if |key| == 9 {
      forall i | 0 <= i < 9
        ensures LowerChar(key[i]) == "timestamp"[i] <==>
          key[i] == "timestamp"[i] || key[i] == "TIMESTAMP"[i] || (i == 1 && key[i] == '\U{0130}')
      {
        LowersTo(key[i], i);
      }
    }
  }

  lemma LowersTo(c: char, i: nat)
    requires i < 9
    ensures LowerChar(c) == "timestamp"[i] <==>
      c == "timestamp"[i] || c == "TIMESTAMP"[i] || (i == 1 && c == '\U{0130}')
  {
    var lower, upper := "timestamp", "TIMESTAMP";
    assert 'a' <= lower[i] <= 'z' && lower[i] != 'k' && (lower[i] == 'i' <==> i == 1);
    assert upper[i] as int == lower[i] as int - 32;
  }

  lemma EntryLaw(entry: Value, t: DataType)
    ensures FirstType(entry) == Some(t) <==> TakenAs(entry, t)
  {
    StorableLaw(if entry.Obj? && "value" in entry.fields then entry.fields["value"] else entry, t);
  }

  lemma StorableLaw(v: Value, t: DataType)
    ensures TypeOf(v) == Some(t) <==> StoredAs(v, t)
  {
    if v.Arr? {
      if AllObjects(v.items) {
        forall i | 0 <= i < |v.items| ensures v.items[i].Obj? {
          assert v.items[i] in v.items;
        }
      }
    }
  }

  /** The schema of a first message holds a key with a type exactly when the message has an
      entry under it that is taken as that type and the key does not spell timestamp. */
  lemma SchemaLaw(first: Fields, k: string, t: DataType)
    ensures k in SchemaOf(first) && SchemaOf(first)[k] == t
      <==> k in first && !SpellsTimestamp(k) && TakenAs(first[k], t)
  {
    hide FirstType, IsTimestampKey, SpellsTimestamp, TakenAs;
    TimestampSpelling(k);
    if k in first {
      EntryLaw(first[k], t);
    }
  }

  ghost predicate HoldsKey(metas: seq<KeyMetadata>, k: string, t: DataType) {
    exists i | 0 <= i < |metas| :: metas[i].key == k && metas[i].dataType == t
  }

  lemma SchemaHolds(body: Fields, order: seq<string>, k: string, t: DataType)
    requires IsOrder(order, body.Keys)
    ensures HoldsKey(Schema(body, order), k, t) <==> k in SchemaOf(body) && SchemaOf(body)[k] == t
  {
    hide SchemaOf, IsOrder, Schema;
    SchemaRealizes(body, order);
  }

  /** The keys that the first accepted call gives an encoder, in any iteration order. */
  lemma EncoderSchemaLaw(st: EncoderState, now: uint64, body: Fields, order: seq<string>, k: string, t: DataType)
    requires st.count == 0 && body != map[] && IsOrder(order, body.Keys)
    ensures HoldsKey(Encode(st, now, body, order).metas, k, t)
      <==> k in body && !SpellsTimestamp(k) && TakenAs(body[k], t)
  {
    hide SchemaOf, TakenAs, SpellsTimestamp, IsOrder, EncodeFields, Schema, HoldsKey;
    SchemaLaw(body, k, t);
    SchemaHolds(body, order, k, t);
    FieldsKeepKeys(Schema(body, order), body);
    SameKeysHeld(Schema(body, order), EncodeFields(Schema(body, order), body).0, k, t);
  }

  lemma SameKeysHeld(metas: seq<KeyMetadata>, ms: seq<KeyMetadata>, k: string, t: DataType)
    requires |ms| == |metas| && forall i | 0 <= i < |ms| :: ms[i].key == metas[i].key && ms[i].dataType == metas[i].dataType
    ensures HoldsKey(ms, k, t) <==> HoldsKey(metas, k, t)
  {
  }

  lemma FieldsKeepKeys(metas: seq<KeyMetadata>, body: Fields)
    ensures var ms := EncodeFields(metas, body).0;
      |ms| == |metas| && forall i | 0 <= i < |ms| :: ms[i].key == metas[i].key && ms[i].dataType == metas[i].dataType
  {
    hide EncodeFields, Lookup;
    forall i | 0 <= i < |metas|
      ensures var m := EncodeFields(metas, body).0[i]; m.key == metas[i].key && m.dataType == metas[i].dataType
    {
      EncodeFieldsAt(metas, body, i);
    }
  }

  // ---- The keys of a decoded archive ----------------------------------------------------------

  /** A value, bare or wrapped, that a key of the given type carries: of that type, not the
      float that marks missing data, and not an empty array. */
  ghost predicate CarriedAs(entry: Value, t: DataType) {
    var inner := if entry.Obj? then (if "value" in entry.fields then Some(entry.fields["value"]) else None) else Some(entry);
    inner.Some? && StoredAs(inner.value, t)
    && (inner.value.Num? ==> inner.value.bits != MISSING_FLOAT) && (inner.value.Arr? ==> inner.value.items != [])
  }

  lemma NormalLaw(t: DataType, body: Fields, k: string)
    requires IsDataType(t)
    ensures Normal(t, Lookup(body, k)).Some? <==> k in body && CarriedAs(body[k], t)
  {
    if k in body && Unwrap(body[k]).Some? {
      StorableLaw(Unwrap(body[k]).value, t);
    }
  }

  /** A text as it is read back: itself, or the invalid marker when it holds a semicolon, a
      tab or a newline. */
  predicate TextRead(sent: string, read: string) {
    read == if exists i | 0 <= i < |sent| :: sent[i] == ';' || sent[i] == '\t' || sent[i] == '\n'
            then "[CODEC MARKED INVALID STRING]" else sent
  }

  /** A map as it is read back: the same keys, texts as above, everything else as sent. */
  predicate MapRead(sent: Fields, read: Fields) {
    read.Keys == sent.Keys
    && forall k | k in sent ::
         if sent[k].Str? then read[k].Str? && TextRead(sent[k].text, read[k].text) else read[k] == sent[k]
  }

  /** A value as it is read back. */
  ghost predicate ValueRead(sent: Value, read: Value) {
    match sent
    case Str(text) => read.Str? && TextRead(text, read.text)
    case Arr(items) =>
      read.Arr? && |read.items| == |items|
      && forall i | 0 <= i < |items| :: items[i].Obj? && read.items[i].Obj? && MapRead(items[i].fields, read.items[i].fields)
    case _ => read == sent
  }

  lemma CleanIsRead(s: string)
    ensures TextRead(s, CleanString(s))
  {
    if i :| 0 <= i < |s| && (s[i] == ';' || s[i] == '\t' || s[i] == '\n') {
      assert s[i] in s;
    }
  }

  lemma CleanMapIsRead(m: Fields)
    ensures MapRead(m, CleanFields(m))
  {
    hide TextRead, CleanString;
    forall k | k in m && m[k].Str? ensures TextRead(m[k].text, CleanString(m[k].text)) {
      CleanIsRead(m[k].text);
    }
  }

  /** The value inside an entry, bare or wrapped. */
  function Inner(entry: Value): Value {
    if entry.Obj? && "value" in entry.fields then entry.fields["value"] else entry
  }

  lemma NormalValue(t: DataType, body: Fields, k: string)
    requires Normal(t, Lookup(body, k)).Some?
    ensures k in body && ValueRead(Inner(body[k]), Normal(t, Lookup(body, k)).value)
  {
    hide TextRead, MapRead, CleanString, CleanFields;
    var v := Inner(body[k]);
    if v.Str? {
      CleanIsRead(v.text);
    } else if v.Arr? && AllObjects(v.items) {
      forall i | 0 <= i < |v.items|
        ensures v.items[i].Obj? && MapRead(v.items[i].fields, CleanFields(v.items[i].fields))
      {
        assert v.items[i] in v.items;
        CleanMapIsRead(v.items[i].fields);
      }
    }
  }

  lemma {:induction false} MessageAt(types: map<string, DataType>, entries: seq<Entry>, j: nat)
    requires j < |entries|
    ensures |NormalMessages(types, entries)| == |entries|
    ensures NormalMessages(types, entries)[j] == Message(entries[j].now, NormalBody(types, entries[j].body))
    decreases j
  {
    MessagesAsMany(types, entries);
    if j > 0 {
      MessageAt(types, entries[1..], j - 1);
    }
  }

  lemma {:induction false} MessagesAsMany(types: map<string, DataType>, entries: seq<Entry>)
    ensures |NormalMessages(types, entries)| == |entries|
  {
    if entries != [] {
      MessagesAsMany(types, entries[1..]);
    }
  }

  /** In the archive of any run within the limits, message j has the time it was encoded at,
      holds a key exactly when the first message has an entry under it that is taken as some
      type, the key does not spell timestamp, and message j carries a value of that type
      under it, and reads that value there. */
  lemma ArchiveKeysLaw(ft: FloatText, uri: string, additional: map<string, string>, calls: seq<Call>, text: string, j: nat, k: string)
    requires forall c | c in calls :: IsOrder(c.order, c.body.Keys)
    requires '\n' !in uri && ReadableAdditional(additional)
    requires Taken(0, calls) != [] && Encodable(Taken(0, calls)[0].body) && SchemaOf(Taken(0, calls)[0].body) != map[]
    requires var types := SchemaOf(Taken(0, calls)[0].body);
      forall k | k in types :: WithinLimits(ft, k, types[k], Taken(0, calls))
    requires PrintsMetadata(ft, text, Run(NewEncoder(uri, additional), calls))
    requires j < |Taken(0, calls)|
    ensures var entries := Taken(0, calls);
      var archive := DecodeArchive(ft, text, DataFile(Run(NewEncoder(uri, additional), calls)));
      archive.Ok? && |archive.value.messages| == |entries|
      && (k in archive.value.messages[j].body <==>
            (k in entries[0].body && k in entries[j].body && !SpellsTimestamp(k)
             && exists t :: TakenAs(entries[0].body[k], t) && CarriedAs(entries[j].body[k], t)))
      && (k in archive.value.messages[j].body ==> ValueRead(Inner(entries[j].body[k]), archive.value.messages[j].body[k]))
      && archive.value.messages[j].timestamp == entries[j].now
  {
    hide Taken, Run, SchemaOf, WithinLimits, PrintsMetadata, ReadableAdditional, IsOrder, DecodeArchive, DataFile,
      NormalMessages, TakenAs, CarriedAs, SpellsTimestamp, Encodable, Normal, Lookup, ValueRead, Inner;
    CodecRoundTrip(ft, uri, additional, calls, text);
    var entries := Taken(0, calls);
    var types := SchemaOf(entries[0].body);
    MessageAt(types, entries, j);
    KeyInMessage(entries[0].body, entries[j].body, k);
    if k in NormalBody(types, entries[j].body) {
      NormalValue(types[k], entries[j].body, k);
    }
  }

  lemma KeyInMessage(first: Fields, body: Fields, k: string)
    ensures k in NormalBody(SchemaOf(first), body) <==>
      (k in first && k in body && !SpellsTimestamp(k) && exists t :: TakenAs(first[k], t) && CarriedAs(body[k], t))
  {
    hide SchemaOf, TakenAs, CarriedAs, SpellsTimestamp, Normal, Lookup;
    var types := SchemaOf(first);
    if k in types {
      SchemaLaw(first, k, types[k]);
      NormalLaw(types[k], body, k);
    }
    if t :| k in first && k in body && !SpellsTimestamp(k) && TakenAs(first[k], t) && CarriedAs(body[k], t) {
      SchemaLaw(first, k, t);
    }
  }

  /** The pattern that marks a missing float is that of the integer 0xFFDEADBEEFFF: its
      mantissa with the leading one, shifted by its exponent. */
  lemma MissingFloatIsTheMarker()
    ensures var exponent, mantissa := MISSING_FLOAT / 0x10_0000_0000_0000, MISSING_FLOAT % 0x10_0000_0000_0000;
      exponent == 1075 - 5 && 0x10_0000_0000_0000 + mantissa == 0xFFDE_ADBE_EFFF * 32
  {
  }
}
