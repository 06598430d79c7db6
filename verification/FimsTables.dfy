/** Enumeration tables and the byte image of one message, as pure functions.
    The tables are the encoder's own Go maps: strings to bytes, bytes to maps. */
module FimsTables {
  import opened Text
  import opened FimsValues

  datatype KeyMetadata = KeyMetadata(
    key: string,
    dataType: DataType,
    stringEnums: map<string, byte>,
    mapEnums: map<byte, Fields>)

  datatype EncoderState = EncoderState(
    uri: string,
    additional: map<string, string>,
    metas: seq<KeyMetadata>,
    data: seq<byte>,
    count: nat)

  /** Enumerations are single bytes: the 256th entry wraps around to 0. */
  function NextEnum(size: nat): byte {
    (size + 1) % 256
  }

  lemma NextEnumSmall(i: nat)
    requires i < 255
    ensures NextEnum(i) == i + 1
  {
  }

  function AddString(t: map<string, byte>, s: string): (byte, map<string, byte>) {
    if s in t then (t[s], t) else (NextEnum(|t|), t[s := NextEnum(|t|)])
  }

  function StringEnum(t: map<string, byte>, s: string): (byte, map<string, byte>) {
    AddString(t, if s in t then s else CleanString(s))
  }

  predicate LegalFields(m: Fields) {
    forall k | k in m :: !Illegal(k) && (m[k].Str? ==> !Illegal(m[k].text))
  }

  ghost function FindMap(t: map<byte, Fields>, m: Fields): (r: Option<byte>)
    ensures r.Some? ==> r.value in t && t[r.value] == m
    ensures r.None? ==> forall b | b in t :: t[b] != m
  {
    if exists b :: b in t && t[b] == m then
      var b :| b in t && t[b] == m;
      Some(b)
    else None
  }

  ghost function AddMap(t: map<byte, Fields>, m: Fields): (byte, map<byte, Fields>) {
    match FindMap(t, m)
    case Some(b) => (b, t)
    case None => (NextEnum(|t|), t[NextEnum(|t|) := m])
  }

  /** An enumeration for `m`, or for its cleaned copy when `m` holds illegal text;
      0 when even the cleaned copy is refused because a key is illegal. */
  ghost function MapEnum(t: map<byte, Fields>, m: Fields): (byte, map<byte, Fields>) {
    if FindMap(t, m).Some? || LegalFields(m) then AddMap(t, m)
    else
      var c := CleanFields(m);
      if FindMap(t, c).Some? || LegalFields(c) then AddMap(t, c) else (0, t)
  }

  ghost function EncodeMaps(t: map<byte, Fields>, items: seq<Value>): (r: (seq<byte>, map<byte, Fields>))
    requires AllObjects(items)
    ensures |r.0| == |items|
  {
    if items == [] then ([], t)
    else
      var n := |items| - 1;
      var (es, t1) := EncodeMaps(t, items[..n]);
      var (e, t2) := MapEnum(t1, items[n].fields);
      (es + [e], t2)
  }

  function MissingMarker(dataType: DataType): seq<byte> {
    if dataType == STRING || dataType == MAP_SLICE then [0]
    else if dataType == BOOL then [MISSING_BOOL]
    else BigEndian(MISSING_FLOAT, 8)
  }

  /** The bytes written for one key of one message, and the key's grown tables. */
  ghost function EncodeField(meta: KeyMetadata, v: Option<Value>): (KeyMetadata, seq<byte>)
  {
    var missing := (meta, MissingMarker(meta.dataType));
    if v.None? then missing
    else if meta.dataType == FLOAT64 then
      (if v.value.Num? then (meta, BigEndian(v.value.bits, 8)) else missing)
    else if meta.dataType == STRING then
      if v.value.Str? then
        var (e, t) := StringEnum(meta.stringEnums, v.value.text);
        (meta.(stringEnums := t), [e])
      else missing
    else if meta.dataType == BOOL then
      (if v.value.Bool? then (meta, [if v.value.flag then 1 else 0]) else missing)
    else if meta.dataType == MAP_SLICE && v.value.Arr? && v.value.items != [] && AllObjects(v.value.items) then
      var (es, t) := EncodeMaps(meta.mapEnums, v.value.items);
      (meta.(mapEnums := t), [|es| % 256] + es)
    else missing
  }

  ghost function EncodeFields(metas: seq<KeyMetadata>, body: Fields): (r: (seq<KeyMetadata>, seq<byte>))
    ensures |r.0| == |metas|
  {
    if metas == [] then ([], [])
    else
      var (m, bs) := EncodeField(metas[0], Lookup(body, metas[0].key));
      var (ms, rest) := EncodeFields(metas[1..], body);
      ([m] + ms, bs + rest)
  }

  predicate IsOrder<T(==)>(order: seq<T>, s: set<T>) {
    && (forall i, j | 0 <= i < j < |order| :: order[i] != order[j])
    && (forall x | x in order :: x in s)
    && (forall x | x in s :: x in order)
  }

  lemma OrderGrows<T>(order: seq<T>, all: set<T>, pending: set<T>, k: T)
    requires IsOrder(order, all - pending) && pending <= all && k in pending
    ensures IsOrder(order + [k], all - (pending - {k}))
  {
  }

  function Fresh(key: string, dataType: DataType): KeyMetadata {
    KeyMetadata(key, dataType, map[], map[])
  }

  /** The key list that the first message fixes when its map is ranged in `order`. */
  function Schema(body: Fields, order: seq<string>): seq<KeyMetadata> {
    if order == [] then []
    else
      var n := |order| - 1;
      Schema(body, order[..n]) +
      if Accepted(body, order[n]) then [Fresh(order[n], FirstType(body[order[n]]).value)] else []
  }

  const MAX_MESSAGES: nat := 65535

  predicate Takes(st: EncoderState, body: Fields) {
    st.count != MAX_MESSAGES && body != map[]
  }

  /** One call of Encode. A refused call changes nothing. */
  ghost function Encode(st: EncoderState, now: uint64, body: Fields, order: seq<string>): EncoderState {
    if !Takes(st, body) then st
    else
      var (ms, bs) := EncodeFields(if st.count == 0 then Schema(body, order) else st.metas, body);
      st.(metas := ms, data := st.data + BigEndian(now, 8) + bs, count := st.count + 1)
  }

  // ---- Facts about the tables ------------------------------------------------

  ghost predicate InjectiveMaps(t: map<byte, Fields>) {
    forall a, b | a in t && b in t && t[a] == t[b] :: a == b
  }

  /** `table` lists the strings of `t` in enumeration order: `t` is a bijection onto 1..|t|. */
  ghost predicate Enumerates(t: map<string, byte>, table: seq<string>) {
    && |table| == |t|
    && (forall i | 0 <= i < |table| :: table[i] in t && t[table[i]] == i + 1)
    && (forall s | s in t :: 1 <= t[s] <= |table| && table[t[s] - 1] == s)
  }

  /** `order` lists the strings of `t` as they came. Beyond 255 their enumerations repeat. */
  ghost predicate InOrder(t: map<string, byte>, order: seq<string>) {
    && |order| == |t|
    && (forall i | 0 <= i < |order| :: order[i] in t && t[order[i]] == NextEnum(i))
    && (forall i, j | 0 <= i < j < |order| :: order[i] != order[j])
    && (forall s | s in t :: s in order)
  }

  /** What the printer can make of `t`: one line per string, each of the first 256 with a
      string of its enumeration (enumeration 0 in the last of them), the rest empty. */
  ghost predicate Slots(t: map<string, byte>, table: seq<string>) {
    |table| == |t| && forall k | 0 <= k < |table| ::
      if k < 256 then table[k] in t && t[table[k]] == NextEnum(k) else table[k] == ""
  }

  lemma EnumeratesInOrder(t: map<string, byte>, table: seq<string>)
    requires Enumerates(t, table)
    ensures InOrder(t, table)
  {
  }

  /** Within 255 strings there is one way to print a table. */
  lemma SlotsEnumerate(t: map<string, byte>, lines: seq<string>, table: seq<string>)
    requires Enumerates(t, lines) && Slots(t, table)
    ensures table == lines
  {
    forall k | 0 <= k < |table| ensures table[k] == lines[k] {
      assert lines[k] in t && t[lines[k]] == k + 1;
      assert table[k] in t && t[table[k]] == NextEnum(k);
    }
  }

  /** `t` hands out exactly the enumerations 1..|t|. */
  ghost predicate Dense(t: map<byte, Fields>) {
    forall b: byte :: b in t <==> 1 <= b <= |t|
  }

  /** Every table of the key is a bijection onto 1..n and its texts can be printed. */
  ghost predicate Sound(meta: KeyMetadata) {
    && IsDataType(meta.dataType)
    && SoundStrings(meta.stringEnums)
    && Dense(meta.mapEnums)
    && LegalMaps(meta.mapEnums)
    && (meta.dataType == STRING || meta.stringEnums == map[])
    && (meta.dataType == MAP_SLICE || meta.mapEnums == map[])
  }

  ghost predicate SoundStrings(t: map<string, byte>) {
    && (exists table :: Enumerates(t, table))
    && (forall s | s in t :: !Illegal(s))
  }

  ghost predicate LegalMaps(t: map<byte, Fields>) {
    forall b | b in t :: LegalFields(t[b])
  }

  predicate LegalKeys(m: Fields) {
    forall k | k in m :: !Illegal(k)
  }

  /** The map slices of the value stay within what one length byte and the key
      syntax of the metadata file can carry. */
  predicate Carriable(dataType: DataType, v: Option<Value>) {
    dataType == MAP_SLICE && v.Some? && v.value.Arr? && AllObjects(v.value.items) ==>
      && |v.value.items| <= 255
      && forall x | x in v.value.items :: LegalKeys(x.fields)
  }

  /** A table only grows: every enumeration that was handed out keeps its meaning. */
  ghost predicate Grows(a: KeyMetadata, b: KeyMetadata) {
    && a.key == b.key && a.dataType == b.dataType
    && WithinStrings(a.stringEnums, b.stringEnums)
    && Within(a.mapEnums, b.mapEnums)
  }

  ghost predicate WithinStrings(t: map<string, byte>, t': map<string, byte>) {
    forall s | s in t :: s in t' && t'[s] == t[s]
  }

  ghost predicate Fits(meta: KeyMetadata) {
    |meta.stringEnums| <= 255 && |meta.mapEnums| <= 255
  }

  lemma AddStringEnumerates(t: map<string, byte>, s: string, table: seq<string>) returns (table': seq<string>)
    requires Enumerates(t, table)
    requires |AddString(t, s).1| <= 255
    ensures Enumerates(AddString(t, s).1, table')
    ensures s in AddString(t, s).1 && AddString(t, s).1[s] == AddString(t, s).0
  {
    table' := if s in t then table else table + [s];
  }

  lemma AddMapDense(t: map<byte, Fields>, m: Fields)
    requires Dense(t)
    requires |AddMap(t, m).1| <= 255
    ensures Dense(AddMap(t, m).1)
    ensures Within(t, AddMap(t, m).1)
    ensures AddMap(t, m).0 in AddMap(t, m).1 && AddMap(t, m).1[AddMap(t, m).0] == m
  {
    if FindMap(t, m).None? {
      var e := NextEnum(|t|);
      assert e !in t;
      assert |t[e := m]| == |t| + 1;
    }
  }

  lemma CleanLegalFields(m: Fields)
    ensures LegalFields(m) ==> CleanFields(m) == m
    ensures LegalKeys(m) ==> LegalFields(CleanFields(m))
  {
  }

  ghost predicate Within(t: map<byte, Fields>, t': map<byte, Fields>) {
    forall e | e in t :: e in t' && t'[e] == t[e]
  }

  /** The enumerations select the cleaned maps of the slice. */
  ghost predicate Selects(t: map<byte, Fields>, es: seq<byte>, items: seq<Value>)
    requires AllObjects(items)
  {
    |es| == |items| && forall i | 0 <= i < |items| :: es[i] in t && t[es[i]] == CleanFields(items[i].fields)
  }

  lemma MapEnumMeaning(t: map<byte, Fields>, m: Fields)
    requires Dense(t) && LegalMaps(t) && LegalKeys(m)
    requires |MapEnum(t, m).1| <= 255
    ensures var (e, t') := MapEnum(t, m);
      Dense(t') && LegalMaps(t') && Within(t, t') && e in t' && t'[e] == CleanFields(m)
  {
    CleanLegalFields(m);
    assert MapEnum(t, m) == AddMap(t, CleanFields(m));
    AddMapDense(t, CleanFields(m));
  }

  lemma MapEnumNeverShrinks(t: map<byte, Fields>, m: Fields)
    ensures |t| <= |MapEnum(t, m).1|
  {
    hide CleanFields, LegalFields;
  }

  lemma {:induction false} EncodeMapsMeaning(t: map<byte, Fields>, items: seq<Value>)
    requires AllObjects(items) && forall x | x in items :: LegalKeys(x.fields)
    requires Dense(t) && LegalMaps(t) && |EncodeMaps(t, items).1| <= 255
    ensures var (es, t') := EncodeMaps(t, items);
      Dense(t') && LegalMaps(t') && Within(t, t') && Selects(t', es, items)
  {
    hide MapEnum, CleanFields, Dense, LegalMaps, LegalKeys;
    if items != [] {
      var n := |items| - 1;
      var (es, t1) := EncodeMaps(t, items[..n]);
      assert items[n] in items && items == items[..n] + [items[n]];
      MapEnumNeverShrinks(t1, items[n].fields);
      EncodeMapsMeaning(t, items[..n]);
      MapEnumMeaning(t1, items[n].fields);
    }
  }

  lemma StringEnumMeaning(t: map<string, byte>, s: string)
    requires SoundStrings(t) && |StringEnum(t, s).1| <= 255
    ensures var (e, t') := StringEnum(t, s);
      SoundStrings(t') && WithinStrings(t, t') && CleanString(s) in t' && t'[CleanString(s)] == e
  {
    hide CleanString, Illegal;
    var table :| Enumerates(t, table);
    var c := if s in t then s else CleanString(s);
    assert c == CleanString(s);
    var table' := AddStringEnumerates(t, c, table);
    assert Enumerates(StringEnum(t, s).1, table');
  }

  lemma StringFieldKeepsTables(meta: KeyMetadata, s: string)
    requires Sound(meta) && meta.dataType == STRING && Fits(EncodeField(meta, Some(Str(s))).0)
    ensures Sound(EncodeField(meta, Some(Str(s))).0) && Grows(meta, EncodeField(meta, Some(Str(s))).0)
  {
    StringEnumMeaning(meta.stringEnums, s);
  }

  lemma SliceFieldKeepsTables(meta: KeyMetadata, v: Value)
    requires Sound(meta) && meta.dataType == MAP_SLICE && Fits(EncodeField(meta, Some(v)).0)
    requires v.Arr? && AllObjects(v.items) && v.items != [] && Carriable(MAP_SLICE, Some(v))
    ensures Sound(EncodeField(meta, Some(v)).0) && Grows(meta, EncodeField(meta, Some(v)).0)
  {
    EncodeMapsMeaning(meta.mapEnums, v.items);
  }

  /** Every field write keeps the tables bijective onto 1..n and only grows them. */
  lemma EncodeFieldKeepsTables(meta: KeyMetadata, v: Option<Value>)
    requires Sound(meta) && Carriable(meta.dataType, v) && Fits(EncodeField(meta, v).0)
    ensures Sound(EncodeField(meta, v).0) && Grows(meta, EncodeField(meta, v).0)
  {
    if EncodeField(meta, v).0 != meta {
      if meta.dataType == STRING {
        StringFieldKeepsTables(meta, v.value.text);
      } else {
        SliceFieldKeepsTables(meta, v.value);
      }
    }
  }
}
