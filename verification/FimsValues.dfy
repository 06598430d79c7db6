/** FIMS message bodies, and what the codec promises to preserve of them.
    This module knows nothing of bytes or tables: it is the reference that the
    encoder and the decoder are compared with. */
module FimsValues {
  import opened Text

  /** A decoded JSON value. `Num` stands for every numeric Go type and carries the
      64-bit pattern of the float64 it converts to. */
  datatype Value =
    | Null
    | Num(bits: uint64)
    | Str(text: string)
    | Bool(flag: bool)
    | Arr(items: seq<Value>)
    | Obj(fields: map<string, Value>)

  type Fields = map<string, Value>

  /** The data type recorded for a key. Metadata text may name any other type. */
  datatype DataType = FLOAT64 | STRING | BOOL | MAP_SLICE | OTHER(name: string)

  function TypeName(t: DataType): string {
    match t
    case FLOAT64 => "float64"
    case STRING => "string"
    case BOOL => "bool"
    case MAP_SLICE => "[]map[string]interface {}"
    case OTHER(name) => name
  }

  function ParseTypeName(name: string): DataType {
    if name == "float64" then FLOAT64
    else if name == "string" then STRING
    else if name == "bool" then BOOL
    else if name == "[]map[string]interface {}" then MAP_SLICE
    else OTHER(name)
  }

  predicate IsDataType(t: DataType) {
    !t.OTHER?
  }

  /** The float64 pattern of 0xFFDEADBEEFFF. */
  const MISSING_FLOAT: uint64 := 0x42ef_fbd5_b7dd_ffe0
  const MISSING_BOOL: byte := 0xAB
  const INVALID_STRING := "[CODEC MARKED INVALID STRING]"

  /** Holds one of the characters that the metadata file uses as delimiters. */
  predicate Illegal(s: string) {
    ';' in s || '\t' in s || '\n' in s
  }

  function CleanString(s: string): (r: string)
    ensures !Illegal(r)
    ensures Illegal(s) || r == s
  {
    if Illegal(s) then INVALID_STRING else s
  }

  function CleanValue(v: Value): Value {
    if v.Str? then Str(CleanString(v.text)) else v
  }

  function CleanFields(m: Fields): (r: Fields)
    ensures r.Keys == m.Keys
  {
    map k | k in m :: CleanValue(m[k])
  }

  /** Removes the {"value": ...} clothing of a message entry. */
  function Unwrap(v: Value): Option<Value> {
    if v.Obj? then (if "value" in v.fields then Some(v.fields["value"]) else None) else Some(v)
  }

  function Lookup(body: Fields, key: string): Option<Value> {
    if key in body then Unwrap(body[key]) else None
  }

  predicate AllObjects(items: seq<Value>) {
    forall v | v in items :: v.Obj?
  }

  function TypeOf(v: Value): (t: Option<DataType>)
    ensures t.Some? ==> IsDataType(t.value)
  {
    match v
    case Num(_) => Some(FLOAT64)
    case Str(_) => Some(STRING)
    case Bool(_) => Some(BOOL)
    case Arr(items) => if AllObjects(items) then Some(MAP_SLICE) else None
    case _ => None
  }

  /** True when the entry is clothed and marked as a user-interface control, or
      clothed with an unreadable mark. */
  predicate IsControl(m: Fields) {
    "ui_type" in m && (m["ui_type"].Str? ==> m["ui_type"].text == "control")
  }

  /** The data type that the first message gives a key, if the entry is accepted. */
  function FirstType(v: Value): (t: Option<DataType>)
    ensures t.Some? ==> IsDataType(t.value) && Unwrap(v).Some? && TypeOf(Unwrap(v).value) == t
  {
    match v
    case Obj(m) => if "value" !in m || IsControl(m) then None else TypeOf(m["value"])
    case _ => TypeOf(v)
  }

  /** `reflect.TypeOf(nil).String()` panics when the first message clothes a null. */
  predicate ClothesNull(v: Value) {
    v.Obj? && "value" in v.fields && !IsControl(v.fields) && v.fields["value"].Null?
  }

  function LowerChar(c: char): char {
    if 'A' <= c <= 'Z' then c - 'A' + 'a'
    else if c == '\U{0130}' then 'i'
    else if c == '\U{212A}' then 'k'
    else c
  }

  predicate IsTimestampKey(key: string) {
    |key| == 9 && forall i | 0 <= i < 9 :: LowerChar(key[i]) == "timestamp"[i]
  }

  /** A first message that does not make the encoder panic. */
  predicate Encodable(first: Fields) {
    forall k | k in first && !IsTimestampKey(k) :: !ClothesNull(first[k])
  }

  predicate Accepted(body: Fields, key: string) {
    key in body && !IsTimestampKey(key) && FirstType(body[key]).Some?
  }

  /** The schema a first message fixes: accepted keys and their data types. */
  function SchemaOf(first: Fields): (types: map<string, DataType>)
    ensures forall k | k in types :: IsDataType(types[k])
  {
    map k | k in first && Accepted(first, k) :: FirstType(first[k]).value
  }

  /** What one entry of a message survives as: absent, ill-typed, empty-slice and
      marker-valued data disappear, illegal strings become the invalid marker. */
  function Normal(dataType: DataType, v: Option<Value>): Option<Value> {
    if v.None? then None
    else if dataType == FLOAT64 then
      (if v.value.Num? && v.value.bits != MISSING_FLOAT then v else None)
    else if dataType == STRING then
      (if v.value.Str? then Some(Str(CleanString(v.value.text))) else None)
    else if dataType == BOOL then
      (if v.value.Bool? then v else None)
    else if dataType == MAP_SLICE && v.value.Arr? && v.value.items != [] && AllObjects(v.value.items) then
      Some(Arr(CleanItems(v.value.items)))
    else None
  }

  function CleanItems(items: seq<Value>): (r: seq<Value>)
    requires AllObjects(items)
    ensures |r| == |items|
  {
    seq(|items|, i requires 0 <= i < |items| => Obj(CleanFields(items[i].fields)))
  }

  /** The body that decoding must give back for `body`. */
  function NormalBody(types: map<string, DataType>, body: Fields): Fields {
    map k | k in types && Normal(types[k], Lookup(body, k)).Some? :: Normal(types[k], Lookup(body, k)).value
  }
}
