/** The metadata text: how it is printed, how it is parsed, and that parsing undoes
    printing. Go ranges over maps in no fixed order, so printing is a relation
    between a table and every text the printer may produce for it. */
module FimsMetadata {
  import opened Text
  import opened FimsValues
  import opened FimsTables
  import opened FimsDecoder
  import opened FimsRoundTrip

  /** The `%f` verb and `strconv.ParseFloat`, which this model leaves open. */
  datatype FloatText = FloatText(format: uint64 -> string, parse: string -> Option<uint64>)

  // ---- Maps inside slices ----------------------------------------------------

  predicate Printable(v: Value) {
    v.Str? || v.Bool? || v.Num?
  }

  function KindOf(v: Value): (kind: string)
    requires Printable(v)
    ensures ')' !in kind
  {
    match v
    case Str(_) => "string"
    case Bool(_) => "bool"
    case Num(_) => "float64"
  }

  function TextOf(ft: FloatText, v: Value): string
    requires Printable(v)
  {
    match v
    case Str(s) => s
    case Bool(b) => if b then "true" else "false"
    case Num(bits) => ft.format(bits)
  }

  function Element(ft: FloatText, key: string, v: Value): string
    requires Printable(v)
  {
    key + ":" + ("(" + (KindOf(v) + ")" + TextOf(ft, v)))
  }

  predicate PrintableFields(m: Fields) {
    forall k | k in m :: Printable(m[k])
  }

  function Elements(ft: FloatText, m: Fields, order: seq<string>): (r: seq<string>)
    requires PrintableFields(m) && forall k | k in order :: k in m
    ensures |r| == |order|
  {
    if order == [] then [] else [Element(ft, order[0], m[order[0]])] + Elements(ft, m, order[1..])
  }

  /** `line` is one of the lines the printer may write for `m`. */
  ghost predicate PrintsMap(ft: FloatText, line: string, m: Fields) {
    && PrintableFields(m)
    && exists order ::
      && IsOrder(order, m.Keys)
      && line == if order == [] then "" else Join(Elements(ft, m, order), ';')
  }

  function ParseBool(s: string): Option<bool> {
    if s in ["1", "t", "T", "TRUE", "true", "True"] then Some(true)
    else if s in ["0", "f", "F", "FALSE", "false", "False"] then Some(false)
    else None
  }

  function ParseTyped(ft: FloatText, kind: string, text: string): Option<Value> {
    if kind == "string" then Some(Str(text))
    else if kind == "bool" then
      var b := ParseBool(text);
      if b.Some? then Some(Bool(b.value)) else None
    else
      var n := ft.parse(text);
      if n.Some? then Some(Num(n.value)) else None
  }

  function ParseElement(ft: FloatText, element: string): Option<(string, Value)> {
    match Cut(TrimSpace(element), ':')
    case None => None
    case Some((key, typed)) =>
      match Cut(if typed != "" && typed[0] == '(' then typed[1..] else typed, ')')
      case None => None
      case Some((kind, text)) =>
        match ParseTyped(ft, kind, text)
        case None => None
        case Some(v) => Some((key, v))
  }

  function ParseElements(ft: FloatText, elements: seq<string>, acc: Fields): Result<Fields> {
    if elements == [] then Ok(acc)
    else
      match ParseElement(ft, elements[0])
      case None => Err
      case Some((k, v)) => ParseElements(ft, elements[1..], acc[k := v])
  }

  function ParseMap(ft: FloatText, line: string): Result<Fields> {
    ParseElements(ft, SplitOn(line, ';'), map[])
  }

  /** The text of an entry that survives printing and parsing. */
  predicate ReadableEntry(ft: FloatText, key: string, v: Value) {
    && Printable(v)
    && !Illegal(key) && ':' !in key && (key == "" || !IsSpace(key[0]))
    && var text := TextOf(ft, v);
      && !Illegal(text) && (text == "" || !IsSpace(text[|text| - 1]))
      && (v.Num? ==> ft.parse(text) == Some(v.bits))
  }

  lemma TrimKeeps(s: string)
    requires s != "" && !IsSpace(s[0]) && !IsSpace(s[|s| - 1])
    ensures TrimSpace(s) == s
  {
  }

  lemma ParseKind(ft: FloatText, v: Value)
    requires Printable(v) && (v.Num? ==> ft.parse(TextOf(ft, v)) == Some(v.bits))
    ensures ParseTyped(ft, KindOf(v), TextOf(ft, v)) == Some(v)
  {
    assert "true" in ["1", "t", "T", "TRUE", "true", "True"];
    assert "false" !in ["1", "t", "T", "TRUE", "true", "True"];
    assert "false" in ["0", "f", "F", "FALSE", "false", "False"];
  }

  lemma ElementIsTrimmed(ft: FloatText, key: string, v: Value)
    requires ReadableEntry(ft, key, v)
    ensures TrimSpace(Element(ft, key, v)) == Element(ft, key, v)
  {
    var e := Element(ft, key, v);
    var text := TextOf(ft, v);
    assert e[0] == if key == "" then ':' else key[0];
    assert e == (key + ":" + ("(" + KindOf(v))) + ")" + text;
    assert e[|e| - 1] == if text == "" then ')' else text[|text| - 1];
    TrimKeeps(e);
  }

  lemma ParseElementOf(ft: FloatText, key: string, v: Value)
    requires ReadableEntry(ft, key, v)
    ensures ParseElement(ft, Element(ft, key, v)) == Some((key, v))
  {
    var tail := KindOf(v) + ")" + TextOf(ft, v);
    ElementIsTrimmed(ft, key, v);
    CutSeparator(key, ':', "(" + tail);
    assert ("(" + tail)[1..] == tail;
    CutSeparator(KindOf(v), ')', TextOf(ft, v));
    ParseKind(ft, v);
  }

  /** Puts the entries of a map into another one, in the order of the keys. */
  function PutAll<V>(acc: map<string, V>, m: map<string, V>, order: seq<string>): map<string, V>
    requires forall k | k in order :: k in m
    decreases |order|
  {
    if order == [] then acc else PutAll(acc[order[0] := m[order[0]]], m, order[1..])
  }

  lemma {:induction false} PutAllAt<V>(acc: map<string, V>, m: map<string, V>, order: seq<string>, k: string)
    requires forall k | k in order :: k in m
    ensures k in PutAll(acc, m, order) <==> k in acc || k in order
    ensures k in order ==> PutAll(acc, m, order)[k] == m[k]
    ensures k in acc && k !in order ==> PutAll(acc, m, order)[k] == acc[k]
    decreases |order|
  {
    if order != [] {
      assert order == [order[0]] + order[1..];
      PutAllAt(acc[order[0] := m[order[0]]], m, order[1..], k);
    }
  }

  lemma PutAllOrder<V>(m: map<string, V>, order: seq<string>)
    requires IsOrder(order, m.Keys)
    ensures PutAll(map[], m, order) == m
  {
    forall k ensures k in PutAll(map[], m, order) <==> k in m
             ensures k in m ==> PutAll(map[], m, order)[k] == m[k] {
      PutAllAt(map[], m, order, k);
    }
  }

  predicate ReadableFields(ft: FloatText, m: Fields) {
    forall k | k in m :: ReadableEntry(ft, k, m[k])
  }

  lemma {:induction false} ParseElementsOf(ft: FloatText, m: Fields, order: seq<string>, acc: Fields)
    requires (forall k | k in order :: k in m) && ReadableFields(ft, m) && PrintableFields(m)
    ensures ParseElements(ft, Elements(ft, m, order), acc) == Ok(PutAll(acc, m, order))
  {
    if order != [] {
      ParseElementOf(ft, order[0], m[order[0]]);
      ParseElementsOf(ft, m, order[1..], acc[order[0] := m[order[0]]]);
    }
  }

  lemma ElementLegal(ft: FloatText, key: string, v: Value)
    requires ReadableEntry(ft, key, v)
    ensures !Illegal(Element(ft, key, v))
  {
    assert !Illegal(KindOf(v));
  }

  lemma {:induction false} ElementsLegal(ft: FloatText, m: Fields, order: seq<string>)
    requires (forall k | k in order :: k in m) && ReadableFields(ft, m) && PrintableFields(m)
    ensures forall e | e in Elements(ft, m, order) :: !Illegal(e)
  {
    if order != [] {
      ElementLegal(ft, order[0], m[order[0]]);
      ElementsLegal(ft, m, order[1..]);
    }
  }

  lemma {:induction false} JoinLacks(parts: seq<string>, c: char, d: char)
    requires parts != [] && c != d && forall p | p in parts :: d !in p
    ensures d !in Join(parts, c)
  {
    if |parts| > 1 {
      JoinLacks(parts[1..], c, d);
    }
  }

  lemma OrderOfNothing<T>(order: seq<T>, s: set<T>)
    requires IsOrder(order, s)
    ensures order == [] <==> s == {}
  {
    assert order != [] ==> order[0] in s;
    if s != {} {
      var x :| x in s;
      assert x in order;
    }
  }

  /** Whatever order the printer ranges in, parsing a printed line gives the map back,
      and the line holds neither tab nor newline. */
  lemma MapRoundTrip(ft: FloatText, line: string, m: Fields)
    requires PrintsMap(ft, line, m) && m != map[] && ReadableFields(ft, m)
    ensures ParseMap(ft, line) == Ok(m)
    ensures '\t' !in line && '\n' !in line
  {
    var order :| IsOrder(order, m.Keys) && line == if order == [] then "" else Join(Elements(ft, m, order), ';');
    OrderOfNothing(order, m.Keys);
    var parts := Elements(ft, m, order);
    ElementsLegal(ft, m, order);
    SplitOfJoin(parts, ';');
    JoinLacks(parts, ';', '\t');
    JoinLacks(parts, ';', '\n');
    ParseElementsOf(ft, m, order, map[]);
    PutAllOrder(m, order);
  }

  /** The empty map is printed as an empty line, which the parser refuses. */
  lemma EmptyMapIsLost(ft: FloatText, line: string)
    requires PrintsMap(ft, line, map[])
    ensures line == "" && ParseMap(ft, line).Err?
  {
    var m: Fields := map[];
    var order :| IsOrder(order, m.Keys) && line == if order == [] then "" else Join(Elements(ft, m, order), ';');
    OrderOfNothing(order, m.Keys);
  }
}
