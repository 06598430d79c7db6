/** The whole archive: metadata text and data file, written by a run of Encode calls
    and read back. */
module FimsArchive {
  import opened Text
  import opened FimsValues
  import opened FimsTables
  import opened FimsDecoder
  import opened FimsRoundTrip
  import opened FimsMetadata

  // ---- Printing --------------------------------------------------------------

  function KeyLine(meta: KeyMetadata): string {
    meta.key + "\t" + TypeName(meta.dataType)
  }

  /** The key line followed by the key's enumerations in order. */
  ghost predicate PrintsKey(ft: FloatText, lines: seq<string>, meta: KeyMetadata) {
    && |lines| >= 1
    && lines[0] == KeyLine(meta)
    && match meta.dataType
       case STRING => Slots(meta.stringEnums, lines[1..])
       case MAP_SLICE => PrintsMaps(ft, lines[1..], meta.mapEnums)
       case _ => |lines| == 1
  }

  ghost predicate PrintsMaps(ft: FloatText, lines: seq<string>, t: map<byte, Fields>) {
    |lines| == |t| && forall i | 0 <= i < |lines| :: NextEnum(i) in t && PrintsMap(ft, lines[i], t[NextEnum(i)])
  }

  ghost predicate PrintsKeys(ft: FloatText, groups: seq<seq<string>>, metas: seq<KeyMetadata>) {
    |groups| == |metas| && forall i | 0 <= i < |groups| :: PrintsKey(ft, groups[i], metas[i])
  }

  function Flatten(groups: seq<seq<string>>): seq<string> {
    if groups == [] then [] else groups[0] + Flatten(groups[1..])
  }

  function AdditionalLines(additional: map<string, string>, order: seq<string>): seq<string>
    requires forall k | k in order :: k in additional
  {
    if order == [] then []
    else [order[0] + ":" + additional[order[0]]] + AdditionalLines(additional, order[1..])
  }

  /** `text` is one of the metadata files the printer may write: the lines, each
      ended by a newline, without the last newline. */
  ghost predicate PrintsMetadata(ft: FloatText, text: string, st: EncoderState) {
    exists order, groups ::
      && IsOrder(order, st.additional.Keys)
      && PrintsKeys(ft, groups, st.metas)
      && text + "\n" == Terminated([st.uri] + AdditionalLines(st.additional, order) + [""] + Flatten(groups), '\n')
  }

  // ---- Parsing ---------------------------------------------------------------

  /** Running past the last line is an index panic in Go; it is an error here. */
  function ReadAdditional(lines: seq<string>, acc: map<string, string>): Result<(map<string, string>, seq<string>)> {
    if lines == [] then Err
    else if lines[0] == "" then Ok((acc, lines))
    else
      var pair := SplitOn(lines[0], ':');
      if |pair| != 2 then Err else ReadAdditional(lines[1..], acc[pair[0] := pair[1]])
  }

  /** How many lines precede the next line with a tab. */
  function EnumCount(lines: seq<string>): (n: nat)
    ensures n <= |lines|
  {
    if lines == [] || '\t' in lines[0] then 0 else 1 + EnumCount(lines[1..])
  }

  function ParseMaps(ft: FloatText, lines: seq<string>): Result<seq<Fields>> {
    if lines == [] then Ok([])
    else
      match ParseMap(ft, lines[0])
      case Err => Err
      case Ok(m) =>
        match ParseMaps(ft, lines[1..])
        case Err => Err
        case Ok(ms) => Ok([m] + ms)
  }

  /** The enumerations that follow a key line; the lines left over. */
  function ReadEnums(ft: FloatText, key: string, t: DataType, lines: seq<string>): (r: Result<(KeyDecoder, seq<string>)>)
    ensures r.Ok? ==> |r.value.1| <= |lines|
  {
    var n := EnumCount(lines);
    match t
    case STRING => Ok((KeyDecoder(key, STRING, lines[..n], []), lines[n..]))
    case MAP_SLICE =>
      (match ParseMaps(ft, lines[..n])
       case Err => Err
       case Ok(ms) => Ok((KeyDecoder(key, MAP_SLICE, [], ms), lines[n..])))
    case _ => Ok((KeyDecoder(key, t, [], []), lines))
  }

  function ReadKey(ft: FloatText, lines: seq<string>): (r: Result<(KeyDecoder, seq<string>)>)
    requires lines != []
    ensures r.Ok? ==> |r.value.1| < |lines|
  {
    var pair := SplitOn(lines[0], '\t');
    if |pair| != 2 then Err else ReadEnums(ft, pair[0], ParseTypeName(pair[1]), lines[1..])
  }

  function ReadKeys(ft: FloatText, lines: seq<string>): Result<seq<KeyDecoder>>
    decreases |lines|
  {
    if lines == [] then Ok([])
    else
      match ReadKey(ft, lines)
      case Err => Err
      case Ok((dec, rest)) =>
        match ReadKeys(ft, rest)
        case Err => Err
        case Ok(decs) => Ok([dec] + decs)
  }

  datatype Metadata = Metadata(uri: string, decoders: seq<KeyDecoder>, additional: map<string, string>)

  function ReadMetadata(ft: FloatText, text: string): Result<Metadata> {
    var lines := SplitOn(text, '\n');
    if |lines| == 1 then Err
    else
      match ReadAdditional(lines[1..], map[])
      case Err => Err
      case Ok((additional, rest)) =>
        if |rest| < 2 then Err
        else
          match ReadKeys(ft, rest[1..])
          case Err => Err
          case Ok(decs) => Ok(Metadata(lines[0], decs, additional))
  }

  // ---- Parsing undoes printing -------------------------------------------------

  predicate ReadableMeta(ft: FloatText, meta: KeyMetadata) {
    && '\t' !in meta.key && '\n' !in meta.key
    && forall b | b in meta.mapEnums :: meta.mapEnums[b] != map[] && ReadableFields(ft, meta.mapEnums[b])
  }

  lemma TypeNameRoundTrip(t: DataType)
    requires IsDataType(t)
    ensures ParseTypeName(TypeName(t)) == t
    ensures '\t' !in TypeName(t) && '\n' !in TypeName(t)
  {
    match t {
      case FLOAT64 =>
      case STRING => assert "string"[0] != "float64"[0];
      case BOOL => assert "bool"[0] != "float64"[0] && "bool"[0] != "string"[0];
      case MAP_SLICE =>
        var n := "[]map[string]interface {}";
        assert n[0] != "float64"[0] && n[0] != "string"[0] && n[0] != "bool"[0];
    }
  }

  lemma KeyLineSplits(meta: KeyMetadata)
    requires IsDataType(meta.dataType) && '\t' !in meta.key && '\n' !in meta.key
    ensures SplitOn(KeyLine(meta), '\t') == [meta.key, TypeName(meta.dataType)]
    ensures '\t' in KeyLine(meta) && '\n' !in KeyLine(meta)
  {
    TypeNameRoundTrip(meta.dataType);
    SplitSeparator(meta.key, '\t', TypeName(meta.dataType));
    SplitNoSeparator(TypeName(meta.dataType), '\t');
    assert KeyLine(meta)[|meta.key|] == '\t';
  }

  lemma KeyLineOf(ft: FloatText, lines: seq<string>, meta: KeyMetadata)
    requires PrintsKey(ft, lines, meta) && Sound(meta) && ReadableMeta(ft, meta)
    ensures |lines| >= 1 && SplitOn(lines[0], '\t') == [meta.key, TypeName(meta.dataType)]
    ensures ParseTypeName(TypeName(meta.dataType)) == meta.dataType
    ensures '\t' in lines[0] && '\n' !in lines[0]
  {
    KeyLineSplits(meta);
    TypeNameRoundTrip(meta.dataType);
  }

  lemma {:induction false} EnumCountOf(lines: seq<string>, more: seq<string>)
    requires forall l | l in lines :: '\t' !in l
    requires more == [] || '\t' in more[0]
    ensures EnumCount(lines + more) == |lines|
  {
    if lines == [] {
      assert lines + more == more;
    } else {
      assert (lines + more)[1..] == lines[1..] + more;
      EnumCountOf(lines[1..], more);
    }
  }

  lemma {:induction false} ParseMapsOf(ft: FloatText, lines: seq<string>, maps: seq<Fields>)
    requires |lines| == |maps|
    requires forall i | 0 <= i < |lines| :: ParseMap(ft, lines[i]) == Ok(maps[i])
    ensures ParseMaps(ft, lines) == Ok(maps)
  {
    if lines != [] {
      ParseMapsOf(ft, lines[1..], maps[1..]);
      assert [maps[0]] + maps[1..] == maps;
    }
  }

  /** The maps of a dense table in enumeration order. */
  ghost function MapTable(t: map<byte, Fields>): (table: seq<Fields>)
    requires Dense(t) && |t| <= 255
    ensures Lists(table, t)
  {
    seq(|t|, i requires 0 <= i < |t| => var b: byte := i + 1; t[b])
  }

  lemma MapLinesParse(ft: FloatText, lines: seq<string>, t: map<byte, Fields>)
    requires Dense(t) && |t| <= 255 && PrintsMaps(ft, lines, t)
    requires forall b | b in t :: t[b] != map[] && ReadableFields(ft, t[b])
    ensures ParseMaps(ft, lines) == Ok(MapTable(t))
    ensures forall l | l in lines :: '\t' !in l && '\n' !in l
  {
    hide NextEnum, PrintsMap, ParseMap, ReadableFields;
    var maps := MapTable(t);
    forall i | 0 <= i < |lines|
      ensures ParseMap(ft, lines[i]) == Ok(maps[i]) && '\t' !in lines[i] && '\n' !in lines[i]
    {
      NextEnumSmall(i);
      var b := NextEnum(i);
      assert PrintsMap(ft, lines[i], t[b]) && b in t;
      MapRoundTrip(ft, lines[i], t[b]);
    }
    ParseMapsOf(ft, lines, maps);
  }

  /** The decoder that reading the key's own lines gives. */
  ghost function DecoderOf(meta: KeyMetadata, lines: seq<string>): KeyDecoder
    requires |lines| >= 1 && Dense(meta.mapEnums) && |meta.mapEnums| <= 255
  {
    KeyDecoder(meta.key, meta.dataType,
               if meta.dataType == STRING then lines[1..] else [],
               if meta.dataType == MAP_SLICE then MapTable(meta.mapEnums) else [])
  }

  lemma EnumerationLines(ft: FloatText, lines: seq<string>, meta: KeyMetadata)
    requires PrintsKey(ft, lines, meta) && Sound(meta) && Fits(meta) && ReadableMeta(ft, meta)
    ensures forall l | l in lines[1..] :: '\t' !in l && '\n' !in l
    ensures meta.dataType == MAP_SLICE ==> ParseMaps(ft, lines[1..]) == Ok(MapTable(meta.mapEnums))
  {
    if meta.dataType == MAP_SLICE {
      MapLinesParse(ft, lines[1..], meta.mapEnums);
    } else if meta.dataType == STRING {
      forall l | l in lines[1..] ensures !Illegal(l) {
        assert l in meta.stringEnums;
      }
    }
  }

  lemma DecoderDescribes(ft: FloatText, lines: seq<string>, meta: KeyMetadata)
    requires PrintsKey(ft, lines, meta) && Sound(meta) && Fits(meta)
    ensures Describes(DecoderOf(meta, lines), meta)
  {
    if meta.dataType != STRING {
      var none: seq<string> := [];
      assert Enumerates(meta.stringEnums, none);
    } else {
      var table :| Enumerates(meta.stringEnums, table);
      SlotsEnumerate(meta.stringEnums, table, lines[1..]);
    }
  }

  lemma ReadEnumsOf(ft: FloatText, lines: seq<string>, meta: KeyMetadata, more: seq<string>)
    requires PrintsKey(ft, lines, meta) && Sound(meta) && Fits(meta) && ReadableMeta(ft, meta)
    requires more == [] || '\t' in more[0]
    ensures ReadEnums(ft, meta.key, meta.dataType, lines[1..] + more) == Ok((DecoderOf(meta, lines), more))
  {
    var enums := lines[1..];
    EnumerationLines(ft, lines, meta);
    EnumCountOf(enums, more);
    assert (enums + more)[..|enums|] == enums && (enums + more)[|enums|..] == more;
    if meta.dataType != STRING && meta.dataType != MAP_SLICE {
      assert enums + more == more;
    }
  }

  lemma ReadKeyOf(ft: FloatText, lines: seq<string>, meta: KeyMetadata, more: seq<string>)
    requires PrintsKey(ft, lines, meta) && Sound(meta) && Fits(meta) && ReadableMeta(ft, meta)
    requires more == [] || '\t' in more[0]
    ensures ReadKey(ft, lines + more) == Ok((DecoderOf(meta, lines), more))
  {
    hide Sound, Fits, ReadableMeta, PrintsKey, ReadEnums, DecoderOf, SplitOn, ParseTypeName, TypeName;
    ReadEnumsOf(ft, lines, meta, more);
    KeyLineOf(ft, lines, meta);
    assert (lines + more)[0] == lines[0] && (lines + more)[1..] == lines[1..] + more;
  }

  lemma GroupHoldsNoNewline(ft: FloatText, lines: seq<string>, meta: KeyMetadata)
    requires PrintsKey(ft, lines, meta) && Sound(meta) && Fits(meta) && ReadableMeta(ft, meta)
    ensures forall l | l in lines :: '\n' !in l
  {
    hide Sound, Fits, ReadableMeta, PrintsKey, ParseMaps, SplitOn, TypeName, ParseTypeName;
    KeyLineOf(ft, lines, meta);
    EnumerationLines(ft, lines, meta);
    assert lines == [lines[0]] + lines[1..];
  }

  /** Followed by nothing or by another key line, the group reads as `dec`. */
  ghost predicate Reads(ft: FloatText, group: seq<string>, dec: KeyDecoder) {
    && group != [] && '\t' in group[0]
    && (forall l | l in group :: '\n' !in l)
    && forall more: seq<string> | more == [] || '\t' in more[0] :: ReadKey(ft, group + more) == Ok((dec, more))
  }

  lemma GroupReads(ft: FloatText, lines: seq<string>, meta: KeyMetadata)
    requires PrintsKey(ft, lines, meta) && Sound(meta) && Fits(meta) && ReadableMeta(ft, meta)
    ensures Reads(ft, lines, DecoderOf(meta, lines))
  {
    var dec := DecoderOf(meta, lines);
    hide Sound, Fits, ReadableMeta, PrintsKey, DecoderOf, SplitOn, TypeName, ParseTypeName, ReadKey, Dense;
    GroupHoldsNoNewline(ft, lines, meta);
    KeyLineOf(ft, lines, meta);
    forall more: seq<string> | more == [] || '\t' in more[0]
      ensures ReadKey(ft, lines + more) == Ok((dec, more))
    {
      ReadKeyOf(ft, lines, meta, more);
    }
  }

  lemma {:induction false} ReadGroups(ft: FloatText, groups: seq<seq<string>>, decs: seq<KeyDecoder>)
    requires |groups| == |decs| && forall i | 0 <= i < |groups| :: Reads(ft, groups[i], decs[i])
    ensures ReadKeys(ft, Flatten(groups)) == Ok(decs)
    ensures groups != [] ==> Flatten(groups) != [] && '\t' in Flatten(groups)[0]
    ensures forall l | l in Flatten(groups) :: '\n' !in l
  {
    hide Reads;
    if groups != [] {
      ReadGroups(ft, groups[1..], decs[1..]);
      ReadGroup(ft, groups[0], decs[0], Flatten(groups[1..]), decs[1..]);
      assert [decs[0]] + decs[1..] == decs;
    }
  }

  lemma ReadGroup(ft: FloatText, group: seq<string>, dec: KeyDecoder, rest: seq<string>, decs: seq<KeyDecoder>)
    requires Reads(ft, group, dec) && ReadKeys(ft, rest) == Ok(decs)
    requires rest == [] || '\t' in rest[0]
    ensures ReadKeys(ft, group + rest) == Ok([dec] + decs)
    ensures group != [] && '\t' in group[0] && forall l | l in group :: '\n' !in l
  {
    hide ReadKey;
  }

  lemma ReadKeysOf(ft: FloatText, groups: seq<seq<string>>, metas: seq<KeyMetadata>)
      returns (decs: seq<KeyDecoder>)
    requires PrintsKeys(ft, groups, metas) && AllSound(metas) && AllFit(metas)
    requires forall i | 0 <= i < |metas| :: ReadableMeta(ft, metas[i])
    ensures ReadKeys(ft, Flatten(groups)) == Ok(decs) && AllDescribe(decs, metas)
    ensures metas != [] ==> Flatten(groups) != []
    ensures forall l | l in Flatten(groups) :: '\n' !in l
  {
    decs := seq(|groups|, i requires 0 <= i < |groups| => assert PrintsKey(ft, groups[i], metas[i]); DecoderOf(metas[i], groups[i]));
    forall i | 0 <= i < |groups| ensures Reads(ft, groups[i], decs[i]) && Describes(decs[i], metas[i]) {
      GroupReads(ft, groups[i], metas[i]);
      DecoderDescribes(ft, groups[i], metas[i]);
    }
    ReadGroups(ft, groups, decs);
  }

  predicate ReadableAdditional(additional: map<string, string>) {
    forall k | k in additional ::
      ':' !in k && '\n' !in k && ':' !in additional[k] && '\n' !in additional[k]
  }

  lemma {:induction false} ReadAdditionalOf(m: map<string, string>, order: seq<string>, more: seq<string>, acc: map<string, string>)
    requires ReadableAdditional(m) && forall k | k in order :: k in m
    ensures ReadAdditional(AdditionalLines(m, order) + [""] + more, acc) == Ok((PutAll(acc, m, order), [""] + more))
    ensures forall l | l in AdditionalLines(m, order) :: '\n' !in l
    decreases |order|
  {
    var lines := AdditionalLines(m, order) + [""] + more;
    if order == [] {
      assert lines == [""] + more;
    } else {
      var k := order[0];
      assert k in order;
      assert lines[0] == k + ":" + m[k] && lines[1..] == AdditionalLines(m, order[1..]) + [""] + more;
      SplitSeparator(k, ':', m[k]);
      SplitNoSeparator(m[k], ':');
      assert lines[0][|k|] == ':';
      ReadAdditionalOf(m, order[1..], more, acc[k := m[k]]);
    }
  }

  /** Reading the printed metadata returns the URI, the additional data and a decoder
      for every key, with each enumeration at index enum - 1. */
  lemma MetadataRoundTrip(ft: FloatText, text: string, st: EncoderState) returns (decs: seq<KeyDecoder>)
    requires PrintsMetadata(ft, text, st) && st.metas != []
    requires '\n' !in st.uri && ReadableAdditional(st.additional)
    requires AllSound(st.metas) && AllFit(st.metas)
    requires forall i | 0 <= i < |st.metas| :: ReadableMeta(ft, st.metas[i])
    ensures ReadMetadata(ft, text) == Ok(Metadata(st.uri, decs, st.additional))
    ensures AllDescribe(decs, st.metas)
  {
    var order, groups :|
      && IsOrder(order, st.additional.Keys)
      && PrintsKeys(ft, groups, st.metas)
      && text + "\n" == Terminated([st.uri] + AdditionalLines(st.additional, order) + [""] + Flatten(groups), '\n');
    hide AllSound, AllFit, AllDescribe, ReadableMeta, PrintsKeys, ReadableAdditional, Terminated, ReadKeys, PrintsMetadata;
    decs := ReadKeysOf(ft, groups, st.metas);
    ReadAdditionalOf(st.additional, order, Flatten(groups), map[]);
    SplitPrinted(text, st.uri, AdditionalLines(st.additional, order), Flatten(groups));
    PutAllOrder(st.additional, order);
    hide IsOrder, SplitOn, ReadAdditional, AdditionalLines, Flatten;
    assert ([""] + Flatten(groups))[1..] == Flatten(groups);
  }

  lemma SplitPrinted(text: string, uri: string, additional: seq<string>, keys: seq<string>)
    requires text + "\n" == Terminated([uri] + additional + [""] + keys, '\n')
    requires '\n' !in uri
    requires (forall l | l in additional :: '\n' !in l) && forall l | l in keys :: '\n' !in l
    ensures SplitOn(text, '\n')[0] == uri
    ensures SplitOn(text, '\n')[1..] == additional + [""] + keys
  {
    var lines := [uri] + additional + [""] + keys;
    TerminatedIsJoined(lines, '\n');
    assert text == (text + "\n")[..|text|] == Join(lines, '\n');
    SplitOfJoin(lines, '\n');
  }
}
