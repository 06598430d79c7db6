/** The decoder's loops over a byte buffer and over the lines of the metadata file,
    proved against the functions of FimsDecoder and FimsArchive. */
module FimsReader {
  import opened Text
  import opened FimsValues
  import opened FimsDecoder
  import opened FimsMetadata
  import opened FimsArchive

  /** The unread part of a `bytes.Buffer`. */
  class ByteBuffer {
    var bytes: seq<byte>

    constructor (bytes: seq<byte>)
      ensures this.bytes == bytes
    {
      this.bytes := bytes;
    }

    /** Reads exactly n bytes, or fails after draining what there was. */
    method Read(n: nat) returns (r: Result<seq<byte>>)
      modifies this
      ensures r.Ok? <==> n <= |old(bytes)|
      ensures r.Ok? ==> r.value == old(bytes)[..n] && bytes == old(bytes)[n..]
      ensures r.Err? ==> bytes == []
    {
      if n <= |bytes| {
        r := Ok(bytes[..n]);
        bytes := bytes[n..];
      } else {
        r := Err;
        bytes := [];
      }
    }
  }

  function Put(dest: Fields, key: string, v: Option<Value>): Fields {
    if v.Some? then dest[key := v.value] else dest
  }

  method DecodeMapEnums(table: seq<Fields>, es: seq<byte>) returns (r: Result<seq<Value>>)
    ensures r.Ok? <==> ValidMapEnums(es, |table|)
    ensures r.Ok? ==> r.value == MapsAt(table, es)
  {
    var maps: seq<Value> := [];
    for i := 0 to |es|
      invariant ValidMapEnums(es[..i], |table|) && maps == MapsAt(table, es[..i])
    {
      if es[i] == 0 || es[i] > |table| {
        assert es[i] in es;
        return Err;
      }
      assert es[..i + 1] == es[..i] + [es[i]];
      maps := maps + [Obj(table[es[i] - 1])];
    }
    assert es[..|es|] == es;
    r := Ok(maps);
  }

  /** Decodes one key from the buffer into the destination map. */
  method DecodeFieldInto(dec: KeyDecoder, buf: ByteBuffer, dest: Fields) returns (r: Result<Fields>)
    modifies buf
    ensures match DecodeField(dec, old(buf.bytes))
      case Err => r.Err?
      case Ok((v, rest)) => r == Ok(Put(dest, dec.key, v)) && buf.bytes == rest
  {
    ghost var start := buf.bytes;
    if dec.dataType == FLOAT64 {
      var word := buf.Read(8);
      if word.Err? {
        return Err;
      }
      var bits := FromBigEndian(word.value);
      r := Ok(if bits < TWO_64 && bits != MISSING_FLOAT then dest[dec.key := Num(bits)] else dest);
    } else if dec.dataType == BOOL {
      var b := buf.Read(1);
      if b.Err? {
        return Err;
      }
      r := Ok(if b.value[0] == 0 then dest[dec.key := Bool(false)]
              else if b.value[0] == 1 then dest[dec.key := Bool(true)] else dest);
    } else if dec.dataType == STRING {
      var b := buf.Read(1);
      if b.Err? || b.value[0] > |dec.stringDecoder| {
        return Err;
      }
      r := Ok(if b.value[0] != 0 then dest[dec.key := Str(dec.stringDecoder[b.value[0] - 1])] else dest);
    } else if dec.dataType == MAP_SLICE {
      var n := buf.Read(1);
      if n.Err? {
        return Err;
      }
      if n.value[0] == 0 {
        return Ok(dest);
      }
      var es := buf.Read(n.value[0]);
      if es.Err? {
        return Err;
      }
      var maps := DecodeMapEnums(dec.mapDecoder, es.value);
      if maps.Err? {
        return Err;
      }
      r := Ok(dest[dec.key := Arr(maps.value)]);
    } else {
      r := Err;
    }
  }

  /** Decodes one message: its timestamp, then every key in order. */
  method DecodeSingleFimsMsg(decs: seq<KeyDecoder>, buf: ByteBuffer) returns (r: Result<Message>)
    modifies buf
    ensures match DecodeMessage(decs, old(buf.bytes))
      case Err => r.Err?
      case Ok((m, rest)) => r == Ok(m) && buf.bytes == rest
  {
    var word := buf.Read(8);
    if word.Err? {
      return Err;
    }
    hide DecodeField, FromBigEndian;
    ghost var start := buf.bytes;
    var body: Fields := map[];
    for i := 0 to |decs|
      invariant DecodeFields(decs, start, map[]) == DecodeFields(decs[i..], buf.bytes, body)
    {
      assert decs[i..][0] == decs[i] && decs[i..][1..] == decs[i + 1..];
      var next := DecodeFieldInto(decs[i], buf, body);
      if next.Err? {
        return Err;
      }
      body := next.value;
    }
    r := Ok(Message(FromBigEndian(word.value), body));
  }

  function Prepend(ms: seq<Message>, r: Result<(seq<Message>, seq<byte>)>): Result<(seq<Message>, seq<byte>)> {
    match r
    case Err => Err
    case Ok((more, rest)) => Ok((ms + more, rest))
  }

  lemma PrependStep(decs: seq<KeyDecoder>, n: nat, bs: seq<byte>, done: seq<Message>)
    requires n > 0
    ensures DecodeMessage(decs, bs).Err? ==> DecodeMessages(decs, n, bs).Err?
    ensures DecodeMessage(decs, bs).Ok? ==>
      var (m, rest) := DecodeMessage(decs, bs).value;
      Prepend(done, DecodeMessages(decs, n, bs)) == Prepend(done + [m], DecodeMessages(decs, n - 1, rest))
  {
    hide DecodeMessage;
    if DecodeMessage(decs, bs).Ok? {
      var (m, rest) := DecodeMessage(decs, bs).value;
      var more := DecodeMessages(decs, n - 1, rest);
      if more.Ok? {
        assert done + ([m] + more.value.0) == (done + [m]) + more.value.0;
      }
    }
  }

  lemma PrependNothing(decs: seq<KeyDecoder>, n: nat, bs: seq<byte>)
    ensures Prepend([], DecodeMessages(decs, n, bs)) == DecodeMessages(decs, n, bs)
  {
    var r := DecodeMessages(decs, n, bs);
    if r.Ok? {
      assert [] + r.value.0 == r.value.0;
    }
  }

  lemma PrependToNothing(decs: seq<KeyDecoder>, bs: seq<byte>, done: seq<Message>)
    ensures Prepend(done, DecodeMessages(decs, 0, bs)) == Ok((done, bs))
  {
    assert done + [] == done;
  }

  /** Decodes a data file: the message count, then that many messages. */
  method DecodeFimsMessages(decs: seq<KeyDecoder>, buf: ByteBuffer) returns (r: Result<seq<Message>>)
    modifies buf
    ensures r == DecodeFile(decs, old(buf.bytes))
  {
    if buf.bytes == [] {
      return Err;
    }
    var count := if |buf.bytes| == 1 then [buf.bytes[0], 0] else buf.bytes[..2];
    buf.bytes := if |buf.bytes| == 1 then [] else buf.bytes[2..];
    var n := FromBigEndian(count);
    hide DecodeMessages, DecodeMessage, FromBigEndian, Prepend;
    ghost var start := buf.bytes;
    var ms: seq<Message> := [];
    PrependNothing(decs, n, start);
    for i := 0 to n
      invariant Prepend([], DecodeMessages(decs, n, start)) == Prepend(ms, DecodeMessages(decs, n - i, buf.bytes))
    {
      PrependStep(decs, n - i, buf.bytes, ms);
      PrependErr(ms, DecodeMessages(decs, n - i, buf.bytes));
      var m := DecodeSingleFimsMsg(decs, buf);
      if m.Err? {
        return Err;
      }
      ms := ms + [m.value];
    }
    PrependToNothing(decs, buf.bytes, ms);
    r := Ok(ms);
  }

  lemma PrependErr(ms: seq<Message>, r: Result<(seq<Message>, seq<byte>)>)
    ensures r.Err? ==> Prepend(ms, r).Err?
  {
  }

  // ---- The metadata file -----------------------------------------------------------

  /** Parses the elements of a printed map one after the other. */
  method ParseStringifiedMap(ft: FloatText, line: string) returns (r: Result<Fields>)
    ensures r == ParseMap(ft, line)
  {
    hide ParseElement, SplitOn;
    var elements := SplitOn(line, ';');
    var parsed: Fields := map[];
    for i := 0 to |elements|
      invariant ParseMap(ft, line) == ParseElements(ft, elements[i..], parsed)
    {
      assert elements[i..][0] == elements[i] && elements[i..][1..] == elements[i + 1..];
      match ParseElement(ft, elements[i]) {
        case None => return Err;
        case Some((k, v)) => parsed := parsed[k := v];
      }
    }
    r := Ok(parsed);
  }

  /** Pops the enumeration lines of a string key. */
  method PopStrings(all: seq<string>) returns (taken: seq<string>, lines: seq<string>)
    ensures taken == all[..EnumCount(all)] && lines == all[EnumCount(all)..]
  {
    taken, lines := [], all;
    ghost var n := 0;
    while |lines| > 0 && '\t' !in lines[0]
      invariant n <= |all| && taken == all[..n] && lines == all[n..]
      invariant EnumCount(all) == n + EnumCount(lines)
      decreases |lines|
    {
      assert all[..n + 1] == all[..n] + [all[n]];
      taken := taken + [lines[0]];
      lines := lines[1..];
      n := n + 1;
    }
  }

  function PrependMaps(ms: seq<Fields>, r: Result<seq<Fields>>): Result<seq<Fields>> {
    match r
    case Err => Err
    case Ok(more) => Ok(ms + more)
  }

  lemma PrependMapsStep(ft: FloatText, lines: seq<string>, done: seq<Fields>)
    requires lines != []
    ensures ParseMap(ft, lines[0]).Err? ==> ParseMaps(ft, lines).Err?
    ensures ParseMap(ft, lines[0]).Ok? ==>
      PrependMaps(done, ParseMaps(ft, lines)) == PrependMaps(done + [ParseMap(ft, lines[0]).value], ParseMaps(ft, lines[1..]))
  {
    hide ParseMap;
    if ParseMap(ft, lines[0]).Ok? && ParseMaps(ft, lines[1..]).Ok? {
      var m, more := ParseMap(ft, lines[0]).value, ParseMaps(ft, lines[1..]).value;
      assert done + ([m] + more) == (done + [m]) + more;
    }
  }

  /** Pops and parses the enumeration lines of a map-slice key. */
  method PopMaps(ft: FloatText, all: seq<string>) returns (r: Result<seq<Fields>>, lines: seq<string>)
    ensures r == ParseMaps(ft, all[..EnumCount(all)])
    ensures r.Ok? ==> lines == all[EnumCount(all)..]
  {
    var taken;
    taken, lines := PopStrings(all);
    hide EnumCount, ParseMap;
    var maps: seq<Fields> := [];
    if ParseMaps(ft, taken).Ok? {
      assert [] + ParseMaps(ft, taken).value == ParseMaps(ft, taken).value;
    }
    for i := 0 to |taken|
      invariant ParseMaps(ft, taken) == PrependMaps(maps, ParseMaps(ft, taken[i..]))
    {
      assert taken[i..][0] == taken[i] && taken[i..][1..] == taken[i + 1..];
      PrependMapsStep(ft, taken[i..], maps);
      var m := ParseStringifiedMap(ft, taken[i]);
      if m.Err? {
        r := Err;
        return;
      }
      maps := maps + [m.value];
    }
    assert maps + [] == maps;
    r := Ok(maps);
  }

  method PopKey(ft: FloatText, all: seq<string>) returns (r: Result<KeyDecoder>, lines: seq<string>)
    requires all != []
    ensures match ReadKey(ft, all)
      case Err => r.Err?
      case Ok((dec, rest)) => r == Ok(dec) && lines == rest
  {
    hide ParseMaps, EnumCount, ParseTypeName, SplitOn;
    var pair := SplitOn(all[0], '\t');
    lines := all[1..];
    if |pair| != 2 {
      r := Err;
      return;
    }
    var t := ParseTypeName(pair[1]);
    if t == STRING {
      var taken;
      taken, lines := PopStrings(lines);
      r := Ok(KeyDecoder(pair[0], STRING, taken, []));
    } else if t == MAP_SLICE {
      var maps;
      maps, lines := PopMaps(ft, lines);
      r := if maps.Err? then Err else Ok(KeyDecoder(pair[0], MAP_SLICE, [], maps.value));
    } else {
      r := Ok(KeyDecoder(pair[0], t, [], []));
    }
  }

  function PrependDecoders(ds: seq<KeyDecoder>, r: Result<seq<KeyDecoder>>): Result<seq<KeyDecoder>> {
    match r
    case Err => Err
    case Ok(more) => Ok(ds + more)
  }

  lemma PrependDecodersStep(ft: FloatText, lines: seq<string>, done: seq<KeyDecoder>)
    requires lines != []
    ensures ReadKey(ft, lines).Err? ==> ReadKeys(ft, lines).Err?
    ensures ReadKey(ft, lines).Ok? ==>
      var (dec, rest) := ReadKey(ft, lines).value;
      PrependDecoders(done, ReadKeys(ft, lines)) == PrependDecoders(done + [dec], ReadKeys(ft, rest))
  {
    hide ReadKey;
    if ReadKey(ft, lines).Ok? {
      var (dec, rest) := ReadKey(ft, lines).value;
      if ReadKeys(ft, rest).Ok? {
        var more := ReadKeys(ft, rest).value;
        assert done + ([dec] + more) == (done + [dec]) + more;
      }
    }
  }

  method PopKeys(ft: FloatText, all: seq<string>) returns (r: Result<seq<KeyDecoder>>)
    ensures r == ReadKeys(ft, all)
  {
    hide ReadKey;
    var decs: seq<KeyDecoder> := [];
    var lines := all;
    if ReadKeys(ft, all).Ok? {
      assert [] + ReadKeys(ft, all).value == ReadKeys(ft, all).value;
    }
    while |lines| > 0
      invariant ReadKeys(ft, all) == PrependDecoders(decs, ReadKeys(ft, lines))
      decreases |lines|
    {
      PrependDecodersStep(ft, lines, decs);
      var dec, rest := PopKey(ft, lines);
      if dec.Err? {
        return Err;
      }
      decs := decs + [dec.value];
      lines := rest;
    }
    assert decs + [] == decs;
    r := Ok(decs);
  }

  /** Reads the metadata file line by line. */
  method ParseMetadata(ft: FloatText, text: string) returns (r: Result<Metadata>)
    ensures r == ReadMetadata(ft, text)
  {
    hide SplitOn, ReadKeys;
    var all := SplitOn(text, '\n');
    if |all| == 1 {
      return Err;
    }
    var lines, additional: map<string, string> := all[1..], map[];
    while lines != [] && lines[0] != ""
      invariant ReadAdditional(all[1..], map[]) == ReadAdditional(lines, additional)
      decreases |lines|
    {
      var pair := SplitOn(lines[0], ':');
      if |pair| != 2 {
        return Err;
      }
      additional := additional[pair[0] := pair[1]];
      lines := lines[1..];
    }
    if lines == [] || |lines| < 2 {
      return Err;
    }
    var decs := PopKeys(ft, lines[1..]);
    r := if decs.Err? then Err else Ok(Metadata(all[0], decs.value, additional));
  }
}
