/** Decoding of data files and of the metadata text, as pure functions. */
module FimsDecoder {
  import opened Text
  import opened FimsValues

  datatype KeyDecoder = KeyDecoder(
    key: string,
    dataType: DataType,
    stringDecoder: seq<string>,
    mapDecoder: seq<Fields>)

  function ReadBytes(bs: seq<byte>, n: nat): (r: Result<(seq<byte>, seq<byte>)>)
    ensures r.Ok? ==> |r.value.0| == n && r.value.0 + r.value.1 == bs
  {
    if n <= |bs| then Ok((bs[..n], bs[n..])) else Err
  }

  predicate ValidMapEnums(es: seq<byte>, size: nat) {
    forall e | e in es :: 1 <= e <= size
  }

  /** One key of one message: the decoded value, if any, and the bytes left over. */
  function DecodeField(dec: KeyDecoder, bs: seq<byte>): Result<(Option<Value>, seq<byte>)> {
    if dec.dataType == FLOAT64 then
      match ReadBytes(bs, 8)
      case Err => Err
      case Ok((word, rest)) =>
        var bits := FromBigEndian(word);
        // eight bytes always fit; the test keeps the type of Num
        Ok((if bits < TWO_64 && bits != MISSING_FLOAT then Some(Num(bits)) else None, rest))
    else if dec.dataType == BOOL then
      if bs == [] then Err
      else Ok((if bs[0] == 0 then Some(Bool(false)) else if bs[0] == 1 then Some(Bool(true)) else None, bs[1..]))
    else if dec.dataType == STRING then
      if bs == [] || bs[0] > |dec.stringDecoder| then Err
      else Ok((if bs[0] == 0 then None else Some(Str(dec.stringDecoder[bs[0] - 1])), bs[1..]))
    else if dec.dataType == MAP_SLICE then
      if bs == [] then Err
      else if bs[0] == 0 then Ok((None, bs[1..]))
      else
        match ReadBytes(bs[1..], bs[0])
        case Err => Err
        case Ok((es, rest)) =>
          if !ValidMapEnums(es, |dec.mapDecoder|) then Err
          else Ok((Some(Arr(MapsAt(dec.mapDecoder, es))), rest))
    else Err
  }

  function MapsAt(table: seq<Fields>, es: seq<byte>): seq<Value>
    requires ValidMapEnums(es, |table|)
  {
    seq(|es|, i requires 0 <= i < |es| => assert es[i] in es; Obj(table[es[i] - 1]))
  }

  function DecodeFields(decs: seq<KeyDecoder>, bs: seq<byte>, body: Fields): Result<(Fields, seq<byte>)> {
    if decs == [] then Ok((body, bs))
    else
      match DecodeField(decs[0], bs)
      case Err => Err
      case Ok((v, rest)) =>
        DecodeFields(decs[1..], rest, if v.Some? then body[decs[0].key := v.value] else body)
  }

  datatype Message = Message(timestamp: nat, body: Fields)

  function DecodeMessage(decs: seq<KeyDecoder>, bs: seq<byte>): Result<(Message, seq<byte>)> {
    match ReadBytes(bs, 8)
    case Err => Err
    case Ok((word, rest)) =>
      match DecodeFields(decs, rest, map[])
      case Err => Err
      case Ok((body, left)) => Ok((Message(FromBigEndian(word), body), left))
  }

  function DecodeMessages(decs: seq<KeyDecoder>, n: nat, bs: seq<byte>): Result<(seq<Message>, seq<byte>)> {
    if n == 0 then Ok(([], bs))
    else
      match DecodeMessage(decs, bs)
      case Err => Err
      case Ok((m, rest)) =>
        match DecodeMessages(decs, n - 1, rest)
        case Err => Err
        case Ok((ms, left)) => Ok(([m] + ms, left))
  }

  /** A data file: a two-byte message count, then the messages. A lone byte is read
      as the high half of the count, as `Buffer.Read` leaves the other half zero. */
  function DecodeFile(decs: seq<KeyDecoder>, bs: seq<byte>): Result<seq<Message>> {
    if bs == [] then Err
    else
      var count := if |bs| == 1 then [bs[0], 0] else bs[..2];
      match DecodeMessages(decs, FromBigEndian(count), if |bs| == 1 then [] else bs[2..])
      case Err => Err
      case Ok((ms, _)) => Ok(ms)
  }
}
