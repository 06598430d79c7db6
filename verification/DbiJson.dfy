/** Path-addressed reading, editing and deleting of JSON documents, as the document
    manager's three recursive functions do it. */
module DbiJson {
  import opened Text

  datatype Json =
    | Null
    | Bool(flag: bool)
    | Num(value: real)
    | Str(text: string)
    | Arr(items: seq<Json>)
    | Obj(fields: map<string, Json>)

  predicate IsScalar(v: Json) {
    v.Bool? || v.Num? || v.Str?
  }

  // ---- Path segments ---------------------------------------------------------------

  function Head(field: string): string {
    match Cut(field, '/')
    case None => field
    case Some((frag, _)) => frag
  }

  /** What follows the first slash; empty also when there is no slash. */
  function Tail(field: string): (rest: string)
    ensures field != "" ==> |rest| < |field|
  {
    CutIsShorter(field, '/');
    match Cut(field, '/')
    case None => ""
    case Some((_, rest)) => rest
  }

  predicate HasTail(field: string) {
    Cut(field, '/').Some?
  }

  lemma {:induction false} CutIsShorter(s: string, c: char)
    ensures match Cut(s, c) case None => true case Some((a, b)) => s == a + [c] + b
  {
    if s != "" && s[0] != c {
      CutIsShorter(s[1..], c);
      assert s == [s[0]] + s[1..];
    }
  }

  const MAX_INT: int := 0x7fff_ffff_ffff_ffff

  /** `strconv.Atoi` on a 64-bit machine: a value, a syntax error, or a range error
      that still returns the nearest integer. */
  datatype Parsed = Int(value: int) | Syntax | Range(nearest: int)

  predicate AllDigits(s: string) {
    forall i | 0 <= i < |s| :: '0' <= s[i] <= '9'
  }

  function Decimal(s: string): nat
    requires AllDigits(s)
  {
    if s == "" then 0 else Decimal(s[..|s| - 1]) * 10 + (s[|s| - 1] as int - '0' as int)
  }

  function Atoi(s: string): Parsed {
    var negative := s != "" && s[0] == '-';
    var digits := if s != "" && (s[0] == '-' || s[0] == '+') then s[1..] else s;
    if digits == "" || !AllDigits(digits) then Syntax
    else
      var n: int := if negative then 0 - Decimal(digits) else Decimal(digits);
      if n > MAX_INT then Range(MAX_INT)
      else if n < -MAX_INT - 1 then Range(-MAX_INT - 1)
      else Int(n)
  }

  /** The position a segment names in an array of the given length, if any. */
  function Index(frag: string, length: nat): (i: Option<nat>)
    ensures i.Some? ==> i.value < length
  {
    match Atoi(frag)
    case Int(i) => if 0 <= i < length then Some(i) else None
    case _ => None
  }

  // ---- Reading -----------------------------------------------------------------------

  /** getFieldRecursive. The last segment of a path through a scalar is ignored. */
  function Get(layer: Json, field: string): Result<Json>
    decreases |field|, 1
  {
    if layer.Obj? then
      if Head(field) !in layer.fields then Err else GetRest(layer.fields[Head(field)], field)
    else if layer.Arr? then
      var i := Index(Head(field), |layer.items|);
      if i.None? then Err else GetRest(layer.items[i.value], field)
    else if HasTail(field) then Err
    else Ok(layer)
  }

  function GetRest(next: Json, field: string): Result<Json>
    decreases |field|, 0
  {
    if HasTail(field) then Get(next, Tail(field)) else Ok(next)
  }

  // ---- Editing -----------------------------------------------------------------------

  datatype Edited = Done(layer: Json) | Failed(layer: Json) | Panic

  /** Removes one {"value": v} wrapping. */
  function Unwrap(v: Json): Json {
    if v.Obj? && v.fields.Keys == {"value"} then v.fields["value"] else v
  }

  /** What an edit leaves at the end of its path. */
  function Combine(was: Json, insert: Json, isSet: bool): Json {
    if isSet then insert
    else if insert.Obj? && (was.Obj? || was.Null?) then
      Obj((if was.Obj? then was.fields else map[]) + insert.fields)
    else if insert.Arr? && was.Arr? then Arr(was.items + insert.items)
    else insert
  }

  function Nulls(n: nat): (r: seq<Json>)
    ensures |r| == n && forall i | 0 <= i < n :: r[i] == Null
  {
    seq(n, _ => Null)
  }

  /** An array grown with nulls so that the index exists. */
  function Grow(items: seq<Json>, i: nat): (r: seq<Json>)
    ensures |r| == if i < |items| then |items| else i + 1
    ensures items <= r && forall j | |items| <= j < |r| :: r[j] == Null
  {
    if i < |items| then items else items + Nulls(i + 1 - |items|)
  }

  function Child(m: map<string, Json>, key: string): Json {
    if key in m then m[key] else Null
  }

  /** editFieldRecursive. A null layer becomes a map, except that a segment beyond the
      integer range asks for an array that cannot be made. */
  function Edit(layer: Json, field: string, insert: Json, isSet: bool): Edited
    decreases |field|
  {
    var frag := Head(field);
    var v := Unwrap(insert);
    if layer.Null? && Atoi(frag).Range? && Atoi(frag).nearest > 0 then Panic
    else if field == "" || IsScalar(layer) then Done(Combine(layer, v, isSet))
    else if layer.Arr? then
      var i := Atoi(frag);
      if !i.Int? || i.value < 0 then Failed(layer)
      else
        var items := Grow(layer.items, i.value);
        match Edit(items[i.value], Tail(field), v, isSet)
        case Done(x) => Done(Arr(items[i.value := x]))
        case Failed(x) => Failed(Arr(items[i.value := x]))
        case Panic => Panic
    else
      var m := if layer.Obj? then layer.fields else map[];
      match Edit(Child(m, frag), Tail(field), v, isSet)
      case Done(x) => Done(Obj(m[frag := x]))
      case Failed(x) => Failed(Obj(m[frag := x]))
      case Panic => Panic
  }

  // ---- Deleting ------------------------------------------------------------------------

  function RemoveAt(items: seq<Json>, i: nat): seq<Json>
    requires i < |items|
  {
    items[..i] + items[i + 1..]
  }

  /** deleteFieldRecursive. */
  function Delete(layer: Json, field: string): Edited
    decreases |field|
  {
    var frag := Head(field);
    if layer.Obj? then
      if frag !in layer.fields then Failed(layer)
      else if !HasTail(field) then Done(Obj(layer.fields - {frag}))
      else
        CutIsShorter(field, '/');
        match Delete(layer.fields[frag], Tail(field))
        case Done(x) => Done(Obj(layer.fields[frag := x]))
        case Failed(x) => Failed(Obj(layer.fields[frag := x]))
        case Panic => Panic
    else if layer.Arr? then
      var i := Index(frag, |layer.items|);
      if i.None? then Failed(layer)
      else if !HasTail(field) then Done(Arr(RemoveAt(layer.items, i.value)))
      else
        CutIsShorter(field, '/');
        match Delete(layer.items[i.value], Tail(field))
        case Done(x) => Done(Arr(layer.items[i.value := x]))
        case Failed(x) => Failed(Arr(layer.items[i.value := x]))
        case Panic => Panic
    else Failed(layer)
  }

  // ---- Failures are atomic ----------------------------------------------------------------

  lemma {:induction false} NullNeverFails(field: string, insert: Json, isSet: bool)
    ensures !Edit(Null, field, insert, isSet).Failed?
    decreases |field|
  {
    hide Atoi, Combine;
    if field != "" {
      NullNeverFails(Tail(field), Unwrap(insert), isSet);
    }
  }

  /** A failing edit leaves the document as it was. */
  lemma {:induction false} FailedEditIsAtomic(layer: Json, field: string, insert: Json, isSet: bool)
    ensures Edit(layer, field, insert, isSet).Failed? ==> Edit(layer, field, insert, isSet).layer == layer
    decreases |field|
  {
    hide Atoi, Combine, Head, Grow;
    if field != "" && layer.Obj? {
      var sub := Child(layer.fields, Head(field));
      FailedEditIsAtomic(sub, Tail(field), Unwrap(insert), isSet);
      NullNeverFails(Tail(field), Unwrap(insert), isSet);
    } else if field != "" && layer.Arr? && Atoi(Head(field)).Int? && Atoi(Head(field)).value >= 0 {
      var i := Atoi(Head(field)).value;
      FailedEditIsAtomic(Grow(layer.items, i)[i], Tail(field), Unwrap(insert), isSet);
      NullNeverFails(Tail(field), Unwrap(insert), isSet);
      if i < |layer.items| {
        GrowNothing(layer.items, i);
      }
    } else if layer.Null? {
      NullNeverFails(field, insert, isSet);
    }
  }

  lemma GrowNothing(items: seq<Json>, i: nat)
    requires i < |items|
    ensures Grow(items, i) == items
  {
  }

  /** A failing delete leaves the document as it was. */
  lemma {:induction false} FailedDeleteIsAtomic(layer: Json, field: string)
    ensures Delete(layer, field).Failed? ==> Delete(layer, field).layer == layer
    ensures !Delete(layer, field).Panic?
    decreases |field|
  {
    hide Index, Head;
    CutIsShorter(field, '/');
    if HasTail(field) {
      if layer.Obj? && Head(field) in layer.fields {
        FailedDeleteIsAtomic(layer.fields[Head(field)], Tail(field));
      } else if layer.Arr? && Index(Head(field), |layer.items|).Some? {
        FailedDeleteIsAtomic(layer.items[Index(Head(field), |layer.items|).value], Tail(field));
      }
    }
  }
}
