/** What reads find after a SET or a POST, key by key and element by element. */
module DbiEdits {
  import opened Text
  import opened DbiJson
  import opened DbiLens

  // ---- Reading below a path ----------------------------------------------------------------

  lemma PathBelow(p: string, q: string)
    ensures Head(p + "/" + q) == Head(p) && HasTail(p + "/" + q)
    ensures Tail(p + "/" + q) == if HasTail(p) then Tail(p) + "/" + q else q
  {
    HeadAndTail(p);
    if HasTail(p) {
      assert p + "/" + q == Head(p) + "/" + (Tail(p) + "/" + q);
      CutSeparator(Head(p), '/', Tail(p) + "/" + q);
    } else {
      CutSeparator(p, '/', q);
    }
  }

  /** What is read below a path that resolves is read from what it resolves to. */
  lemma {:induction false} GetThrough(layer: Json, p: string, q: string)
    requires Resolve(layer, p).Some?
    ensures Get(layer, p + "/" + q) == Get(Resolve(layer, p).value, q)
    decreases |p|
  {
    hide Index, Head, HasTail, Tail;
    PathBelow(p, q);
    var next := Step(layer, Head(p)).value;
    GetOneLevel(layer, p + "/" + q);
    if HasTail(p) {
      GetThrough(next, Tail(p), q);
    }
  }

  /** Nothing is read below a path that is absent and crosses no scalar. */
  lemma {:induction false} GetBelowAbsent(layer: Json, p: string, q: string)
    requires Resolve(layer, p).None? && !Crosses(layer, p)
    ensures Get(layer, p + "/" + q) == Err
    decreases |p|
  {
    hide Index, Head, HasTail, Tail;
    PathBelow(p, q);
    var next := Step(layer, Head(p));
    if next.Some? {
      GetOneLevel(layer, p + "/" + q);
      GetBelowAbsent(next.value, Tail(p), q);
    }
  }

  /** After an edit the whole path resolves. */
  lemma {:induction false} ResolveAfterEdit(layer: Json, field: string, insert: Json, isSet: bool)
    requires Segmented(field) && !Crosses(layer, field)
    requires Edit(layer, field, insert, isSet).Done?
    ensures Resolve(Edit(layer, field, insert, isSet).layer, field)
      == Some(Combine(Before(layer, field), Payload(field, insert), isSet))
    decreases |field|
  {
    hide Atoi, Head, Combine, Unwrap, Index, Step;
    HeadAndTail(field);
    EditOneLevel(layer, field, insert, isSet);
    var next := Step(layer, Head(field));
    if HasTail(field) {
      if next.Some? {
        ResolveAfterEdit(next.value, Tail(field), Unwrap(insert), isSet);
      } else {
        NothingBelowNull(Tail(field));
        ResolveAfterEdit(Null, Tail(field), Unwrap(insert), isSet);
      }
    }
  }

  lemma NothingBelowNull(field: string)
    ensures Resolve(Null, field) == None && !Crosses(Null, field)
  {
  }

  // ---- The payload of a request -------------------------------------------------------------

  /** A value inside n maps that hold nothing but "value". */
  function Wrapped(n: nat, x: Json): Json {
    if n == 0 then x else Obj(map["value" := Wrapped(n - 1, x)])
  }

  predicate SoleValue(v: Json) {
    v.Obj? && "value" in v.fields && |v.fields| == 1
  }

  function Slashes(field: string): nat {
    if field == "" then 0 else (if field[0] == '/' then 1 else 0) + Slashes(field[1..])
  }

  lemma {:induction false} SlashesOf(a: string, b: string)
    requires '/' !in a
    ensures Slashes(a + b) == Slashes(b)
  {
    if a == "" {
      assert a + b == b;
    } else {
      assert (a + b)[1..] == a[1..] + b;
      SlashesOf(a[1..], b);
    }
  }

  lemma SlashesOfTail(field: string)
    ensures Slashes(field) == if HasTail(field) then 1 + Slashes(Tail(field)) else 0
  {
    hide Head, HasTail, Tail;
    HeadAndTail(field);
    if HasTail(field) {
      SlashesOf(Head(field), "/" + Tail(field));
      assert ("/" + Tail(field))[1..] == Tail(field);
    } else {
      SlashesOf(field, "");
      assert field + "" == field;
    }
  }

  lemma UnwrapOfWrapped(n: nat, x: Json)
    requires !SoleValue(x)
    ensures Unwrap(Wrapped(n, x)) == Wrapped(if n == 0 then 0 else n - 1, x)
  {
  }

  /** Exactly one wrapping per segment, and one more, is taken off what is inserted. */
  lemma {:induction false} PayloadOfWrapped(field: string, n: nat, x: Json)
    requires Segmented(field) && !SoleValue(x)
    ensures var taken := Slashes(field) + 2;
      Payload(field, Wrapped(n, x)) == Wrapped(if n <= taken then 0 else n - taken, x)
    decreases |field|
  {
    hide Head, Unwrap, Wrapped, HasTail, Tail, SoleValue;
    SlashesOfTail(field);
    HeadAndTail(field);
    UnwrapOfWrapped(n, x);
    var n' := if n == 0 then 0 else n - 1;
    if HasTail(field) {
      PayloadOfWrapped(Tail(field), n', x);
    } else {
      UnwrapOfWrapped(n', x);
    }
  }

  /** What is not a lone "value" is inserted as it was sent. */
  lemma PlainPayload(field: string, x: Json)
    requires Segmented(field) && !SoleValue(x)
    ensures Payload(field, x) == x
  {
    hide Payload, Segmented, SoleValue;
    PayloadOfWrapped(field, 0, x);
  }

  // ---- Reading after a SET or a POST -----------------------------------------------------------

  lemma EditReads(layer: Json, p: string, q: string, insert: Json, isSet: bool)
    requires Segmented(p) && !Crosses(layer, p) && Edit(layer, p, insert, isSet).Done?
    ensures var stored := Combine(Before(layer, p), Payload(p, insert), isSet);
      var after := Edit(layer, p, insert, isSet).layer;
      Get(after, p) == Ok(stored) && Get(after, p + "/" + q) == Get(stored, q)
  {
    hide Segmented, Crosses, Edit, Combine, Before, Payload, Get, Resolve;
    EditThenGet(layer, p, insert, isSet);
    ResolveAfterEdit(layer, p, insert, isSet);
    GetThrough(Edit(layer, p, insert, isSet).layer, p, q);
  }

  /** GET after SET returns the payload, and below the path reads the payload. */
  lemma SetIsRead(layer: Json, p: string, q: string, insert: Json)
    requires Segmented(p) && !Crosses(layer, p) && Edit(layer, p, insert, true).Done?
    ensures var after := Edit(layer, p, insert, true).layer;
      Get(after, p) == Ok(Payload(p, insert))
      && Get(after, p + "/" + q) == Get(Payload(p, insert), q)
  {
    hide Segmented, Crosses, Edit, Before, Payload, Get, Resolve;
    EditReads(layer, p, q, insert, true);
  }

  /** A map posted where a map or nothing stood: below the path every key of the payload
      reads the payload, and every other key what it read before. Only an explicit null,
      which answers any single segment with null, stops answering. */
  lemma PostedMapIsRead(layer: Json, p: string, q: string, insert: Json)
    requires Segmented(p) && !Crosses(layer, p) && Edit(layer, p, insert, false).Done?
    requires Payload(p, insert).Obj? && (Before(layer, p).Obj? || Before(layer, p).Null?)
    ensures var after := Edit(layer, p, insert, false).layer;
      Get(after, p).Ok? && Get(after, p).value.Obj?
      && Get(after, p + "/" + q)
         == if Head(q) in Payload(p, insert).fields then Get(Payload(p, insert), q)
            else if Resolve(layer, p) == Some(Null) then Err
            else Get(layer, p + "/" + q)
  {
    hide Segmented, Crosses, Edit, Payload, Resolve, Head;
    EditReads(layer, p, q, insert, false);
    if Resolve(layer, p).Some? {
      GetThrough(layer, p, q);
    } else {
      GetBelowAbsent(layer, p, q);
    }
  }

  /** The key itself: a map read at one slash-free segment gives the member. */
  lemma KeyOfMap(m: map<string, Json>, k: string)
    requires '/' !in k
    ensures Head(k) == k && Get(Obj(m), k) == if k in m then Ok(m[k]) else Err
  {
    NoCut(k);
  }

  /** After a map is posted where a map stood, GET returns the union of both with the
      payload's value wherever a key is in both. */
  lemma PostedMapIsWhole(layer: Json, p: string, insert: Json)
    requires Segmented(p) && !Crosses(layer, p) && Edit(layer, p, insert, false).Done?
    requires Payload(p, insert).Obj? && (Before(layer, p).Obj? || Before(layer, p).Null?)
    ensures var r := Get(Edit(layer, p, insert, false).layer, p);
      var sent := Payload(p, insert).fields;
      var stood := if Before(layer, p).Obj? then Before(layer, p).fields else map[];
      r.Ok? && r.value.Obj? && r.value.fields.Keys == stood.Keys + sent.Keys
      && forall k | k in r.value.fields :: r.value.fields[k] == if k in sent then sent[k] else stood[k]
  {
    hide Segmented, Crosses, Edit, Payload, Resolve, Get, Before;
    EditThenGet(layer, p, insert, false);
  }

  /** An array posted onto an array is appended to it. */
  lemma PostedArrayIsAppended(layer: Json, p: string, insert: Json)
    requires Segmented(p) && !Crosses(layer, p) && Edit(layer, p, insert, false).Done?
    requires Payload(p, insert).Arr? && Before(layer, p).Arr?
    ensures var r := Get(Edit(layer, p, insert, false).layer, p);
      var stood, sent := Before(layer, p).items, Payload(p, insert).items;
      r.Ok? && r.value.Arr? && |r.value.items| == |stood| + |sent|
      && (forall i | 0 <= i < |stood| :: r.value.items[i] == stood[i])
      && (forall i | 0 <= i < |sent| :: r.value.items[|stood| + i] == sent[i])
  {
    hide Segmented, Crosses, Edit, Payload, Resolve, Get, Before;
    EditThenGet(layer, p, insert, false);
  }

  /** Any other pair of kinds: POST replaces what stood there, as SET does. */
  lemma PostedOtherwiseReplaces(layer: Json, p: string, q: string, insert: Json)
    requires Segmented(p) && !Crosses(layer, p) && Edit(layer, p, insert, false).Done?
    requires Payload(p, insert).Obj? ==> !Before(layer, p).Obj?
    requires Payload(p, insert).Arr? ==> !Before(layer, p).Arr?
    ensures var after := Edit(layer, p, insert, false).layer;
      Get(after, p) == Ok(Payload(p, insert))
      && Get(after, p + "/" + q) == Get(Payload(p, insert), q)
  {
    hide Segmented, Crosses, Edit, Payload, Resolve, Get, Before;
    EditReads(layer, p, q, insert, false);
    if Payload(p, insert).Obj? {
      assert map[] + Payload(p, insert).fields == Payload(p, insert).fields;
    }
  }

  /** An edit that meets a scalar on its way replaces that scalar. */
  lemma {:induction false} LandsOnScalar(layer: Json, field: string, insert: Json)
    requires Segmented(field) && Crosses(layer, field)
    ensures IsScalar(Land(layer, field, insert).was) && Land(layer, field, insert).rest != ""
    decreases |field|
  {
    hide Atoi, Head, Index, Step, Unwrap;
    HeadAndTail(field);
    if !IsScalar(layer) {
      LandsOnScalar(Step(layer, Head(field)).value, Tail(field), Unwrap(insert));
    }
  }

  lemma EditPastScalar(layer: Json, field: string, insert: Json, isSet: bool)
    requires Segmented(field) && Crosses(layer, field) && !IsScalar(layer)
    requires Edit(layer, field, insert, isSet).Done?
    ensures var l := Land(layer, field, insert);
      Get(Edit(layer, field, insert, isSet).layer, field) == Get(l.insert, l.rest)
  {
    hide Segmented, Crosses, Edit, Get, Land;
    GetAfterEdit(layer, field, insert, isSet);
    LandsOnScalar(layer, field, insert);
  }

  // ---- Which edits succeed ---------------------------------------------------------------------

  /** Some segment should index an existing array and is no natural number. */
  predicate Misindexed(layer: Json, field: string)
    decreases |field|
  {
    field != "" && (
      (layer.Arr? && !(Atoi(Head(field)).Int? && Atoi(Head(field)).value >= 0))
      || (var next := Step(layer, Head(field)); next.Some? && Misindexed(next.value, Tail(field))))
  }

  /** Some segment below what exists is a numeral past the largest integer. */
  predicate Overlong(layer: Json, field: string)
    decreases |field|
  {
    field != "" && !IsScalar(layer) && (
      (layer.Null? && Atoi(Head(field)) == Range(MAX_INT))
      || (var next := Step(layer, Head(field)); Overlong(if next.Some? then next.value else Null, Tail(field))))
  }

  lemma RangeIsPastAnEnd(s: string)
    ensures Atoi(s).Range? ==> Atoi(s).nearest == MAX_INT || Atoi(s).nearest == -MAX_INT - 1
  {
  }

  /** An edit is refused exactly when it meets an array it cannot index, and otherwise
      succeeds unless it has to make a layer for a numeral past the largest integer. */
  lemma {:induction false} EditSucceedsExactly(layer: Json, field: string, insert: Json, isSet: bool)
    ensures Edit(layer, field, insert, isSet).Failed? <==> Misindexed(layer, field)
    ensures Edit(layer, field, insert, isSet).Panic? <==> Overlong(layer, field) && !Misindexed(layer, field)
    decreases |field|
  {
    hide Atoi, Head, Combine, Unwrap, Grow, Index;
    RangeIsPastAnEnd(Head(field));
    if field == "" {
      EmptyIsNoNumeral();
    } else if !IsScalar(layer) {
      var next := Step(layer, Head(field));
      var child := if next.Some? then next.value else Null;
      EditSucceedsExactly(child, Tail(field), Unwrap(insert), isSet);
      NothingBelowNull(Tail(field));
      NullIsNoArray(Tail(field));
      if layer.Arr? && Atoi(Head(field)).Int? && Atoi(Head(field)).value >= 0 {
        StepAfterPut(layer, Head(field), Null, Atoi(Head(field)).value);
      }
    }
  }

  lemma NullIsNoArray(field: string)
    ensures !Misindexed(Null, field)
  {
  }

  lemma EmptyIsNoNumeral()
    ensures Atoi(Head("")) == Syntax
  {
    NoCut("");
  }

  // ---- Numerals ----------------------------------------------------------------------------------

  function Digit(d: nat): char
    requires d < 10
  {
    '0' + d as char
  }

  /** A natural number written in decimal. */
  function Numeral(n: nat): string {
    if n < 10 then [Digit(n)] else Numeral(n / 10) + [Digit(n % 10)]
  }

  lemma {:induction false} NumeralIsDecimal(n: nat)
    ensures Numeral(n) != "" && AllDigits(Numeral(n)) && Decimal(Numeral(n)) == n
    decreases n
  {
    var s := Numeral(n);
    if n < 10 {
      assert s[..|s| - 1] == "";
    } else {
      NumeralIsDecimal(n / 10);
      assert s[..|s| - 1] == Numeral(n / 10);
    }
  }

  /** A written number is read as itself, with or without a sign, as far as integers go. */
  lemma NumeralIsRead(n: nat)
    ensures Atoi(Numeral(n)) == Atoi("+" + Numeral(n)) == if n <= MAX_INT then Int(n) else Range(MAX_INT)
    ensures Atoi("-" + Numeral(n)) == if n <= MAX_INT + 1 then Int(0 - n) else Range(-MAX_INT - 1)
  {
    hide Numeral, Decimal;
    var s := Numeral(n);
    NumeralIsDecimal(n);
    assert '0' <= s[0] <= '9';
    assert ("+" + s)[1..] == s && ("-" + s)[1..] == s;
  }
}
