/** The laws that reading, editing and deleting obey together. */
module DbiLens {
  import opened Text
  import opened DbiJson

  // ---- Strict resolution ----------------------------------------------------------------

  /** The child that one segment names. */
  function Step(layer: Json, frag: string): Option<Json> {
    if layer.Obj? then if frag in layer.fields then Some(layer.fields[frag]) else None
    else if layer.Arr? then
      var i := Index(frag, |layer.items|);
      if i.Some? then Some(layer.items[i.value]) else None
    else None
  }

  /** The value reached by following every segment to an existing child. */
  function Resolve(layer: Json, field: string): Option<Json>
    decreases |field|
  {
    var next := Step(layer, Head(field));
    if next.None? || !HasTail(field) then next else Resolve(next.value, Tail(field))
  }

  /** A path that resolves segment by segment is read as what it resolves to. */
  lemma {:induction false} ResolvedIsRead(layer: Json, field: string)
    requires Resolve(layer, field).Some?
    ensures Get(layer, field) == Ok(Resolve(layer, field).value)
    decreases |field|
  {
    hide Index, Head;
    if HasTail(field) {
      ResolvedIsRead(Step(layer, Head(field)).value, Tail(field));
    }
  }

  /** No segment of the path is empty. */
  predicate Segmented(field: string)
    decreases |field|
  {
    field != "" && Head(field) != "" && (HasTail(field) ==> Segmented(Tail(field)))
  }

  lemma HeadAndTail(field: string)
    ensures field == Head(field) + (if HasTail(field) then "/" + Tail(field) else "")
    ensures '/' !in Head(field)
    ensures !HasTail(field) ==> Tail(field) == "" && Head(field) == field
  {
    CutIsShorter(field, '/');
    NoSlashBeforeCut(field);
  }

  lemma {:induction false} NoSlashBeforeCut(s: string)
    ensures match Cut(s, '/') case None => '/' !in s case Some((a, _)) => '/' !in a
  {
    if s != "" && s[0] != '/' {
      NoSlashBeforeCut(s[1..]);
      assert s == [s[0]] + s[1..];
    }
  }

  // ---- Reading after an edit -------------------------------------------------------------

  /** Where an edit stops: the value it replaces or extends, what it inserts there, and
      the segments it leaves unused because it met a scalar. */
  datatype Landing = Landing(was: Json, insert: Json, rest: string)

  function Land(layer: Json, field: string, insert: Json): Landing
    decreases |field|
  {
    if field == "" || IsScalar(layer) then Landing(layer, Unwrap(insert), field)
    else
      var next := Step(layer, Head(field));
      Land(if next.Some? then next.value else Null, Tail(field), Unwrap(insert))
  }

  /** The inserted value with one {"value": ...} wrapping removed per segment, and one
      more at the end of the path. */
  function Payload(field: string, insert: Json): Json
    decreases |field|
  {
    if field == "" then Unwrap(insert) else Payload(Tail(field), Unwrap(insert))
  }

  /** Some proper prefix of the path ends at a scalar. */
  predicate Crosses(layer: Json, field: string)
    decreases |field|
  {
    field != "" && (
      IsScalar(layer)
      || (var next := Step(layer, Head(field)); next.Some? && Crosses(next.value, Tail(field))))
  }

  /** What stands at the path before an edit; absent reads as null. */
  function Before(layer: Json, field: string): Json {
    var x := Resolve(layer, field);
    if x.Some? then x.value else Null
  }

  lemma StepAfterPut(layer: Json, frag: string, x: Json, i: nat)
    ensures layer.Arr? && Atoi(frag) == Int(i) ==>
      Step(Arr(Grow(layer.items, i)[i := x]), frag) == Some(x)
      && Grow(layer.items, i)[i] == (var n := Step(layer, frag); if n.Some? then n.value else Null)
    ensures layer.Obj? ==> Step(Obj(layer.fields[frag := x]), frag) == Some(x)
    ensures Step(Obj(map[frag := x]), frag) == Some(x)
  {
    hide Atoi;
  }

  /** One level of a successful edit: exactly one child changes. */
  lemma EditOneLevel(layer: Json, field: string, insert: Json, isSet: bool)
    requires field != "" && !IsScalar(layer)
    requires Edit(layer, field, insert, isSet).Done?
    ensures var next := Step(layer, Head(field));
      var sub := Edit(if next.Some? then next.value else Null, Tail(field), Unwrap(insert), isSet);
      var after := Edit(layer, field, insert, isSet).layer;
      sub.Done? && Step(after, Head(field)) == Some(sub.layer) && !IsScalar(after) && !after.Null?
  {
    hide Atoi, Head, Combine, Grow, Unwrap;
    var frag := Head(field);
    if layer.Arr? {
      var i := Atoi(frag).value;
      StepAfterPut(layer, frag, Null, i);
      StepAfterPut(layer, frag, Edit(Grow(layer.items, i)[i], Tail(field), Unwrap(insert), isSet).layer, i);
    }
  }

  /** What GET returns after a successful edit, on every path without empty segments: the
      combined value, read on through the segments the edit did not use. */
  lemma {:induction false} GetAfterEdit(layer: Json, field: string, insert: Json, isSet: bool)
    requires Segmented(field) && !IsScalar(layer)
    requires Edit(layer, field, insert, isSet).Done?
    ensures var after := Edit(layer, field, insert, isSet).layer;
      var l := Land(layer, field, insert);
      var stored := Combine(l.was, l.insert, isSet);
      Get(after, field) == if l.rest == "" then Ok(stored) else Get(stored, l.rest)
    decreases |field|
  {
    hide Atoi, Head, Combine, Unwrap, Grow, Index;
    HeadAndTail(field);
    EditOneLevel(layer, field, insert, isSet);
    var next := Step(layer, Head(field));
    var child := if next.Some? then next.value else Null;
    var after := Edit(layer, field, insert, isSet).layer;
    GetOneLevel(after, field);
    if HasTail(field) && !IsScalar(child) {
      GetAfterEdit(child, Tail(field), Unwrap(insert), isSet);
    }
  }

  lemma GetOneLevel(layer: Json, field: string)
    requires Step(layer, Head(field)).Some?
    ensures Get(layer, field) == GetRest(Step(layer, Head(field)).value, field)
  {
  }

  lemma {:induction false} LandWithoutScalar(layer: Json, field: string, insert: Json)
    requires Segmented(field) && !Crosses(layer, field)
    ensures Land(layer, field, insert) == Landing(Before(layer, field), Payload(field, insert), "")
    decreases |field|
  {
    hide Atoi, Head, Combine, Unwrap, Index;
    HeadAndTail(field);
    var next := Step(layer, Head(field));
    if HasTail(field) {
      if next.Some? {
        LandWithoutScalar(next.value, Tail(field), Unwrap(insert));
      } else {
        LandOnNull(Tail(field), Unwrap(insert));
      }
    }
  }

  lemma {:induction false} LandOnNull(field: string, insert: Json)
    ensures Land(Null, field, insert) == Landing(Null, Payload(field, insert), "")
    decreases |field|
  {
    hide Head, Unwrap;
    if field != "" {
      LandOnNull(Tail(field), Unwrap(insert));
    }
  }

  /** GET after SET returns the inserted value, and GET after POST the merged one, on
      every path that crosses no scalar, grown arrays and new maps included. */
  lemma EditThenGet(layer: Json, field: string, insert: Json, isSet: bool)
    requires Segmented(field) && !Crosses(layer, field)
    requires Edit(layer, field, insert, isSet).Done?
    ensures Get(Edit(layer, field, insert, isSet).layer, field)
      == Ok(Combine(Before(layer, field), Payload(field, insert), isSet))
  {
    hide Atoi, Head, Combine, Unwrap, Index, Edit, Get;
    GetAfterEdit(layer, field, insert, isSet);
    LandWithoutScalar(layer, field, insert);
  }

  /** Setting a scalar: GET returns it exactly when the path goes at most one segment past
      an existing scalar. */
  lemma SetScalarThenGet(layer: Json, field: string, v: Json)
    requires Segmented(field) && !IsScalar(layer) && (IsScalar(v) || v.Null?)
    requires Edit(layer, field, v, true).Done?
    ensures Get(Edit(layer, field, v, true).layer, field) == Ok(v) <==> !HasTail(Land(layer, field, v).rest)
  {
    hide Atoi, Head, Index, Edit;
    GetAfterEdit(layer, field, v, true);
    ScalarLandsWhole(layer, field, v);
  }

  /** A scalar set two segments past another one is stored but cannot be read back. */
  lemma ScalarPastScalarIsUnreadable()
    ensures var layer := Obj(map["a" := Num(1.0)]);
      Edit(layer, "a/b/c", Str("x"), true) == Done(Obj(map["a" := Str("x")]))
      && Get(Obj(map["a" := Str("x")]), "a/b/c") == Err
  {
    hide Atoi;
    var layer := Obj(map["a" := Num(1.0)]);
    CutSeparator("a", '/', "b/c");
    CutSeparator("b", '/', "c");
    assert "a" + "/" + "b/c" == "a/b/c" && "b" + "/" + "c" == "b/c";
    assert Edit(Num(1.0), "b/c", Str("x"), true) == Done(Str("x"));
    assert layer.fields["a" := Str("x")] == map["a" := Str("x")];
  }

  lemma {:induction false} ScalarLandsWhole(layer: Json, field: string, v: Json)
    requires IsScalar(v) || v.Null?
    ensures Land(layer, field, v).insert == v
    decreases |field|
  {
    hide Atoi, Head, Index;
    if field != "" && !IsScalar(layer) {
      var next := Step(layer, Head(field));
      ScalarLandsWhole(if next.Some? then next.value else Null, Tail(field), v);
    }
  }

  // ---- Other paths are kept ----------------------------------------------------------------

  /** At some layer both paths reach, their segments name different children. */
  predicate Diverges(layer: Json, p: string, q: string)
    decreases |p|
  {
    if layer.Arr? then
      Atoi(Head(p)).Int? && Atoi(Head(q)).Int?
      && (Atoi(Head(p)).value != Atoi(Head(q)).value || DivergesBelow(layer, p, q))
    else
      layer.Obj? && (Head(p) != Head(q) || DivergesBelow(layer, p, q))
  }

  predicate DivergesBelow(layer: Json, p: string, q: string)
    decreases |p|, 0
  {
    HasTail(p) && HasTail(q) && p != ""
    && (var next := Step(layer, Head(q)); next.Some? && Diverges(next.value, Tail(p), Tail(q)))
  }

  /** The two segments name different children of the layer. */
  predicate Apart(layer: Json, f: string, g: string) {
    if layer.Arr? then Atoi(f).Int? && Atoi(g).Int? && Atoi(f).value != Atoi(g).value
    else f != g
  }

  lemma EditKeepsSiblings(layer: Json, field: string, insert: Json, isSet: bool, g: string)
    requires field != "" && !IsScalar(layer)
    requires Edit(layer, field, insert, isSet).Done?
    requires Step(layer, g).Some? && Apart(layer, Head(field), g)
    ensures Step(Edit(layer, field, insert, isSet).layer, g) == Step(layer, g)
  {
    hide Atoi, Head, Combine, Unwrap;
  }

  lemma SameChild(layer: Json, f: string, g: string)
    requires layer.Arr? && Atoi(f) == Atoi(g)
    ensures Step(layer, f) == Step(layer, g)
  {
    hide Atoi;
  }

  lemma EditedLayerKeepsKind(layer: Json, field: string, insert: Json, isSet: bool)
    requires field != "" && !IsScalar(layer) && !layer.Null?
    requires Edit(layer, field, insert, isSet).Done?
    ensures Edit(layer, field, insert, isSet).layer.Arr? == layer.Arr?
  {
    hide Atoi, Head, Combine, Unwrap, Grow;
  }

  /** Every path that resolved before an edit and diverges from the edited one resolves
      to the same value afterwards, for SET and POST alike. */
  lemma {:induction false} EditKeepsDiverging(layer: Json, p: string, q: string, insert: Json, isSet: bool)
    requires Segmented(p) && Diverges(layer, p, q) && Resolve(layer, q).Some?
    requires Edit(layer, p, insert, isSet).Done?
    ensures Resolve(Edit(layer, p, insert, isSet).layer, q) == Resolve(layer, q)
    decreases |p|
  {
    hide Atoi, Head, Combine, Unwrap, Grow, Index, Edit, Step;
    var after := Edit(layer, p, insert, isSet).layer;
    if Apart(layer, Head(p), Head(q)) {
      EditKeepsSiblings(layer, p, insert, isSet, Head(q));
    } else {
      EditOneLevel(layer, p, insert, isSet);
      if layer.Arr? {
        EditedLayerKeepsKind(layer, p, insert, isSet);
        SameChild(layer, Head(p), Head(q));
        SameChild(after, Head(p), Head(q));
      }
      EditKeepsDiverging(Step(layer, Head(q)).value, Tail(p), Tail(q), Unwrap(insert), isSet);
    }
  }

  // ---- Paths that differ as text ---------------------------------------------------------------

  /** The first path is the second one or leads to it. */
  predicate Leads(p: string, q: string) {
    p == q || p + "/" <= q
  }

  /** No segment writes an array index in a second way, such as 01 or +1. */
  predicate Plain(field: string)
    decreases |field|
  {
    (Atoi(Head(field)).Int? ==> PlainNumeral(Head(field)))
    && (HasTail(field) ==> Plain(Tail(field)))
  }

  predicate PlainNumeral(s: string) {
    s == "0" || (s != "" && '1' <= s[0] <= '9')
  }

  lemma {:induction false} LeadingDigitCounts(s: string)
    requires AllDigits(s) && s != "" && s[0] != '0'
    ensures Decimal(s) > 0
  {
    if |s| > 1 {
      LeadingDigitCounts(s[..|s| - 1]);
    }
  }

  lemma {:induction false} DecimalInjective(a: string, b: string)
    requires AllDigits(a) && AllDigits(b)
    requires a == "" || a[0] != '0'
    requires b == "" || b[0] != '0'
    requires Decimal(a) == Decimal(b)
    ensures a == b
    decreases |a|
  {
    if a == "" {
      if b != "" {
        LeadingDigitCounts(b);
      }
    } else if b == "" {
      LeadingDigitCounts(a);
    } else {
      var a0, b0 := a[..|a| - 1], b[..|b| - 1];
      assert a == a0 + [a[|a| - 1]] && b == b0 + [b[|b| - 1]];
      DecimalInjective(a0, b0);
    }
  }

  lemma PlainNumeralsDiffer(f: string, g: string)
    requires Atoi(f).Int? && Atoi(g).Int?
    requires PlainNumeral(f) && PlainNumeral(g) && f != g
    ensures Atoi(f).value != Atoi(g).value
  {
    assert Decimal("0") == 0 by { assert "0"[..0] == ""; }
    if f == "0" {
      LeadingDigitCounts(g);
    } else if g == "0" {
      LeadingDigitCounts(f);
    } else if Decimal(f) == Decimal(g) {
      DecimalInjective(f, g);
    }
  }

  lemma LeadsDown(p: string, q: string)
    requires Head(p) == Head(q)
    requires !Leads(p, q) && !Leads(q, p)
    ensures HasTail(p) && HasTail(q)
    ensures !Leads(Tail(p), Tail(q)) && !Leads(Tail(q), Tail(p))
  {
    hide Head, HasTail, Tail;
    HeadAndTail(p);
    HeadAndTail(q);
    LeadsUp(p, q);
    LeadsUp(q, p);
  }

  lemma LeadsUp(p: string, q: string)
    requires Head(p) == Head(q)
    ensures !HasTail(p) ==> Leads(p, q)
    ensures HasTail(p) && HasTail(q) && Leads(Tail(p), Tail(q)) ==> Leads(p, q)
  {
    hide Head, HasTail, Tail;
    HeadAndTail(p);
    HeadAndTail(q);
    if HasTail(p) && HasTail(q) && Leads(Tail(p), Tail(q)) && Tail(p) != Tail(q) {
      assert p + "/" == Head(p) + "/" + (Tail(p) + "/");
      var rest := Tail(q)[|Tail(p)| + 1..];
      assert Tail(q) == Tail(p) + "/" + rest;
      assert q == p + "/" + rest;
    }
  }

  /** Plain paths of which neither leads to the other diverge wherever the second one
      resolves and the first one can be edited. */
  lemma {:induction false} DistinctPathsDiverge(layer: Json, p: string, q: string, insert: Json, isSet: bool)
    requires Segmented(p) && Plain(p) && Plain(q)
    requires !Leads(p, q) && !Leads(q, p)
    requires Resolve(layer, q).Some? && Edit(layer, p, insert, isSet).Done?
    ensures Diverges(layer, p, q)
    decreases |p|
  {
    hide Atoi, Head, Combine, Unwrap, Grow, Leads, Index;
    if Head(p) == Head(q) {
      LeadsDown(p, q);
      EditOneLevel(layer, p, insert, isSet);
      DistinctPathsDiverge(Step(layer, Head(q)).value, Tail(p), Tail(q), Unwrap(insert), isSet);
    } else if layer.Arr? {
      IndexIsNumeral(Head(q), |layer.items|);
      PlainNumeralsDiffer(Head(p), Head(q));
    }
  }

  lemma IndexIsNumeral(frag: string, n: nat)
    ensures Index(frag, n).Some? ==> Atoi(frag) == Int(Index(frag, n).value)
  {
    hide Atoi;
  }

  /** The frame law: an edit changes nothing that is read through any other resolving
      path which is neither a prefix nor an extension of the edited one. */
  lemma OtherPathsKept(layer: Json, p: string, q: string, insert: Json, isSet: bool)
    requires Segmented(p) && Plain(p) && Plain(q)
    requires !Leads(p, q) && !Leads(q, p)
    requires Resolve(layer, q).Some? && Edit(layer, p, insert, isSet).Done?
    ensures Get(Edit(layer, p, insert, isSet).layer, q) == Get(layer, q) == Ok(Resolve(layer, q).value)
  {
    hide Edit, Get, Resolve, Plain, Segmented, Leads, Diverges;
    DistinctPathsDiverge(layer, p, q, insert, isSet);
    EditKeepsDiverging(layer, p, q, insert, isSet);
    ResolvedIsRead(layer, q);
    ResolvedIsRead(Edit(layer, p, insert, isSet).layer, q);
  }

  // ---- Which paths are not kept -----------------------------------------------------------------

  /** Setting a scalar that is not already where the edit lands changes the document. */
  lemma {:induction false} SetChanges(layer: Json, p: string, v: Json)
    requires IsScalar(v) && v != Land(layer, p, v).was && Edit(layer, p, v, true).Done?
    ensures Edit(layer, p, v, true).layer != layer
    decreases |p|
  {
    hide Atoi, Head, Index, Step;
    if p != "" && !IsScalar(layer) {
      EditOneLevel(layer, p, v, true);
      var next := Step(layer, Head(p));
      SetChanges(if next.Some? then next.value else Null, Tail(p), v);
    }
  }

  lemma ScalarReads(v: Json, field: string)
    requires IsScalar(v)
    ensures Get(v, field) == if HasTail(field) then Err else Ok(v)
  {
  }

  lemma SameStep(layer: Json, p: string, q: string, v: Json)
    requires Segmented(p) && Step(layer, Head(q)).Some? && Edit(layer, p, v, true).Done? && IsScalar(v)
    requires !Diverges(layer, p, q)
    ensures var after := Edit(layer, p, v, true).layer;
      Step(layer, Head(p)) == Step(layer, Head(q)) && Step(after, Head(p)) == Step(after, Head(q))
      && !DivergesBelow(layer, p, q) && !IsScalar(layer)
  {
    hide Atoi, Head, Grow, Combine, DivergesBelow;
    var after := Edit(layer, p, v, true).layer;
    if layer.Arr? {
      IndexIsNumeral(Head(q), |layer.items|);
      EditedLayerKeepsKind(layer, p, v, true);
    }
  }

  lemma {:induction false} SetIsSeen(layer: Json, p: string, q: string, v: Json)
    requires Segmented(p) && Resolve(layer, q).Some? && Edit(layer, p, v, true).Done? && !Diverges(layer, p, q)
    requires IsScalar(v) && v != Land(layer, p, v).was && v != Resolve(layer, q).value
    ensures Get(Edit(layer, p, v, true).layer, q) != Ok(Resolve(layer, q).value)
    decreases |p|
  {
    hide Atoi, Head, Index, Edit, Step;
    HeadAndTail(p);
    SameStep(layer, p, q, v);
    EditOneLevel(layer, p, v, true);
    var after := Edit(layer, p, v, true).layer;
    var child := Step(layer, Head(q)).value;
    GetOneLevel(after, q);
    if !HasTail(q) {
      SetChanges(child, Tail(p), v);
    } else if HasTail(p) {
      SetIsSeen(child, Tail(p), Tail(q), v);
    } else {
      SetWhole(child, v);
      ScalarReads(v, Tail(q));
    }
  }

  lemma SetWhole(layer: Json, v: Json)
    requires IsScalar(v)
    ensures Edit(layer, "", v, true) == Done(v)
  {
  }

  /** The frame law, exactly: a scalar set through one path leaves what another one reads as
      it was if and only if the two name different children at some layer. */
  lemma KeptExactlyWhenDiverging(layer: Json, p: string, q: string, v: Json)
    requires Segmented(p) && Resolve(layer, q).Some? && Edit(layer, p, v, true).Done?
    requires IsScalar(v) && v != Land(layer, p, v).was && v != Resolve(layer, q).value
    ensures Get(Edit(layer, p, v, true).layer, q) == Get(layer, q) <==> Diverges(layer, p, q)
  {
    hide Edit, Get, Resolve, Diverges, Segmented, Land;
    ResolvedIsRead(layer, q);
    if Diverges(layer, p, q) {
      EditKeepsDiverging(layer, p, q, v, true);
      ResolvedIsRead(Edit(layer, p, v, true).layer, q);
    } else {
      SetIsSeen(layer, p, q, v);
    }
  }

  lemma NumeralsOne()
    ensures Atoi("1") == Int(1) && Atoi("01") == Int(1)
  {
    assert Decimal("1") == 1 by { assert "1"[..0] == ""; }
    assert Decimal("01") == 1 by { assert "01"[..1] == "0"; assert "0"[..0] == ""; }
  }

  /** Why array indices must be written plainly: 01 and 1 name the same element. */
  lemma AliasedIndexIsNotKept()
    ensures var layer := Arr([Null, Str("before")]);
      !Leads("01", "1") && !Leads("1", "01") && Segmented("01")
      && Get(layer, "1") == Ok(Str("before"))
      && Edit(layer, "01", Str("after"), true).Done?
      && Get(Edit(layer, "01", Str("after"), true).layer, "1") == Ok(Str("after"))
  {
    hide Atoi;
    NoCut("01");
    NoCut("1");
    NumeralsOne();
    var layer := Arr([Null, Str("before")]);
    GrowNothing(layer.items, 1);
    SetWhole(Str("before"), Str("after"));
    assert layer.items[1 := Str("after")] == [Null, Str("after")];
    assert Edit(layer, "01", Str("after"), true) == Done(Arr([Null, Str("after")]));
  }

  lemma {:induction false} NoCut(s: string)
    requires '/' !in s
    ensures Cut(s, '/') == None
  {
    if s != "" {
      NoCut(s[1..]);
    }
  }

  // ---- Deleting ---------------------------------------------------------------------------------

  /** The map or array that holds the last segment of a path. */
  function Container(layer: Json, field: string): Option<Json>
    decreases |field|
  {
    if !HasTail(field) then Some(layer)
    else
      var next := Step(layer, Head(field));
      if next.None? then None else Container(next.value, Tail(field))
  }

  function Last(field: string): string
    decreases |field|
  {
    if HasTail(field) then Last(Tail(field)) else field
  }

  /** A container without the child that the segment names. */
  function Without(layer: Json, frag: string): Json
    requires Step(layer, frag).Some?
  {
    if layer.Obj? then Obj(layer.fields - {frag})
    else Arr(RemoveAt(layer.items, Index(frag, |layer.items|).value))
  }

  lemma DeleteOneLevel(layer: Json, field: string)
    requires HasTail(field)
    ensures var next := Step(layer, Head(field));
      Delete(layer, field).Done? <==> next.Some? && Delete(next.value, Tail(field)).Done?
    ensures Delete(layer, field).Done? ==>
      var after := Delete(layer, field).layer;
      Step(after, Head(field)) == Some(Delete(Step(layer, Head(field)).value, Tail(field)).layer)
      && (forall g {:trigger Step(after, g)} | Apart(layer, Head(field), g) :: Step(after, g) == Step(layer, g))
      && (layer.Arr? ==> after.Arr?)
  {
    hide Head, Atoi;
  }

  /** A delete succeeds exactly on a path that resolves, and takes from the container at
      the end of the path that one child and nothing else. */
  lemma {:induction false} DeleteIsExact(layer: Json, field: string)
    ensures Delete(layer, field).Done? <==> Resolve(layer, field).Some?
    ensures Delete(layer, field).Done? ==>
      Container(layer, field).Some? && Step(Container(layer, field).value, Last(field)).Some?
      && Container(Delete(layer, field).layer, field) == Some(Without(Container(layer, field).value, Last(field)))
    decreases |field|
  {
    hide Head, Atoi, Index, Step;
    if HasTail(field) {
      DeleteOneLevel(layer, field);
      var next := Step(layer, Head(field));
      if next.Some? {
        DeleteIsExact(next.value, Tail(field));
      }
    } else {
      HeadAndTail(field);
      DeleteLast(layer, field);
    }
  }

  lemma DeleteLast(layer: Json, field: string)
    requires !HasTail(field)
    ensures Delete(layer, field).Done? <==> Step(layer, Head(field)).Some?
    ensures Delete(layer, field).Done? ==> Delete(layer, field).layer == Without(layer, Head(field))
  {
    hide Head, Atoi, Index;
  }

  /** A deleted map key can no longer be read, nor anything below it. */
  lemma {:induction false} DeletedKeyIsUnreadable(layer: Json, field: string, below: string)
    requires Delete(layer, field).Done? && Container(layer, field).Some? && Container(layer, field).value.Obj?
    requires Leads(field, below)
    ensures Get(Delete(layer, field).layer, below) == Err
    decreases |field|
  {
    hide Head, Atoi, Index, Leads;
    LeadsFromHead(field, below);
    if HasTail(field) {
      DeleteOneLevel(layer, field);
      DeletedKeyIsUnreadable(Step(layer, Head(field)).value, Tail(field), Tail(below));
    }
  }

  lemma LeadsFromHead(p: string, q: string)
    requires Leads(p, q)
    ensures Head(p) == Head(q)
    ensures HasTail(p) ==> HasTail(q) && Leads(Tail(p), Tail(q))
  {
    HeadAndTail(p);
    HeadAndTail(q);
    if p != q {
      var rest := q[|p| + 1..];
      assert q == p + "/" + rest;
      if HasTail(p) {
        assert q == Head(p) + "/" + (Tail(p) + "/" + rest);
        CutSeparator(Head(p), '/', Tail(p) + "/" + rest);
      } else {
        CutSeparator(p, '/', rest);
      }
    }
  }

  /** The path is not moved by the delete: it diverges at a map, at an array the delete
      only passes through, or at an earlier element of the array that loses one. */
  predicate Unmoved(layer: Json, p: string, q: string)
    decreases |p|
  {
    (Apart(layer, Head(p), Head(q))
     && (layer.Arr? && !HasTail(p) ==> Atoi(Head(q)).value < Atoi(Head(p)).value))
    || (!Apart(layer, Head(p), Head(q)) && HasTail(p) && HasTail(q)
        && Step(layer, Head(p)) == Step(layer, Head(q)) && Step(layer, Head(p)).Some?
        && Unmoved(Step(layer, Head(p)).value, Tail(p), Tail(q)))
  }

  lemma {:induction false} DeleteKeepsUnmoved(layer: Json, p: string, q: string)
    requires Delete(layer, p).Done? && Unmoved(layer, p, q)
    ensures Resolve(Delete(layer, p).layer, q) == Resolve(layer, q)
    decreases |p|
  {
    hide Head, Atoi, Index;
    var after := Delete(layer, p).layer;
    if HasTail(p) {
      DeleteOneLevel(layer, p);
      if !Apart(layer, Head(p), Head(q)) {
        SameNameSameChild(layer, after, Head(p), Head(q));
        DeleteKeepsUnmoved(Step(layer, Head(p)).value, Tail(p), Tail(q));
      }
    } else {
      DeleteLast(layer, p);
      WithoutKeepsEarlier(layer, Head(p), Head(q));
    }
  }

  lemma {:induction false} DistinctPathsUnmoved(layer: Json, p: string, q: string)
    requires Plain(p) && Plain(q) && !Leads(p, q) && !Leads(q, p)
    requires Delete(layer, p).Done? && Resolve(layer, q).Some?
    requires Container(layer, p).Some? && Container(layer, p).value.Obj?
    ensures Unmoved(layer, p, q)
    decreases |p|
  {
    hide Head, Atoi, Index, Leads;
    if Head(p) == Head(q) {
      LeadsDown(p, q);
      DeleteOneLevel(layer, p);
      DistinctPathsUnmoved(Step(layer, Head(p)).value, Tail(p), Tail(q));
    } else if layer.Arr? {
      IndexIsNumeral(Head(p), |layer.items|);
      IndexIsNumeral(Head(q), |layer.items|);
      PlainNumeralsDiffer(Head(p), Head(q));
    }
  }

  /** Deleting a map key keeps what is read through every other resolving path. */
  lemma DeletedKeyKeepsOthers(layer: Json, p: string, q: string)
    requires Plain(p) && Plain(q) && !Leads(p, q) && !Leads(q, p)
    requires Delete(layer, p).Done? && Resolve(layer, q).Some?
    requires Container(layer, p).Some? && Container(layer, p).value.Obj?
    ensures Get(Delete(layer, p).layer, q) == Get(layer, q) == Ok(Resolve(layer, q).value)
  {
    hide Delete, Get, Resolve, Plain, Leads, Unmoved, Container;
    DistinctPathsUnmoved(layer, p, q);
    DeleteKeepsUnmoved(layer, p, q);
    ResolvedIsRead(layer, q);
    ResolvedIsRead(Delete(layer, p).layer, q);
  }

  lemma SameNameSameChild(layer: Json, after: Json, f: string, g: string)
    requires !Apart(layer, f, g) && Step(layer, f).Some? && Step(layer, g).Some?
    requires layer.Arr? ==> after.Arr?
    ensures Step(after, f) == Step(after, g)
  {
    hide Atoi;
  }

  /** Removing an element keeps those before it and moves those after it down by one. */
  lemma RemovedAt(items: seq<Json>, i: nat, j: nat)
    requires i < |items|
    ensures |RemoveAt(items, i)| == |items| - 1
    ensures j < i ==> RemoveAt(items, i)[j] == items[j]
    ensures i < j < |items| ==> RemoveAt(items, i)[j - 1] == items[j]
  {
  }

  lemma WithoutKeepsEarlier(layer: Json, f: string, g: string)
    requires Step(layer, f).Some? && Apart(layer, f, g)
    requires layer.Arr? ==> Atoi(g).value < Atoi(f).value
    ensures Step(Without(layer, f), g) == Step(layer, g)
  {
    hide Atoi, RemoveAt;
    if layer.Arr? {
      IndexIsNumeral(f, |layer.items|);
      var i := Atoi(f).value;
      RemovedAt(layer.items, i, if Atoi(g).value < 0 then 0 else Atoi(g).value);
    }
  }

  /** Both paths pass the array that loses element k: before the delete through some
      element j > k, afterwards through element j - 1, and agree below it. */
  predicate Shifted(layer: Json, p: string, before: string, after: string)
    decreases |p|
  {
    if HasTail(p) then
      HasTail(before) && HasTail(after) && Head(before) == Head(p) == Head(after)
      && Step(layer, Head(p)).Some?
      && Shifted(Step(layer, Head(p)).value, Tail(p), Tail(before), Tail(after))
    else
      layer.Arr? && Atoi(Head(p)).Int? && Atoi(Head(before)).Int?
      && Atoi(Head(before)).value > Atoi(Head(p)).value
      && Atoi(Head(after)) == Int(Atoi(Head(before)).value - 1)
      && HasTail(before) == HasTail(after) && Tail(before) == Tail(after)
  }

  /** An array delete moves exactly the later elements down by one. */
  lemma {:induction false} DeleteShiftsLater(layer: Json, p: string, before: string, after: string)
    requires Delete(layer, p).Done? && Shifted(layer, p, before, after)
    ensures Resolve(Delete(layer, p).layer, after) == Resolve(layer, before)
    decreases |p|
  {
    hide Head, Atoi, Index;
    if HasTail(p) {
      DeleteOneLevel(layer, p);
      DeleteShiftsLater(Step(layer, Head(p)).value, Tail(p), Tail(before), Tail(after));
    } else {
      DeleteLast(layer, p);
      WithoutShiftsLater(layer, Head(p), Head(before), Head(after));
    }
  }

  lemma WithoutShiftsLater(layer: Json, f: string, g: string, g': string)
    requires Step(layer, f).Some? && layer.Arr? && Atoi(f).Int? && Atoi(g).Int?
    requires Atoi(g).value > Atoi(f).value && Atoi(g') == Int(Atoi(g).value - 1)
    ensures Step(Without(layer, f), g') == Step(layer, g)
  {
    hide Atoi, RemoveAt;
    RemovedAt(layer.items, Atoi(f).value, Atoi(g).value);
  }
}
