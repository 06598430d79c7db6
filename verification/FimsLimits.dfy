/** What happens outside the limits of the format, stated exactly: the code checks
    none of them. */
module FimsLimits {
  import opened Text
  import opened FimsValues
  import opened FimsTables
  import opened FimsDecoder
  import opened FimsRoundTrip
  import opened FimsMetadata
  import opened FimsCodec
  import opened FimsPrinter
  import opened FimsArchive

  // ---- Strings: one enumeration byte ------------------------------------------------------

  /** How many strings came before this one; all of them if it is new. */
  function Place(order: seq<string>, s: string): (i: nat)
    ensures i <= |order|
    ensures i < |order| ==> order[i] == s
    ensures s in order ==> i < |order|
  {
    if order == [] then 0 else if order[0] == s then 0 else 1 + Place(order[1..], s)
  }

  /** Whatever the size of the table, a string is written as the byte of its place, and the
      table stays in order. */
  lemma StringByte(t: map<string, byte>, order: seq<string>, s: string)
    requires InOrder(t, order) && forall x | x in t :: !Illegal(x)
    ensures var c := CleanString(s);
      StringEnum(t, s).0 == NextEnum(Place(order, c))
      && InOrder(StringEnum(t, s).1, if c in t then order else order + [c])
  {
    hide NextEnum, Illegal, CleanString;
    var c := CleanString(s);
    assert (if s in t then s else c) == c by { LegalIsClean(s); }
    assert StringEnum(t, s) == AddString(t, c);
    if c in t {
      assert order[Place(order, c)] == c;
    } else {
      OrderGrowsBy(t, order, c);
    }
  }

  lemma OrderGrowsBy(t: map<string, byte>, order: seq<string>, c: string)
    requires InOrder(t, order) && c !in t
    ensures InOrder(t[c := NextEnum(|t|)], order + [c]) && Place(order, c) == |t|
  {
    hide NextEnum;
    var t', order' := t[c := NextEnum(|t|)], order + [c];
    forall x | x in t' ensures x in order' {
      if x == c {
        assert order'[|order|] == c;
      }
    }
  }

  lemma LegalIsClean(s: string)
    ensures !Illegal(s) ==> CleanString(s) == s
  {
  }

  /** A string reads as missing exactly at every 256th place. */
  lemma StringReadsMissingExactly(meta: KeyMetadata, order: seq<string>, s: string, dec: KeyDecoder, rest: seq<byte>)
    requires meta.dataType == STRING && InOrder(meta.stringEnums, order)
    requires forall x | x in meta.stringEnums :: !Illegal(x)
    requires dec.dataType == STRING
    ensures DecodeField(dec, EncodeField(meta, Some(Str(s))).1 + rest) == Ok((None, rest))
      <==> Place(order, CleanString(s)) % 256 == 255
  {
    hide StringEnum, CleanString, InOrder, Place;
    StringByte(meta.stringEnums, order, s);
    var e := StringEnum(meta.stringEnums, s).0;
    ZeroExactly(Place(order, CleanString(s)));
    assert EncodeField(meta, Some(Str(s))).1 == [e];
    assert ([e] + rest)[1..] == rest;
  }

  lemma ZeroExactly(i: nat)
    ensures NextEnum(i) == 0 <==> i % 256 == 255
  {
  }

  lemma SameByteExactly(i: nat, j: nat)
    ensures NextEnum(i) == NextEnum(j) <==> i % 256 == j % 256
  {
    SlotOfNext(i);
    SlotOfNext(j);
    if i % 256 == j % 256 {
      SlotInjective(NextEnum(i), NextEnum(j));
    }
  }

  /** A string that does not read as missing reads, in any printed table, as a string whose
      place differs from its own by a multiple of 256: itself only if it holds the slot. */
  lemma StringReadsAs(t: map<string, byte>, order: seq<string>, j: nat, dec: KeyDecoder, rest: seq<byte>) returns (i: nat)
    requires InOrder(t, order) && j < |order| && j % 256 != 255
    requires dec.dataType == STRING && Slots(t, dec.stringDecoder)
    ensures i < |order| && i % 256 == j % 256
    ensures DecodeField(dec, [t[order[j]]] + rest) == Ok((Some(Str(order[i])), rest))
  {
    hide NextEnum, DecodeField, Slots;
    var k := j % 256;
    PlaceByte(j);
    assert k <= j;
    SlotAt(t, dec.stringDecoder, k);
    ReadsSlot(dec, k, rest);
    var s := dec.stringDecoder[k];
    i :| 0 <= i < |order| && order[i] == s;
    SameByteExactly(i, k);
  }

  lemma PlaceByte(j: nat)
    requires j % 256 != 255
    ensures NextEnum(j) == j % 256 + 1 == NextEnum(j % 256)
  {
  }

  lemma SlotAt(t: map<string, byte>, table: seq<string>, k: nat)
    requires Slots(t, table) && k < |t| && k < 256
    ensures |table| == |t| && Holds(t, table[k], NextEnum(k))
  {
  }

  lemma ReadsSlot(dec: KeyDecoder, k: nat, rest: seq<byte>)
    requires dec.dataType == STRING && k < |dec.stringDecoder| && k < 255
    ensures DecodeField(dec, [k + 1] + rest) == Ok((Some(Str(dec.stringDecoder[k])), rest))
  {
    assert ([k + 1] + rest)[1..] == rest;
  }

  /** Two strings 256 places apart share their byte: no decoder reads both back. */
  lemma SharedByteLosesOne(t: map<string, byte>, order: seq<string>, i: nat, j: nat, dec: KeyDecoder, rest: seq<byte>)
    requires InOrder(t, order) && i < j < |order| && i % 256 == j % 256
    ensures !(DecodeField(dec, [t[order[i]]] + rest) == Ok((Some(Str(order[i])), rest))
              && DecodeField(dec, [t[order[j]]] + rest) == Ok((Some(Str(order[j])), rest)))
  {
    hide NextEnum, DecodeField;
    SameByteExactly(i, j);
  }

  function StringReader(key: string, table: seq<string>): KeyDecoder {
    KeyDecoder(key, STRING, table, [])
  }

  ghost predicate AllReadBack(t: map<string, byte>, dec: KeyDecoder, rest: seq<byte>) {
    forall s | s in t :: DecodeField(dec, [t[s]] + rest) == Ok((Some(Str(s)), rest))
  }

  /** The strings of a key read back, in every table that can be printed of them, exactly
      when there are at most 255. */
  lemma StringsReadBackExactly(key: string, t: map<string, byte>, order: seq<string>, rest: seq<byte>)
    requires InOrder(t, order)
    ensures (forall table | Slots(t, table) :: AllReadBack(t, StringReader(key, table), rest)) <==> |t| <= 255
  {
    hide NextEnum, DecodeField;
    if |t| <= 255 {
      InOrderEnumerates(t, order);
      forall table | Slots(t, table) ensures AllReadBack(t, StringReader(key, table), rest) {
        SlotsEnumerate(t, order, table);
        forall s | s in t ensures DecodeField(StringReader(key, table), [t[s]] + rest) == Ok((Some(Str(s)), rest)) {
          DecodeStringByte(StringReader(key, table), t, s, rest);
        }
      }
    } else {
      var table := seq(|t|, k requires 0 <= k < |t| => if k < 256 then order[k] else "");
      assert Slots(t, table);
      ZeroExactly(255);
      ZeroReadsMissing(StringReader(key, table), rest);
      assert t[order[255]] == 0;
    }
  }

  lemma InOrderEnumerates(t: map<string, byte>, order: seq<string>)
    requires InOrder(t, order) && |t| <= 255
    ensures Enumerates(t, order)
  {
    hide NextEnum;
    forall i | 0 <= i < |order| ensures t[order[i]] == i + 1 {
      NextEnumSmall(i);
    }
    forall s | s in t ensures 1 <= t[s] <= |order| && order[t[s] - 1] == s {
      var i :| 0 <= i < |order| && order[i] == s;
    }
  }

  lemma ZeroReadsMissing(dec: KeyDecoder, rest: seq<byte>)
    requires dec.dataType == STRING
    ensures DecodeField(dec, [0] + rest) == Ok((None, rest))
  {
    assert ([0] + rest)[1..] == rest;
  }

  /** The tables past the limit are reached: n distinct legal strings given to an empty
      table one after another fill it to n. */
  lemma {:induction false} TableOf(given: seq<string>) returns (t: map<string, byte>)
    requires forall i, j | 0 <= i < j < |given| :: given[i] != given[j]
    requires forall s | s in given :: !Illegal(s)
    ensures t == Fed(map[], given) && InOrder(t, given)
    decreases |given|
  {
    hide Illegal, NextEnum, StringEnum, CleanString, InOrder;
    if given == [] {
      t := map[];
      NothingInOrder();
    } else {
      var n := |given| - 1;
      var front := TableOf(given[..n]);
      var s := given[n];
      assert s !in given[..n];
      NewInTable(front, given[..n], s);
      OrderGrowsBy(front, given[..n], s);
      t := front[s := NextEnum(|front|)];
      assert given[..n] + [s] == given;
    }
  }

  lemma NothingInOrder()
    ensures InOrder(map[], [])
  {
  }

  lemma NewInTable(t: map<string, byte>, order: seq<string>, s: string)
    requires InOrder(t, order) && s !in order && !Illegal(s)
    ensures s !in t && StringEnum(t, s).1 == t[s := NextEnum(|t|)]
  {
    hide Illegal, NextEnum;
    LegalIsClean(s);
  }

  /** The table after a sequence of strings. */
  function Fed(t: map<string, byte>, given: seq<string>): map<string, byte> {
    if given == [] then t else StringEnum(Fed(t, given[..|given| - 1]), given[|given| - 1]).1
  }

  /** a, aa, aaa and so on. */
  function Growing(n: nat): (r: seq<string>)
    ensures |r| == n && forall i | 0 <= i < n :: |r[i]| == i + 1 && !Illegal(r[i])
  {
    if n == 0 then [] else Growing(n - 1) + [Repeated(n)]
  }

  function Repeated(n: nat): (s: string)
    ensures |s| == n && !Illegal(s)
  {
    seq(n, _ => 'a')
  }

  /** 256 strings given to an empty table do not all read back. */
  lemma TooManyStrings(key: string, rest: seq<byte>)
    ensures var t := Fed(map[], Growing(256));
      |t| == 256 && exists table | Slots(t, table) :: !AllReadBack(t, StringReader(key, table), rest)
  {
    hide AllReadBack, Slots, InOrder, Fed, Growing, Illegal;
    var given := Growing(256);
    forall s | s in given ensures !Illegal(s) {
      var i :| 0 <= i < |given| && given[i] == s;
    }
    forall i, j | 0 <= i < j < |given| ensures given[i] != given[j] {
      assert |given[i]| != |given[j]|;
    }
    var t := TableOf(given);
    OrderSize(t, given);
    StringsReadBackExactly(key, t, given, rest);
  }

  lemma OrderSize(t: map<string, byte>, order: seq<string>)
    requires InOrder(t, order)
    ensures |t| == |order|
  {
  }

  // ---- Slices: one length byte ------------------------------------------------------------

  /** What a slice of any size reads as: its size modulo 256 says how many of its maps are
      read, and the enumerations of the others are left in front of the next field. */
  lemma SliceReadsFirst(t: map<byte, Fields>, items: seq<Value>, later: map<byte, Fields>, dec: KeyDecoder, rest: seq<byte>)
    requires Dense(t) && LegalMaps(t) && items != [] && AllObjects(items)
    requires (forall x | x in items :: LegalKeys(x.fields)) && |EncodeMaps(t, items).1| <= 255
    requires Within(EncodeMaps(t, items).1, later) && Dense(later)
    requires dec.dataType == MAP_SLICE && Lists(dec.mapDecoder, later)
    ensures var es, k := EncodeMaps(t, items).0, |items| % 256;
      DecodeField(dec, [k] + es + rest)
        == Ok((if k == 0 then None else Some(Arr(CleanItems(items[..k]))), es[k..] + rest))
  {
    hide EncodeMaps, DecodeField, LegalKeys, LegalMaps, CleanFields, Dense, Within, Lists, Selects, AllObjects, MapsAt, CleanItems;
    EncodeMapsMeaning(t, items);
    var (es, t') := EncodeMaps(t, items);
    ModuloInRange(|items|);
    ReadsFirst(t', later, es, items, |items| % 256, dec, rest);
  }

  lemma ModuloInRange(n: nat)
    ensures 0 <= n % 256 < 256 && n % 256 <= n && (n <= 255 <==> n % 256 == n)
  {
  }

  lemma ReadsFirst(t: map<byte, Fields>, later: map<byte, Fields>, es: seq<byte>, items: seq<Value>, k: byte,
      dec: KeyDecoder, rest: seq<byte>)
    requires AllObjects(items) && Selects(t, es, items) && Within(t, later) && Dense(later) && k <= |items| == |es|
    requires dec.dataType == MAP_SLICE && Lists(dec.mapDecoder, later)
    ensures AllObjects(items[..k])
    ensures DecodeField(dec, [k] + es + rest)
      == Ok((if k == 0 then None else Some(Arr(CleanItems(items[..k]))), es[k..] + rest))
  {
    hide DecodeField, CleanFields, Dense, Within, Lists, Selects, AllObjects, MapsAt, CleanItems;
    SelectsPrefix(t, later, es, items, k);
    if k == 0 {
      ZeroLengthByte(dec, es, rest);
      assert es[0..] == es;
    } else {
      ReadsSome(later, es, items, k, dec, rest);
    }
  }

  lemma ReadsSome(later: map<byte, Fields>, es: seq<byte>, items: seq<Value>, k: byte, dec: KeyDecoder, rest: seq<byte>)
    requires 1 <= k <= |es| && k <= |items| && AllObjects(items[..k]) && Selects(later, es[..k], items[..k]) && Dense(later)
    requires dec.dataType == MAP_SLICE && Lists(dec.mapDecoder, later)
    ensures DecodeField(dec, [k] + es + rest) == Ok((Some(Arr(CleanItems(items[..k]))), es[k..] + rest))
  {
    hide DecodeField, CleanFields, Dense, Lists, Selects, AllObjects, MapsAt, CleanItems, ValidMapEnums;
    SelectedMaps(dec.mapDecoder, later, es[..k], items[..k]);
    var first := es[..k];
    assert |first| == k;
    DecodeSliceBytes(dec, first, es[k..] + rest);
    Regrouped(k, es, rest);
    ModuloInRange(k);
  }

  lemma SelectsPrefix(t: map<byte, Fields>, later: map<byte, Fields>, es: seq<byte>, items: seq<Value>, k: nat)
    requires AllObjects(items) && Within(t, later) && Selects(t, es, items) && k <= |items|
    ensures AllObjects(items[..k]) && Selects(later, es[..k], items[..k])
  {
    hide CleanFields;
  }

  lemma Regrouped(k: byte, es: seq<byte>, rest: seq<byte>)
    requires k <= |es|
    ensures [k] + es[..k] + (es[k..] + rest) == [k] + es + rest
  {
    assert es == es[..k] + es[k..];
  }

  /** With room in the table and legal keys, a slice reads back exactly when it holds at
      most 255 maps. */
  lemma SliceReadsBackExactly(t: map<byte, Fields>, items: seq<Value>, later: map<byte, Fields>, dec: KeyDecoder, rest: seq<byte>)
    requires Dense(t) && LegalMaps(t) && items != [] && AllObjects(items)
    requires (forall x | x in items :: LegalKeys(x.fields)) && |EncodeMaps(t, items).1| <= 255
    requires Within(EncodeMaps(t, items).1, later) && Dense(later)
    requires dec.dataType == MAP_SLICE && Lists(dec.mapDecoder, later)
    ensures DecodeField(dec, [|items| % 256] + EncodeMaps(t, items).0 + rest) == Ok((Some(Arr(CleanItems(items))), rest))
      <==> |items| <= 255
  {
    hide EncodeMaps, DecodeField, LegalKeys, LegalMaps, Dense, Within, Lists, CleanItems, AllObjects;
    if |items| <= 255 {
      SliceFieldRoundTrip(t, items, later, dec, rest);
    } else {
      SliceReadsFirst(t, items, later, dec, rest);
      ModuloInRange(|items|);
      LeavesBytes(EncodeMaps(t, items).0, |items| % 256, rest);
    }
  }

  lemma LeavesBytes(es: seq<byte>, k: nat, rest: seq<byte>)
    requires k < |es|
    ensures es[k..] + rest != rest
  {
    assert |es[k..] + rest| > |rest|;
  }

  lemma ZeroLengthByte(dec: KeyDecoder, es: seq<byte>, rest: seq<byte>)
    requires dec.dataType == MAP_SLICE
    ensures DecodeField(dec, [0] + es + rest) == Ok((None, es + rest))
  {
    assert ([0] + es + rest)[1..] == es + rest;
  }

  // ---- Maps: one enumeration byte ------------------------------------------------------------

  ghost function MapsOf(t: map<byte, Fields>): set<Fields> {
    set b | b in t :: t[b]
  }

  ghost function Given(items: seq<Value>): set<Fields>
    requires AllObjects(items)
  {
    set i | 0 <= i < |items| :: CleanFields(items[i].fields)
  }

  /** The maps a key knows after it has been given a slice. */
  ghost function Known(t: map<byte, Fields>, items: seq<Value>): set<Fields>
    requires AllObjects(items)
  {
    MapsOf(t) + Given(items)
  }

  /** While at most 255 maps are known, the table holds exactly them. */
  lemma TableHoldsKnown(t: map<byte, Fields>, items: seq<Value>)
    requires Dense(t) && LegalMaps(t) && InjectiveMaps(t) && AllObjects(items)
    requires (forall x | x in items :: LegalKeys(x.fields)) && |Known(t, items)| <= 255
    ensures var t' := EncodeMaps(t, items).1;
      |t'| <= 255 && Dense(t') && LegalMaps(t') && MapsOf(t') == Known(t, items) && |t'| == |Known(t, items)|
  {
    hide EncodeMaps, LegalKeys, LegalMaps, Dense, Within, Selects, InjectiveMaps, MapsOf, Given;
    var (es, t') := EncodeMaps(t, items);
    var known := Known(t, items);
    KnownIsDrawn(t, items);
    EncodeMapsDrawn(t, items, known);
    InjectiveMapIsSmall(t', known);
    EncodeMapsMeaning(t, items);
    KnownIsHeld(t, t', es, items);
    InjectiveSize(t');
  }

  lemma KnownIsDrawn(t: map<byte, Fields>, items: seq<Value>)
    requires InjectiveMaps(t) && AllObjects(items)
    ensures DrawnMaps(t, Known(t, items)) && forall x | x in items :: CleanFields(x.fields) in Known(t, items)
  {
    hide CleanFields;
    forall x | x in items ensures CleanFields(x.fields) in Given(items) {
      var i :| 0 <= i < |items| && items[i] == x;
    }
  }

  lemma KnownIsHeld(t: map<byte, Fields>, t': map<byte, Fields>, es: seq<byte>, items: seq<Value>)
    requires AllObjects(items) && Within(t, t') && Selects(t', es, items) && DrawnMaps(t', Known(t, items))
    ensures MapsOf(t') == Known(t, items) && InjectiveMaps(t')
  {
    hide CleanFields;
    forall m | m in Known(t, items) ensures m in MapsOf(t') {
      if m in MapsOf(t) {
        var b :| b in t && t[b] == m;
        assert t'[b] == m;
      } else {
        var i :| 0 <= i < |items| && CleanFields(items[i].fields) == m;
        assert t'[es[i]] == m;
      }
    }
  }

  lemma {:induction false} InjectiveSize(t: map<byte, Fields>)
    requires InjectiveMaps(t)
    ensures |MapsOf(t)| == |t|
    decreases |t|
  {
    if t != map[] {
      var b :| b in t;
      var rest := t - {b};
      assert rest.Keys == t.Keys - {b} && |t| == |t.Keys| && |rest| == |rest.Keys|;
      InjectiveSize(rest);
      MapsOfLess(t, b);
    }
  }

  lemma MapsOfLess(t: map<byte, Fields>, b: byte)
    requires InjectiveMaps(t) && b in t
    ensures MapsOf(t) == MapsOf(t - {b}) + {t[b]} && t[b] !in MapsOf(t - {b})
  {
    forall m | m in MapsOf(t) ensures m in MapsOf(t - {b}) + {t[b]} {
      var c :| c in t && t[c] == m;
      if c != b {
        assert (t - {b})[c] == m;
      }
    }
  }

  /** The slice that brings a key its 256th map has a map enumerated as 0. */
  lemma {:induction false} OverflowWritesZero(t: map<byte, Fields>, items: seq<Value>) returns (i: nat)
    requires Dense(t) && LegalMaps(t) && InjectiveMaps(t) && |t| <= 255 && AllObjects(items)
    requires (forall x | x in items :: LegalKeys(x.fields)) && |Known(t, items)| > 255
    ensures i < |items| && EncodeMaps(t, items).0[i] == 0
    decreases |items|
  {
    hide LegalKeys, LegalMaps, CleanFields, MapEnum, Dense, MapsOf, Given, InjectiveMaps;
    InjectiveSize(t);
    GivenNone(t);
    GivenMore(t, items);
    var n := |items| - 1;
    var front, m := items[..n], items[n].fields;
    if |Known(t, front)| > 255 {
      i := OverflowWritesZero(t, front);
    } else {
      TableHoldsKnown(t, front);
      assert items[n] in items;
      NewMapAtFull(EncodeMaps(t, front).1, m);
      i := n;
    }
  }

  lemma GivenNone(t: map<byte, Fields>)
    ensures Known(t, []) == MapsOf(t)
  {
  }

  lemma GivenStep(items: seq<Value>)
    requires AllObjects(items) && items != []
    ensures var n := |items| - 1;
      Given(items) == Given(items[..n]) + {CleanFields(items[n].fields)}
  {
    hide CleanFields;
    var n := |items| - 1;
    var c := CleanFields(items[n].fields);
    forall m | m in Given(items) ensures m in Given(items[..n]) + {c} {
      var i :| 0 <= i < |items| && CleanFields(items[i].fields) == m;
      if i < n {
        assert items[..n][i] == items[i];
      }
    }
    forall m | m in Given(items[..n]) ensures m in Given(items) {
      var i :| 0 <= i < n && CleanFields(items[..n][i].fields) == m;
      assert items[..n][i] == items[i];
    }
  }

  lemma GivenMore(t: map<byte, Fields>, items: seq<Value>)
    requires AllObjects(items) && items != []
    ensures var n := |items| - 1;
      var c := CleanFields(items[n].fields);
      |Known(t, items)| == |Known(t, items[..n])| + if c in Known(t, items[..n]) then 0 else 1
  {
    hide CleanFields, MapsOf, Given;
    var n := |items| - 1;
    var front, c := Known(t, items[..n]), CleanFields(items[n].fields);
    GivenStep(items);
    assert Known(t, items) == front + {c};
    if c in front {
      assert front + {c} == front;
    }
  }

  lemma NewMapAtFull(t: map<byte, Fields>, m: Fields)
    requires |t| == 255 && LegalMaps(t) && LegalKeys(m) && CleanFields(m) !in MapsOf(t)
    ensures MapEnum(t, m).0 == 0
  {
    hide Illegal;
    CleanLegalFields(m);
    assert forall b | b in t :: t[b] != CleanFields(m);
    assert forall b | b in t :: t[b] != m;
  }

  /** With legal keys and at most 255 maps in it, a slice can be read back by some decoder
      exactly when its key then knows at most 255 maps; otherwise every decoder rejects it,
      and with it the data file. */
  lemma MapsReadBackExactly(t: map<byte, Fields>, items: seq<Value>, rest: seq<byte>)
    requires Dense(t) && LegalMaps(t) && InjectiveMaps(t) && |t| <= 255
    requires 1 <= |items| <= 255 && AllObjects(items) && forall x | x in items :: LegalKeys(x.fields)
    ensures var bytes := [|items| % 256] + EncodeMaps(t, items).0 + rest;
      ((exists dec: KeyDecoder | dec.dataType == MAP_SLICE ::
          DecodeField(dec, bytes) == Ok((Some(Arr(CleanItems(items))), rest))) <==> |Known(t, items)| <= 255)
      && (|Known(t, items)| > 255 ==> forall dec: KeyDecoder | dec.dataType == MAP_SLICE :: DecodeField(dec, bytes).Err?)
  {
    hide EncodeMaps, DecodeField, LegalKeys, LegalMaps, Dense, Known;
    var es := EncodeMaps(t, items).0;
    var bytes := [|items| % 256] + es + rest;
    if |Known(t, items)| <= 255 {
      TableHoldsKnown(t, items);
      var t' := EncodeMaps(t, items).1;
      var dec := KeyDecoder("", MAP_SLICE, [], MapTable(t'));
      SliceFieldRoundTrip(t, items, t', dec, rest);
    } else {
      var i := OverflowWritesZero(t, items);
      forall dec: KeyDecoder | dec.dataType == MAP_SLICE ensures DecodeField(dec, bytes).Err? {
        ZeroEnumIsRejected(dec, es, i, rest);
      }
    }
  }

  /** Once all 256 enumerations are taken, every further map takes the place of the first,
      so that frames already written with it change their meaning. */
  lemma FurtherMapsReplaceFirst(t: map<byte, Fields>, m: Fields)
    requires |t| == 256 && (forall b: byte :: b in t) && LegalFields(m) && forall b | b in t :: t[b] != m
    ensures MapEnum(t, m) == (1, t[1 := m])
    ensures |t[1 := m]| == 256 && t[1 := m][1] != t[1]
  {
    assert t[1 := m].Keys == t.Keys;
    assert |t[1 := m]| == |t[1 := m].Keys|;
  }

  // ---- Keys of maps --------------------------------------------------------------------------

  lemma ZeroEnumIsRejected(dec: KeyDecoder, es: seq<byte>, i: nat, rest: seq<byte>)
    requires dec.dataType == MAP_SLICE && 1 <= |es| <= 255 && i < |es| && es[i] == 0
    ensures DecodeField(dec, [|es| % 256] + es + rest).Err?
  {
    var bs := [|es| % 256] + es + rest;
    assert bs[0] == |es| && bs[1..] == es + rest && bs[1..][..|es|] == es;
    assert es[i] in es;
  }

  lemma IllegalKeyEnumeratesZero(t: map<byte, Fields>, m: Fields)
    requires LegalMaps(t) && !LegalKeys(m)
    ensures MapEnum(t, m) == (0, t)
  {
    var k :| k in m && Illegal(k);
    assert k in CleanFields(m);
    assert !LegalFields(m) && !LegalFields(CleanFields(m));
  }

  lemma {:induction false} IllegalKeyIsWritten(t: map<byte, Fields>, items: seq<Value>, i: nat)
    requires AllObjects(items) && LegalMaps(t) && i < |items| && !LegalKeys(items[i].fields)
    ensures EncodeMaps(t, items).0[i] == 0
  {
    var n := |items| - 1;
    EncodeMapsKeepLegal(t, items[..n]);
    if i == n {
      IllegalKeyEnumeratesZero(EncodeMaps(t, items[..n]).1, items[n].fields);
    } else {
      IllegalKeyIsWritten(t, items[..n], i);
    }
  }

  lemma MapEnumKeepsLegal(t: map<byte, Fields>, m: Fields)
    requires LegalMaps(t)
    ensures LegalMaps(MapEnum(t, m).1)
  {
  }

  lemma {:induction false} EncodeMapsKeepLegal(t: map<byte, Fields>, items: seq<Value>)
    requires AllObjects(items) && LegalMaps(t)
    ensures LegalMaps(EncodeMaps(t, items).1)
  {
    hide MapEnum, LegalMaps;
    if items != [] {
      var n := |items| - 1;
      EncodeMapsKeepLegal(t, items[..n]);
      MapEnumKeepsLegal(EncodeMaps(t, items[..n]).1, items[n].fields);
    }
  }

  /** With room in the table, a slice decodes exactly when every key of its maps is
      free of the delimiters; otherwise the decoder rejects the whole data file. */
  lemma SliceDecodesExactlyWithLegalKeys(t: map<byte, Fields>, items: seq<Value>, later: map<byte, Fields>,
      dec: KeyDecoder, rest: seq<byte>)
    requires Dense(t) && LegalMaps(t) && 1 <= |items| <= 255 && AllObjects(items)
    requires |EncodeMaps(t, items).1| <= 255
    requires Within(EncodeMaps(t, items).1, later) && Dense(later)
    requires dec.dataType == MAP_SLICE && Lists(dec.mapDecoder, later)
    ensures DecodeField(dec, [|items| % 256] + EncodeMaps(t, items).0 + rest).Ok?
      <==> forall x | x in items :: LegalKeys(x.fields)
  {
    hide EncodeMaps, LegalKeys, LegalMaps, Dense, Within, Lists, DecodeField;
    if forall x | x in items :: LegalKeys(x.fields) {
      SliceFieldRoundTrip(t, items, later, dec, rest);
    } else {
      var i :| 0 <= i < |items| && !LegalKeys(items[i].fields);
      IllegalKeyIsWritten(t, items, i);
      ZeroEnumIsRejected(dec, EncodeMaps(t, items).0, i, rest);
    }
  }

  // ---- Within the limits, an archive can always be printed ------------------------------

  lemma FirstFrameFillsStrings(meta: KeyMetadata, v: Value)
    requires meta.dataType == STRING && v.Str?
    ensures EncodeField(meta, Some(v)).0.stringEnums != map[]
  {
    var t := meta.stringEnums;
    var c := if v.text in t then v.text else CleanString(v.text);
    assert c in AddString(t, c).1;
  }

  lemma GrownStaysFilled(a: KeyMetadata, b: KeyMetadata)
    requires Grows(a, b) && a.stringEnums != map[]
    ensures b.stringEnums != map[]
  {
    var s :| s in a.stringEnums;
  }

  /** After any run within the limits, every table can be printed in order: the
      archive that the round trip speaks of can be written. */
  lemma RunIsOrderly(ft: FloatText, uri: string, additional: map<string, string>, calls: seq<Call>)
    requires forall c | c in calls :: IsOrder(c.order, c.body.Keys)
    requires Taken(0, calls) != [] && Encodable(Taken(0, calls)[0].body)
    requires var types := SchemaOf(Taken(0, calls)[0].body);
      forall k | k in types :: WithinLimits(ft, k, types[k], Taken(0, calls))
    ensures var metas := Run(NewEncoder(uri, additional), calls).metas;
      forall i | 0 <= i < |metas| :: Orderly(metas[i]) && PrintableKey(metas[i])
  {
    var entries := Taken(0, calls);
    var st := NewEncoder(uri, additional);
    var metas := RunState(ft, uri, additional, calls);
    var ms := EncodeFields(metas, entries[0].body).0;
    FrameKeepsTrack(metas, entries[0], entries);
    RunKeepsTables(ms, entries[1..], entries);
    var end := Run(st, calls).metas;
    assert end == EncodeAll(ms, entries[1..]).0;
    forall i | 0 <= i < |end| ensures Orderly(end[i]) && PrintableKey(end[i]) {
      EncodeFieldsAt(metas, entries[0].body, i);
      FilledOrNotString(metas[i], SchemaOf(entries[0].body), entries[0].body, ms[i], end[i]);
      assert Sound(end[i]) && Fits(end[i]);
      SoundIsOrderly(end[i]);
      ReadableIsPrintable(ft, end[i]);
    }
  }

  lemma SoundIsOrderly(meta: KeyMetadata)
    requires Sound(meta) && (meta.dataType == STRING ==> meta.stringEnums != map[])
    ensures Orderly(meta)
  {
    var table :| Enumerates(meta.stringEnums, table);
    EnumeratesInOrder(meta.stringEnums, table);
  }

  lemma ReadableIsPrintable(ft: FloatText, meta: KeyMetadata)
    requires Sound(meta) && Fits(meta) && ReadableMeta(ft, meta)
    ensures PrintableKey(meta)
  {
    hide NextEnum;
    forall i | 0 <= i < |meta.mapEnums| ensures NextEnum(i) in meta.mapEnums {
      NextEnumSmall(i);
    }
  }

  lemma FilledOrNotString(meta: KeyMetadata, types: map<string, DataType>, body: Fields, m: KeyMetadata, end: KeyMetadata)
    requires types == SchemaOf(body) && meta.key in types && types[meta.key] == meta.dataType
    requires m == EncodeField(meta, Lookup(body, meta.key)).0 && Grows(m, end) && Grows(meta, m)
    ensures end.dataType == STRING ==> end.stringEnums != map[]
  {
    if meta.dataType == STRING {
      FirstFrameFillsStrings(meta, Unwrap(body[meta.key]).value);
      GrownStaysFilled(m, end);
    }
  }
}
