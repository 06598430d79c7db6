/** The metadata printer, loop by loop as the encoder runs it, proved to produce
    one of the texts that PrintsMetadata admits. */
module FimsPrinter {
  import opened Text
  import opened FimsValues
  import opened FimsTables
  import opened FimsMetadata
  import opened FimsArchive

  lemma {:induction false} AdditionalLinesAppend(m: map<string, string>, order: seq<string>, k: string)
    requires k in m && forall x | x in order :: x in m
    ensures AdditionalLines(m, order + [k]) == AdditionalLines(m, order) + [k + ":" + m[k]]
  {
    if order != [] {
      assert (order + [k])[1..] == order[1..] + [k];
      AdditionalLinesAppend(m, order[1..], k);
    } else {
      assert (order + [k])[1..] == [];
    }
  }

  lemma {:induction false} ElementsAppend(ft: FloatText, m: Fields, order: seq<string>, k: string)
    requires PrintableFields(m) && k in m && forall x | x in order :: x in m
    ensures Elements(ft, m, order + [k]) == Elements(ft, m, order) + [Element(ft, k, m[k])]
  {
    hide Element, Printable;
    if order != [] {
      assert (order + [k])[1..] == order[1..] + [k];
      ElementsAppend(ft, m, order[1..], k);
    } else {
      assert (order + [k])[1..] == [];
    }
  }

  lemma TerminatedOne(parts: seq<string>, p: string, c: char)
    ensures Terminated(parts + [p], c) == Terminated(parts, c) + (p + [c])
  {
    TerminatedAppend(parts, [p], c);
    assert Terminated([p], c) == p + [c] + "";
  }

  lemma TerminatedNothing(c: char)
    ensures Terminated([], c) == ""
  {
  }

  /** The additional data, one `key:value` line each, in the order Go ranges it. */
  method StringifyAdditionalData(m: map<string, string>) returns (r: Result<string>, ghost order: seq<string>)
    ensures r.Err? <==> m == map[]
    ensures IsOrder(order, m.Keys)
    ensures r.Ok? ==> r.value == Terminated(AdditionalLines(m, order), '\n')
  {
    order := [];
    var text, pending := "", m.Keys;
    while pending != {}
      invariant pending <= m.Keys && IsOrder(order, m.Keys - pending)
      invariant text == Terminated(AdditionalLines(m, order), '\n')
      decreases |pending|
    {
      var k :| k in pending;
      AdditionalLinesAppend(m, order, k);
      TerminatedOne(AdditionalLines(m, order), k + ":" + m[k], '\n');
      OrderGrows(order, m.Keys, pending, k);
      text := text + (k + ":" + m[k] + "\n");
      order := order + [k];
      pending := pending - {k};
    }
    r := if m == map[] then Err else Ok(text);
  }

  /** The strings of a table placed by enumeration. Strings that share an enumeration share
      a slot, which the last one placed keeps. */
  method OrderedStrings(t: map<string, byte>) returns (table: seq<string>)
    requires exists order :: InOrder(t, order)
    ensures Slots(t, table)
  {
    hide NextEnum, Slot, InOrder;
    ghost var order :| InOrder(t, order);
    table := seq(|t|, _ => "");
    var pending := t.Keys;
    while pending != {}
      invariant pending <= t.Keys && |table| == |t|
      invariant forall k | 256 <= k < |table| :: table[k] == ""
      invariant forall s | s in t && s !in pending :: Slot(t[s]) < |t| && Holds(t, table[Slot(t[s])], t[s])
      decreases |pending|
    {
      var s :| s in pending;
      SlotInRange(t, order, s);
      table := table[Slot(t[s]) := s];
      forall s' | s' in t && s' !in pending - {s}
        ensures Slot(t[s']) < |t| && Holds(t, table[Slot(t[s'])], t[s'])
      {
        if Slot(t[s']) == Slot(t[s]) {
          SlotInjective(t[s'], t[s]);
        }
      }
      pending := pending - {s};
    }
    forall k | 0 <= k < |table| && k < 256 ensures Holds(t, table[k], NextEnum(k)) {
      OrderAt(t, order, k);
      SlotOfNext(k);
    }
  }

  predicate Holds(t: map<string, byte>, s: string, e: byte) {
    s in t && t[s] == e
  }

  /** The index byte arithmetic gives an enumeration: one less, and 255 for 0. */
  function Slot(e: byte): nat {
    (e + 255) % 256
  }

  lemma SlotInjective(a: byte, b: byte)
    requires Slot(a) == Slot(b)
    ensures a == b
  {
  }

  lemma SlotOfNext(i: nat)
    ensures Slot(NextEnum(i)) == i % 256
  {
    var r := i % 256;
    if r == 255 {
      assert (i + 1) % 256 == 0;
    } else {
      assert (i + 1) % 256 == r + 1;
    }
  }

  lemma OrderAt(t: map<string, byte>, order: seq<string>, i: nat)
    requires InOrder(t, order) && i < |t|
    ensures i < |order| && order[i] in t && t[order[i]] == NextEnum(i)
  {
  }

  lemma SlotInRange(t: map<string, byte>, order: seq<string>, s: string)
    requires InOrder(t, order) && s in t
    ensures Slot(t[s]) < |t| && Slot(t[s]) < 256
  {
    hide NextEnum, Slot;
    var i :| 0 <= i < |order| && order[i] == s;
    SlotOfNext(i);
  }

  /** One map as `key:(type)value` elements separated by semicolons. */
  method StringifyMap(ft: FloatText, m: Fields) returns (r: Result<string>)
    ensures r.Ok? <==> PrintableFields(m)
    ensures r.Ok? ==> PrintsMap(ft, r.value, m)
  {
    ghost var order := [];
    var line, pending := "", m.Keys;
    while pending != {}
      invariant pending <= m.Keys && IsOrder(order, m.Keys - pending)
      invariant forall k | k in m && k !in pending :: Printable(m[k])
      invariant PrintableFields(m) ==> line == Terminated(Elements(ft, m, order), ';')
      decreases |pending|
    {
      var k :| k in pending;
      if !Printable(m[k]) {
        return Err;
      }
      if PrintableFields(m) {
        ElementsAppend(ft, m, order, k);
        TerminatedOne(Elements(ft, m, order), Element(ft, k, m[k]), ';');
      }
      OrderGrows(order, m.Keys, pending, k);
      line := line + (Element(ft, k, m[k]) + ";");
      order := order + [k];
      pending := pending - {k};
    }
    assert PrintableFields(m);
    if m != map[] {
      OrderOfNothing(order, m.Keys);
      TerminatedIsJoined(Elements(ft, m, order), ';');
      line := line[..|line| - 1];
      assert line == Join(Elements(ft, m, order), ';');
    } else {
      OrderOfNothing(order, m.Keys);
    }
    assert IsOrder(order, m.Keys);
    r := Ok(line);
  }

  /** The first n enumerations are all there, and every map can be written as text. */
  predicate PrintableMaps(t: map<byte, Fields>) {
    forall i | 0 <= i < |t| :: NextEnum(i) in t && PrintableFields(t[NextEnum(i)])
  }

  predicate PrintableKey(meta: KeyMetadata) {
    meta.dataType == MAP_SLICE ==> PrintableMaps(meta.mapEnums)
  }

  /** The maps of a table, one line each, counting the enumerations up from 1. */
  method StringifyMapEnums(ft: FloatText, t: map<byte, Fields>) returns (r: Result<string>, ghost lines: seq<string>)
    ensures r.Ok? ==> PrintsMaps(ft, lines, t) && r.value == Terminated(lines, '\n')
    ensures r.Ok? <==> PrintableMaps(t)
  {
    hide PrintsMap, PrintableFields, Terminated;
    lines := [];
    var text := "";
    TerminatedNothing('\n');
    for i := 0 to |t|
      invariant |lines| == i && text == Terminated(lines, '\n')
      invariant forall j | 0 <= j < i :: NextEnum(j) in t && PrintsMap(ft, lines[j], t[NextEnum(j)]) && PrintableFields(t[NextEnum(j)])
    {
      var b := NextEnum(i);
      if b !in t {
        r := Err;
        return;
      }
      var line := StringifyMap(ft, t[b]);
      if line.Err? {
        r := Err;
        return;
      }
      TerminatedOne(lines, line.value, '\n');
      text := text + (line.value + "\n");
      lines := lines + [line.value];
    }
    r := Ok(text);
  }

  /** The tables that a key of this type prints can be put in order. */
  ghost predicate Orderly(meta: KeyMetadata) {
    && IsDataType(meta.dataType)
    && (meta.dataType == STRING ==> exists order :: InOrder(meta.stringEnums, order))
    && (meta.dataType == STRING ==> meta.stringEnums != map[])
  }

  method PrintKey(ft: FloatText, meta: KeyMetadata) returns (r: Result<string>, ghost lines: seq<string>)
    requires Orderly(meta)
    ensures r.Ok? <==> PrintableKey(meta)
    ensures r.Ok? ==> PrintsKey(ft, lines, meta) && r.value == Terminated(lines, '\n')
  {
    hide PrintsMap, InOrder, PrintableMaps;
    var head := KeyLine(meta) + "\n";
    lines := [KeyLine(meta)];
    TerminatedAppend([KeyLine(meta)], [], '\n');
    assert Terminated([KeyLine(meta)], '\n') == KeyLine(meta) + "\n" + "";
    if meta.dataType == STRING {
      var table := OrderedStrings(meta.stringEnums);
      TerminatedAppend([KeyLine(meta)], table, '\n');
      TerminatedIsJoined(table, '\n');
      lines := lines + table;
      assert lines[1..] == table;
      r := Ok(head + (Join(table, '\n') + "\n"));
    } else if meta.dataType == MAP_SLICE {
      ghost var enums;
      var text;
      text, enums := StringifyMapEnums(ft, meta.mapEnums);
      if text.Err? {
        r := Err;
        return;
      }
      TerminatedAppend([KeyLine(meta)], enums, '\n');
      lines := lines + enums;
      assert lines[1..] == enums;
      r := Ok(head + text.value);
    } else {
      r := Ok(head);
    }
  }

  lemma {:induction false} FlattenAppend(groups: seq<seq<string>>, g: seq<string>)
    ensures Flatten(groups + [g]) == Flatten(groups) + g
  {
    if groups == [] {
      assert Flatten([g]) == g + Flatten([]);
    } else {
      assert (groups + [g])[1..] == groups[1..] + [g];
      FlattenAppend(groups[1..], g);
      assert groups[0] + (Flatten(groups[1..]) + g) == (groups[0] + Flatten(groups[1..])) + g;
    }
  }

  lemma PrintsNothing(ft: FloatText)
    ensures PrintsKeys(ft, [], []) && Terminated(Flatten([]), '\n') == ""
  {
  }

  lemma PrintsOneMore(ft: FloatText, groups: seq<seq<string>>, metas: seq<KeyMetadata>, i: nat, lines: seq<string>)
    requires i < |metas| && PrintsKeys(ft, groups, metas[..i]) && PrintsKey(ft, lines, metas[i])
    ensures PrintsKeys(ft, groups + [lines], metas[..i + 1])
    ensures Terminated(Flatten(groups + [lines]), '\n') == Terminated(Flatten(groups), '\n') + Terminated(lines, '\n')
  {
    hide PrintsKey;
    FlattenAppend(groups, lines);
    TerminatedAppend(Flatten(groups), lines, '\n');
  }

  method PrintKeys(ft: FloatText, metas: seq<KeyMetadata>) returns (r: Result<string>, ghost groups: seq<seq<string>>)
    requires forall i | 0 <= i < |metas| :: Orderly(metas[i])
    ensures r.Ok? <==> forall i | 0 <= i < |metas| :: PrintableKey(metas[i])
    ensures r.Ok? ==> PrintsKeys(ft, groups, metas) && r.value == Terminated(Flatten(groups), '\n')
  {
    hide PrintsKey, Orderly, Terminated, Flatten, PrintableKey;
    groups := [];
    var text := "";
    PrintsNothing(ft);
    for i := 0 to |metas|
      invariant forall j | 0 <= j < i :: PrintableKey(metas[j])
      invariant PrintsKeys(ft, groups, metas[..i]) && text == Terminated(Flatten(groups), '\n')
    {
      ghost var lines;
      var key;
      key, lines := PrintKey(ft, metas[i]);
      if key.Err? {
        r := Err;
        return;
      }
      PrintsOneMore(ft, groups, metas, i, lines);
      text := text + key.value;
      groups := groups + [lines];
    }
    assert metas[..|metas|] == metas;
    r := Ok(text);
  }

  lemma PrintedText(text: string, uri: string, additional: seq<string>, keys: seq<string>)
    requires text == uri + "\n" + (Terminated(additional, '\n') + "\n") + Terminated(keys, '\n')
    ensures text == Terminated([uri] + additional + [""] + keys, '\n')
    ensures |text| >= 1 && text[|text| - 1] == '\n'
  {
    var lines := [uri] + additional + [""] + keys;
    TerminatedAppend([uri] + additional + [""], keys, '\n');
    TerminatedAppend([uri] + additional, [""], '\n');
    TerminatedAppend([uri], additional, '\n');
    assert Terminated([uri], '\n') == uri + "\n" + "";
    assert Terminated([""], '\n') == "" + "\n" + "";
    TerminatedIsJoined(lines, '\n');
  }

  lemma PrintsWith(ft: FloatText, text: string, st: EncoderState, order: seq<string>, groups: seq<seq<string>>)
    requires IsOrder(order, st.additional.Keys) && PrintsKeys(ft, groups, st.metas)
    requires text + "\n" == Terminated([st.uri] + AdditionalLines(st.additional, order) + [""] + Flatten(groups), '\n')
    ensures PrintsMetadata(ft, text, st)
  {
    hide PrintsKeys, Flatten, Terminated;
  }

  /** The metadata file of the encoder. It fails exactly when there is no additional
      data or some map holds a value that is not a string, a bool or a number. */
  method CreateMetadata(ft: FloatText, ghost st: EncoderState, uri: string, additional: map<string, string>, metas: seq<KeyMetadata>)
      returns (r: Result<string>)
    requires st.uri == uri && st.additional == additional && st.metas == metas
    requires forall i | 0 <= i < |metas| :: Orderly(metas[i])
    ensures r.Ok? <==> additional != map[] && forall i | 0 <= i < |metas| :: PrintableKey(metas[i])
    ensures r.Ok? ==> PrintsMetadata(ft, r.value, st)
  {
    hide PrintsKeys, Flatten, Terminated, IsOrder, Orderly, AdditionalLines, PrintableKey;
    ghost var order, groups;
    var extra, keys;
    extra, order := StringifyAdditionalData(additional);
    if extra.Err? {
      return Err;
    }
    keys, groups := PrintKeys(ft, metas);
    if keys.Err? {
      return Err;
    }
    var text := uri + "\n" + (extra.value + "\n") + keys.value;
    PrintedText(text, uri, AdditionalLines(additional, order), Flatten(groups));
    r := Ok(text[..|text| - 1]);
    assert r.value + "\n" == text;
    PrintsWith(ft, r.value, st, order, groups);
  }
}
