/**
 * Expected outputs from the repository's own test suite, and the
 * `undefined` array element that the one-line and multi-line forms write
 * differently, computed from the model.
 */
module Examples {
  import opened JsonValues
  import opened ReadableOptions
  import opened InlineStringifier
  import opened FullStringifier
  import opened FullLayout
  import opened ReadableJson

  /** The options most tests pass: `{ maxInlineLen: 40 }`. */
  const OPT: PartialOptions := EMPTY.(maxInlineLen := Present(40))


  /** `stringify([1, undefined])` is `[1, null]` on one line. */
  lemma UndefinedIsNullInArray()
    ensures StringifyResult(Arr([Num(1), Undef]), Omitted, NoOptions) == Formatted(Text("[1, null]"))
  {
  }

  /** The options `{ maxInlineLen: 40 }` resolve to. */
  const O40: Options := DEFAULTS.(maxInlineLen := 40)

  lemma OptResolves()
    ensures CallOptions(RecordArg(OPT), NoOptions) == O40
  {
  }

  /** A container of depth at most 2 whose one-line text fits 40 characters is written on one line. */
  lemma InlinedWithOpt(v: Value, text: string)
    requires v.IsComposite() && LeafDepth(v) <= 2
    requires Compact(O40, v) == text && |text| <= 40
    ensures StringifyResult(v, RecordArg(OPT), NoOptions) == Formatted(Text(text))
  {
    OptResolves();
    RenderChoice(O40, v, 0, 0);
  }

  lemma Join2(sep: string, x: string, y: string)
    ensures Join(sep, [x, y]) == x + sep + y
  {
    assert [x, y][1..] == [y];
  }

  lemma Join3(sep: string, x: string, y: string, z: string)
    ensures Join(sep, [x, y, z]) == x + sep + y + sep + z
  {
    assert [x, y, z][1..] == [y, z];
    Join2(sep, y, z);
  }

  lemma Join4(sep: string, w: string, x: string, y: string, z: string)
    ensures Join(sep, [w, x, y, z]) == w + sep + x + sep + y + sep + z
  {
    assert [w, x, y, z][1..] == [x, y, z];
    Join3(sep, x, y, z);
  }

  lemma ElemTexts4(o: Options, a: Value, b: Value, c: Value, d: Value)
    ensures ElemTexts(o, [a, b, c, d]) == [ElemText(o, a), ElemText(o, b), ElemText(o, c), ElemText(o, d)]
  {
  }

  lemma EntryTexts2(o: Options, e1: (string, Value), e2: (string, Value))
    requires !e1.1.Undef? && !e2.1.Undef?
    ensures Defined([e1, e2]) == [e1, e2]
    ensures EntryTexts(o, [e1, e2]) == [Quote(e1.0) + ":" + Compact(o, e1.1), Quote(e2.0) + ":" + Compact(o, e2.1)]
  {
  }

  /** The literal of a one-letter key. */
  lemma QuoteLetter(c: char)
    requires 'a' <= c <= 'z'
    ensures Quote([c]) == ['"', c, '"']
  {
    assert Escape([c]) == [c];
  }

  /** The literal of a one-digit number. */
  lemma DigitLiteral(n: int)
    requires 0 <= n < 10
    ensures Literal(Num(n)) == [(48 + n) as char]
  {
  }

  lemma CompactFlatArray()
    ensures Compact(O40, Arr([Num(1), Num(2), Bool(true), Bool(false)])) == "[1, 2, true, false]"
  {
    CompactArrayLayout(O40, [Num(1), Num(2), Bool(true), Bool(false)]);
    ElemTexts4(O40, Num(1), Num(2), Bool(true), Bool(false));
    DigitLiteral(1);
    DigitLiteral(2);
    Join4(", ", "1", "2", "true", "false");
  }

  /** `[1, 2, true, false]` with `{ maxInlineLen: 40 }`. */
  lemma InlineArrayTest()
    ensures StringifyResult(Arr([Num(1), Num(2), Bool(true), Bool(false)]), RecordArg(OPT), NoOptions)
         == Formatted(Text("[1, 2, true, false]"))
  {
    CompactFlatArray();
    assert LeafDepth(Arr([Num(1), Num(2), Bool(true), Bool(false)])) == 1;
    InlinedWithOpt(Arr([Num(1), Num(2), Bool(true), Bool(false)]), "[1, 2, true, false]");
  }

  lemma CompactFlatObject()
    ensures Compact(O40, Obj([("a", Num(1)), ("b", Num(2))])) == "{\"a\":1, \"b\":2}"
  {
    CompactObjectLayout(O40, [("a", Num(1)), ("b", Num(2))]);
    EntryTexts2(O40, ("a", Num(1)), ("b", Num(2)));
    QuoteLetter('a');
    QuoteLetter('b');
    DigitLiteral(1);
    DigitLiteral(2);
    Join2(", ", "\"a\":1", "\"b\":2");
  }

  /** `{"a":1, "b":2}` with `{ maxInlineLen: 40 }`. */
  lemma InlineObjectTest()
    ensures StringifyResult(Obj([("a", Num(1)), ("b", Num(2))]), RecordArg(OPT), NoOptions)
         == Formatted(Text("{\"a\":1, \"b\":2}"))
  {
    CompactFlatObject();
    assert LeafDepth(Obj([("a", Num(1)), ("b", Num(2))])) == 1;
    InlinedWithOpt(Obj([("a", Num(1)), ("b", Num(2))]), "{\"a\":1, \"b\":2}");
  }

  lemma CompactDroppedObject()
    ensures Compact(O40, Obj([("a", Undef), ("b", Num(2))])) == "{\"b\":2}"
  {
    CompactObjectLayout(O40, [("a", Undef), ("b", Num(2))]);
    assert Defined([("a", Undef), ("b", Num(2))]) == [("b", Num(2))] by {
      assert [("a", Undef), ("b", Num(2))][1..] == [("b", Num(2))];
    }
    QuoteLetter('b');
    DigitLiteral(2);
    assert Compact(O40, Num(2)) == "2";
    assert EntryTexts(O40, [("b", Num(2))])[0] == Quote("b") + ":" + "2" == "\"b\":2";
    assert EntryTexts(O40, [("b", Num(2))]) == ["\"b\":2"];
  }

  /** `stringify({a: undefined, b: 2}, OPT)` is `{"b":2}`: the `undefined` property is dropped. */
  lemma UndefinedValueDropped()
    ensures StringifyResult(Obj([("a", Undef), ("b", Num(2))]), RecordArg(OPT), NoOptions)
         == Formatted(Text("{\"b\":2}"))
  {
    CompactDroppedObject();
    assert LeafDepth(Obj([("a", Undef), ("b", Num(2))])) == 1;
    InlinedWithOpt(Obj([("a", Undef), ("b", Num(2))]), "{\"b\":2}");
  }

  lemma CompactOneUndef(o: Options)
    requires o.inlineArraySpaceAfterComma
    ensures Compact(o, Arr([Num(1), Undef])) == "[1, null]"
  {
    CompactArrayLayout(o, [Num(1), Undef]);
    assert ElemTexts(o, [Num(1), Undef]) == ["1", "null"];
  }

  lemma DepthOneUndef()
    ensures LeafDepth(Arr([Num(1), Undef])) == 1
  {
    assert [Num(1), Undef][1..] == [Undef];
    assert ElemsDepth([Undef]) == 1;
  }

  lemma LineOne(o: Options)
    ensures ElemLine(o, Num(1), 2, 1) == Text("\n  1")
  {
    assert Spaces(2) == "  ";
  }

  lemma LineUndef(o: Options)
    ensures ElemLine(o, Undef, 2, 1) == Text("\n  undefined")
  {
    assert Spaces(2) == "  ";
  }

  lemma ElemsOneUndefTail(o: Options)
    ensures FullElems(o, [Num(1), Undef], 1, 2, 1) == Text(",\n  undefined")
  {
    LineUndef(o);
    assert FullElems(o, [Num(1), Undef], 2, 2, 1) == Text("");
  }

  lemma ElemsOneUndef(o: Options)
    ensures FullElems(o, [Num(1), Undef], 0, 2, 1) == Text("\n  1,\n  undefined")
  {
    LineOne(o);
    ElemsOneUndefTail(o);
    assert "\n  1" + ",\n  undefined" == "\n  1,\n  undefined";
  }

  lemma FullOneUndef(o: Options)
    requires o.spaceLen == 2
    ensures Full(o, Arr([Num(1), Undef]), 0) == Text("[\n  1,\n  undefined\n]")
  {
    DepthOneUndef();
    ElemsOneUndef(o);
    assert CloseLine(0, "]") == "\n]";
  }

  /**
   * The same array laid out on several lines, which happens once it does
   * not fit `maxInlineLen`: there the element is the text `undefined`, which
   * is not JSON.
   */
  lemma UndefinedInMultiLineArray()
    ensures Render(DEFAULTS.(maxInlineLen := 5), Arr([Num(1), Undef]), 0, 0) == Text("[\n  1,\n  undefined\n]")
    ensures Compact(DEFAULTS.(maxInlineLen := 5), Arr([Num(1), Undef])) == "[1, null]"
  {
    var o := DEFAULTS.(maxInlineLen := 5);
    CompactOneUndef(o);
    RenderChoice(o, Arr([Num(1), Undef]), 0, 0);
    FullOneUndef(o);
  }

  /** `[1]` and `[1, 2]` on one line. */
  lemma CompactSmallArrays(o: Options)
    requires o.inlineArraySpaceAfterComma
    ensures Compact(o, Arr([Num(1)])) == "[1]"
    ensures Compact(o, Arr([Num(1), Num(2)])) == "[1, 2]"
  {
    CompactArrayLayout(o, [Num(1)]);
    CompactArrayLayout(o, [Num(1), Num(2)]);
  }

  /** The options of the `maxInlineLen: 10` test. */
  const O10: Options := DEFAULTS.(maxInlineLen := 10)

  lemma TenOptions()
    ensures CallOptions(RecordArg(EMPTY.(maxInlineLen := Present(10))), NoOptions) == O10
  {
  }

  /** `  "a": ` leaves room for `[1]`. */
  lemma EntryAInline()
    ensures EntryLine(O10, KV("a", "\"a\"", Arr([Num(1)])), 2, 3, 2) == Text("\n  \"a\": [1]")
  {
    CompactSmallArrays(O10);
    assert LeafDepth(Arr([Num(1)])) == 1;
    EntryValuePlacement(O10, KV("a", "\"a\"", Arr([Num(1)])), 2, 3, 2);
  }

  /** `  "b": ` does not leave room for `[1, 2]`. */
  lemma EntryBFull()
    ensures Render(O10, Arr([Num(1), Num(2)]), 7, 2) == Full(O10, Arr([Num(1), Num(2)]), 2)
  {
    CompactSmallArrays(O10);
    RenderChoice(O10, Arr([Num(1), Num(2)]), 7, 2);
  }

  /**
   * The `maxInlineLen: 10` test: after the key line `  "a": ` (7 characters)
   * `[1]` still fits and stays on the key's line, while `[1, 2]` after
   * `  "b": ` would reach 13 and is laid out over several lines.
   */
  lemma MaxInlineLenTen()
    ensures CallOptions(RecordArg(EMPTY.(maxInlineLen := Present(10))), NoOptions) == O10
    ensures EntryLine(O10, KV("a", "\"a\"", Arr([Num(1)])), 2, 3, 2) == Text("\n  \"a\": [1]")
    ensures Render(O10, Arr([Num(1), Num(2)]), 7, 2) == Full(O10, Arr([Num(1), Num(2)]), 2)
  {
    TenOptions();
    EntryAInline();
    EntryBFull();
  }

  /** The properties of the alignment test's object, in order. */
  const ALIGN_ENTRIES: seq<(string, Value)> :=
    [("123", Arr([Num(1), Num(2), Num(3)])), ("a", Num(1)), ("thisOneIsWayTooLong", Num(2))]

  /** Three defined properties are collected in order, each with its key's literal. */
  lemma CollectThree(k1: string, v1: Value, k2: string, v2: Value, k3: string, v3: Value)
    requires !v1.Undef? && !v2.Undef? && !v3.Undef?
    ensures DefinedKVs([(k1, v1), (k2, v2), (k3, v3)])
         == [KV(k1, Quote(k1), v1), KV(k2, Quote(k2), v2), KV(k3, Quote(k3), v3)]
  {
    var e := [(k1, v1), (k2, v2), (k3, v3)];
    assert DefinedKVs(e[..1]) == [KV(k1, Quote(k1), v1)] by {
      assert e[..1][..0] == [];
    }
    assert DefinedKVs(e[..2]) == DefinedKVs(e[..1]) + [KV(k2, Quote(k2), v2)] by {
      assert e[..2][..1] == e[..1];
    }
    assert e[..2] == e[..|e| - 1];
  }

  /**
   * Key literals of widths 5 and 3 within `maxKeyAlignLen`, and one beyond
   * it, give the common width 5.
   */
  lemma WidthOfThree(o: Options, kvs: seq<KV>)
    requires |kvs| == 3 && 5 <= o.maxKeyAlignLen
    requires |kvs[0].keyJson| == 5 && |kvs[1].keyJson| == 3 && |kvs[2].keyJson| > o.maxKeyAlignLen
    ensures KeyAlignLen(o, kvs) == 5
  {
    assert KeyAlignLen(o, kvs[..1]) == 5 by {
      assert kvs[..1][..0] == [];
    }
    assert KeyAlignLen(o, kvs[..2]) == 5 by {
      assert kvs[..2][..1] == kvs[..1];
    }
    assert kvs[..|kvs| - 1] == kvs[..2];
  }

  /** The items the alignment test's object collects. */
  lemma AlignItems()
    ensures DefinedKVs(ALIGN_ENTRIES)
         == [KV("123", Quote("123"), Arr([Num(1), Num(2), Num(3)])), KV("a", Quote("a"), Num(1)),
             KV("thisOneIsWayTooLong", Quote("thisOneIsWayTooLong"), Num(2))]
  {
    CollectThree("123", Arr([Num(1), Num(2), Num(3)]), "a", Num(1), "thisOneIsWayTooLong", Num(2));
  }

  /** The literals of `123` and `a`, padded to the width 5. */
  lemma PadShortKeys()
    ensures |Quote("123")| == 5 && Pad(Quote("123"), 5) == "\"123\""
    ensures |Quote("a")| == 3 && Pad(Quote("a"), 5) == "\"a\"  "
  {
    QuotePlain("123");
    QuoteLetter('a');
    assert Spaces(2) == "  ";
  }

  /**
   * The key widths of the alignment test: `"123"` and `"a"` fit the limit
   * of 16 and share the width 5, so `"a"` gets two spaces; the literal of
   * `thisOneIsWayTooLong` is longer than 16 and is written unpadded.
   */
  lemma KeyAlignment()
    ensures var kvs := DefinedKVs(ALIGN_ENTRIES);
      && |kvs| == 3
      && kvs[2].keyJson == Quote("thisOneIsWayTooLong")
      && KeyAlignLen(O40, kvs) == 5
      && Pad(kvs[0].keyJson, 5) == "\"123\""
      && Pad(kvs[1].keyJson, 5) == "\"a\"  "
      && Pad(kvs[2].keyJson, 5) == kvs[2].keyJson
  {
    AlignItems();
    PadShortKeys();
    WidthOfThree(O40, DefinedKVs(ALIGN_ENTRIES));
  }
}
