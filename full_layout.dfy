/**
 * Properties of the multi-line renderer and of the dispatcher in front of
 * it: which form a value takes, when a `RangeError` escapes, how object keys
 * line up, and the text of a multi-line container as its child lines joined
 * by commas.
 */
module FullLayout {
  import opened JsonValues
  import opened ReadableOptions
  import opened InlineStringifier
  import opened FullStringifier

  /**
   * The dispatcher's choice, stated against the one-line text `Compact`:
   * `undefined` stays `undefined`, a primitive is its literal wherever it
   * stands, and a container is its one-line text exactly when it passes the
   * depth gate and fits the room left after its prefix, else multi-line.
   */
  lemma RenderChoice(o: Options, v: Value, inlinePrefixLen: int, fullIndentLen: int)
    ensures v.Undef? ==> Render(o, v, inlinePrefixLen, fullIndentLen) == Undefined
    ensures !v.IsComposite() && !v.Undef? ==> Render(o, v, inlinePrefixLen, fullIndentLen) == Text(Literal(v))
    ensures v.IsComposite() ==>
      Render(o, v, inlinePrefixLen, fullIndentLen)
      == if LeafDepthLEQ(v, o.maxInlineDepth) && inlinePrefixLen + |Compact(o, v)| <= o.maxInlineLen
         then Text(Compact(o, v))
         else Full(o, v, fullIndentLen)
  {
  }

  /** With a non-negative `spaceLen` and indentation nothing raises a `RangeError`. */
  lemma {:induction false} RenderTotal(o: Options, v: Value, inlinePrefixLen: int, fullIndentLen: int)
    requires o.spaceLen >= 0 && fullIndentLen >= 0
    ensures !Render(o, v, inlinePrefixLen, fullIndentLen).RangeError?
    decreases LeafDepth(v), 2, 0
  {
    if v.IsComposite() && InlineAttempt(o, v, inlinePrefixLen).None? {
      FullTotal(o, v, fullIndentLen);
    }
  }

  lemma {:induction false} FullTotal(o: Options, v: Value, indent: int)
    requires v.IsComposite() && o.spaceLen >= 0 && indent >= 0
    ensures Full(o, v, indent).Text?
    decreases LeafDepth(v), 1, 0
  {
    var ci := indent + o.spaceLen;
    if v.Arr? {
      ElemsDepthAtMost(v.elems, LeafDepth(v));
      FullElemsTotal(o, v.elems, 0, ci, LeafDepth(v));
    } else {
      DefinedKVsShallower(v.entries);
      var kvs := DefinedKVs(v.entries);
      FullEntriesTotal(o, kvs, 0, ci, KeyAlignLen(o, kvs), LeafDepth(v));
    }
  }

  lemma {:induction false} FullElemsTotal(o: Options, es: seq<Value>, i: nat, ci: nat, bound: nat)
    requires o.spaceLen >= 0 && i <= |es|
    requires forall k :: 0 <= k < |es| ==> LeafDepth(es[k]) < bound
    ensures FullElems(o, es, i, ci, bound).Text?
    decreases bound, 0, |es| - i + 1
  {
    if i < |es| {
      RenderTotal(o, es[i], ci, ci);
      FullElemsTotal(o, es, i + 1, ci, bound);
    }
  }

  lemma {:induction false} FullEntriesTotal(o: Options, kvs: seq<KV>, i: nat, ki: nat, align: nat, bound: nat)
    requires o.spaceLen >= 0 && i <= |kvs|
    requires forall k :: 0 <= k < |kvs| ==> LeafDepth(kvs[k].v) < bound
    ensures FullEntries(o, kvs, i, ki, align, bound).Text?
    decreases bound, 0, |kvs| - i + 1
  {
    if i < |kvs| {
      var key := Pad(kvs[i].keyJson, align);
      RenderTotal(o, kvs[i].v, ki + |key| + 2, ki);
      FullEntriesTotal(o, kvs, i + 1, ki, align, bound);
    }
  }

  /**
   * For the document itself (`stringify(v, inlinePrefixLen, 0)`), a
   * `RangeError` escapes exactly when `spaceLen` is negative and the value is
   * a container that is not written on one line.
   */
  lemma RootThrowsIff(o: Options, v: Value, inlinePrefixLen: int)
    ensures Render(o, v, inlinePrefixLen, 0).RangeError?
        <==> o.spaceLen < 0 && v.IsComposite() && InlineAttempt(o, v, inlinePrefixLen).None?
  {
    if o.spaceLen >= 0 {
      RenderTotal(o, v, inlinePrefixLen, 0);
    }
  }

  /**
   * Key alignment: every key literal not longer than `maxKeyAlignLen` is
   * padded to the common width, so the values after those keys start in
   * one column; a longer key is written as it is.
   */
  lemma KeyColumn(o: Options, kvs: seq<KV>, k: nat)
    requires k < |kvs|
    ensures |kvs[k].keyJson| <= o.maxKeyAlignLen ==> |Pad(kvs[k].keyJson, KeyAlignLen(o, kvs))| == KeyAlignLen(o, kvs)
    ensures |kvs[k].keyJson| > o.maxKeyAlignLen ==>
      Pad(kvs[k].keyJson, KeyAlignLen(o, kvs)) == kvs[k].keyJson
  {
    KeyAlignLenIsMax(o, kvs);
  }

  /**
   * Budget threading for an object entry: its value is dispatched with the
   * key line (indentation, padded key and `": "`) as inline prefix, so a
   * container value stays on the key's line exactly when it passes the depth
   * gate and fits what that prefix leaves of `maxInlineLen`; otherwise it is
   * laid out over several lines indented like the key.
   */
  lemma EntryValuePlacement(o: Options, kv: KV, ki: nat, align: nat, bound: nat)
    requires LeafDepth(kv.v) < bound && kv.v.IsComposite()
    ensures var prefix := ki + |Pad(kv.keyJson, align)| + 2;
      LeafDepthLEQ(kv.v, o.maxInlineDepth) && prefix + |Compact(o, kv.v)| <= o.maxInlineLen ==>
        EntryLine(o, kv, ki, align, bound)
        == Text((NEWLINE + Spaces(ki)) + ((Pad(kv.keyJson, align) + ": ") + Compact(o, kv.v)))
    ensures var prefix := ki + |Pad(kv.keyJson, align)| + 2;
      !(LeafDepthLEQ(kv.v, o.maxInlineDepth) && prefix + |Compact(o, kv.v)| <= o.maxInlineLen) ==>
        Render(o, kv.v, prefix, ki) == Full(o, kv.v, ki)
  {
    RenderChoice(o, kv.v, ki + |Pad(kv.keyJson, align)| + 2, ki);
  }

  /**
   * Budget threading for an array element: it is dispatched with the
   * element indentation as both its inline prefix and its own indentation.
   */
  lemma ElemPlacement(o: Options, e: Value, ci: nat, bound: nat)
    requires LeafDepth(e) < bound && e.IsComposite()
    ensures LeafDepthLEQ(e, o.maxInlineDepth) && ci + |Compact(o, e)| <= o.maxInlineLen ==>
      ElemLine(o, e, ci, bound) == Text((NEWLINE + Spaces(ci)) + Compact(o, e))
    ensures !(LeafDepthLEQ(e, o.maxInlineDepth) && ci + |Compact(o, e)| <= o.maxInlineLen) ==>
      Render(o, e, ci, ci) == Full(o, e, ci)
  {
    RenderChoice(o, e, ci, ci);
  }

  /** The item `getSortedKVs` makes of an entry. */
  function ItemOf(e: (string, Value)): (r: KV) {
    KV(e.0, Quote(e.0), e.1)
  }

  /** Dropping `undefined` entries commutes with appending one entry at the end. */
  lemma {:induction false} DefinedSnoc(kvs: seq<(string, Value)>, e: (string, Value))
    ensures Defined(kvs + [e]) == Defined(kvs) + (if e.1.Undef? then [] else [e])
    decreases |kvs|
  {
    if kvs == [] {
      assert [] + [e] == [e];
      assert [e][1..] == [];
    } else {
      assert (kvs + [e])[0] == kvs[0];
      assert (kvs + [e])[1..] == kvs[1..] + [e];
      DefinedSnoc(kvs[1..], e);
    }
  }

  /**
   * The entries `getSortedKVs` collects for the multi-line form are exactly
   * those the one-line form writes, in the same order: the entries whose
   * value is not `undefined`, each with its key's literal.
   */
  lemma {:induction false} CollectedAreDefined(entries: seq<(string, Value)>)
    ensures |DefinedKVs(entries)| == |Defined(entries)|
    ensures forall k :: 0 <= k < |DefinedKVs(entries)| ==> DefinedKVs(entries)[k] == ItemOf(Defined(entries)[k])
    decreases |entries|
  {
    if entries != [] {
      var init := entries[..|entries| - 1];
      var last := entries[|entries| - 1];
      assert init + [last] == entries;
      CollectedAreDefined(init);
      DefinedSnoc(init, last);
    }
  }

  /**
   * In a multi-line array an `undefined` element is written as the text
   * `undefined`, while the one-line form writes `null` for it.
   */
  lemma UndefinedElementLine(o: Options, ci: nat, bound: nat)
    requires bound > 0
    ensures ElemLine(o, Undef, ci, bound) == Text(NEWLINE + Spaces(ci) + "undefined")
    ensures ElemText(o, Undef) == "null"
  {
  }

  /** The text of a line, or nothing for a line that raises an error. */
  function TextOf(line: Outcome): (r: string) {
    if line.Text? then line.s else ""
  }

  /** The lines of the elements (the depth bound only guards the recursion). */
  function ElemLines(o: Options, es: seq<Value>, ci: nat, bound: nat): (r: seq<string>)
    ensures |r| == |es|
  {
    seq(|es|, k requires 0 <= k < |es| =>
      if LeafDepth(es[k]) < bound then TextOf(ElemLine(o, es[k], ci, bound)) else "")
  }

  /** The lines of the entries (the depth bound only guards the recursion). */
  function EntryLines(o: Options, kvs: seq<KV>, ki: nat, align: nat, bound: nat): (r: seq<string>)
    ensures |r| == |kvs|
  {
    seq(|kvs|, k requires 0 <= k < |kvs| =>
      if LeafDepth(kvs[k].v) < bound then TextOf(EntryLine(o, kvs[k], ki, align, bound)) else "")
  }

  /** The comma in front of the lines from index `i` on: there is one unless they are all or none of the lines. */
  function Lead(i: nat, n: nat): (r: string) {
    if 0 < i < n then "," else ""
  }

  /** Lines `ls[i..]` with their leading comma, as the line at `i` followed by the rest. */
  lemma JoinStep(ls: seq<string>, i: nat, rest: string)
    requires i < |ls|
    requires rest == Lead(i + 1, |ls|) + Join(",", ls[i + 1..])
    ensures (if i == 0 then ls[i] else "," + ls[i]) + rest == Lead(i, |ls|) + Join(",", ls[i..])
  {
    assert ls[i..] == [ls[i]] + ls[i + 1..];
    JoinCons(",", ls[i], ls[i + 1..]);
  }

  lemma {:induction false} FullElemsJoin(o: Options, es: seq<Value>, i: nat, ci: nat, bound: nat)
    requires i <= |es|
    requires forall k :: 0 <= k < |es| ==> LeafDepth(es[k]) < bound && ElemLine(o, es[k], ci, bound).Text?
    ensures FullElems(o, es, i, ci, bound) == Text(Lead(i, |es|) + Join(",", ElemLines(o, es, ci, bound)[i..]))
    decreases |es| - i
  {
    if i < |es| {
      var lines := ElemLines(o, es, ci, bound);
      var rest := FullElems(o, es, i + 1, ci, bound);
      FullElemsJoin(o, es, i + 1, ci, bound);
      assert ElemLine(o, es[i], ci, bound) == Text(lines[i]);
      assert FullElems(o, es, i, ci, bound) == Text((if i == 0 then lines[i] else "," + lines[i]) + rest.s);
      JoinStep(lines, i, rest.s);
    }
  }

  lemma {:induction false} FullEntriesJoin(o: Options, kvs: seq<KV>, i: nat, ki: nat, align: nat, bound: nat)
    requires i <= |kvs|
    requires forall k :: 0 <= k < |kvs| ==> LeafDepth(kvs[k].v) < bound && EntryLine(o, kvs[k], ki, align, bound).Text?
    ensures FullEntries(o, kvs, i, ki, align, bound) == Text(Lead(i, |kvs|) + Join(",", EntryLines(o, kvs, ki, align, bound)[i..]))
    decreases |kvs| - i
  {
    if i < |kvs| {
      var lines := EntryLines(o, kvs, ki, align, bound);
      var rest := FullEntries(o, kvs, i + 1, ki, align, bound);
      FullEntriesJoin(o, kvs, i + 1, ki, align, bound);
      assert EntryLine(o, kvs[i], ki, align, bound) == Text(lines[i]);
      assert FullEntries(o, kvs, i, ki, align, bound) == Text((if i == 0 then lines[i] else "," + lines[i]) + rest.s);
      JoinStep(lines, i, rest.s);
    }
  }

  /** With a non-negative `spaceLen` every element line is a text. */
  lemma ElemLinesDefined(o: Options, es: seq<Value>, ci: nat, bound: nat)
    requires o.spaceLen >= 0
    requires forall k :: 0 <= k < |es| ==> LeafDepth(es[k]) < bound
    ensures forall k :: 0 <= k < |es| ==> ElemLine(o, es[k], ci, bound).Text?
  {
    forall k | 0 <= k < |es|
      ensures ElemLine(o, es[k], ci, bound).Text?
    {
      RenderTotal(o, es[k], ci, ci);
    }
  }

  /** With a non-negative `spaceLen` every entry line is a text. */
  lemma EntryLinesDefined(o: Options, kvs: seq<KV>, ki: nat, align: nat, bound: nat)
    requires o.spaceLen >= 0
    requires forall k :: 0 <= k < |kvs| ==> LeafDepth(kvs[k].v) < bound
    ensures forall k :: 0 <= k < |kvs| ==> EntryLine(o, kvs[k], ki, align, bound).Text?
  {
    forall k | 0 <= k < |kvs|
      ensures EntryLine(o, kvs[k], ki, align, bound).Text?
    {
      RenderTotal(o, kvs[k].v, ki + |Pad(kvs[k].keyJson, align)| + 2, ki);
    }
  }

  /** A body of joined lines closed by its closing line. */
  lemma Framed(open: string, joined: string, close: string, whole: Outcome, body: Outcome)
    requires body == Text("" + joined)
    requires whole == Text(open + (body.s + close))
    ensures whole == Text(open + joined + close)
  {
    assert "" + joined == joined;
  }

  /**
   * A multi-line array: `[`, the element lines joined by commas, each line
   * a new line indented by `indent + spaceLen` and the element's text (see
   * `ElemLine`), then `]` on a line of its own indented by `indent`.
   */
  lemma FullArrayLayout(o: Options, es: seq<Value>, indent: nat)
    requires o.spaceLen >= 0
    ensures Full(o, Arr(es), indent)
         == Text("[" + Join(",", ElemLines(o, es, indent + o.spaceLen, LeafDepth(Arr(es)))) + CloseLine(indent, "]"))
  {
    ElemsDepthAtMost(es, LeafDepth(Arr(es)));
    ElemLinesDefined(o, es, indent + o.spaceLen, LeafDepth(Arr(es)));
    assert Full(o, Arr(es), indent)
        == Enclose("[", FullElems(o, es, 0, indent + o.spaceLen, LeafDepth(Arr(es))), indent, "]");
    ArrayTextLayout(o, es, indent + o.spaceLen, indent, LeafDepth(Arr(es)));
  }

  /** The array text as its element lines joined by commas between the brackets. */
  lemma ArrayTextLayout(o: Options, es: seq<Value>, ci: nat, indent: nat, bound: nat)
    requires forall k :: 0 <= k < |es| ==> LeafDepth(es[k]) < bound && ElemLine(o, es[k], ci, bound).Text?
    ensures Enclose("[", FullElems(o, es, 0, ci, bound), indent, "]")
         == Text("[" + Join(",", ElemLines(o, es, ci, bound)) + CloseLine(indent, "]"))
  {
    var lines := ElemLines(o, es, ci, bound);
    FullElemsJoin(o, es, 0, ci, bound);
    assert lines[0..] == lines;
    var body := FullElems(o, es, 0, ci, bound);
    Framed("[", Join(",", lines), CloseLine(indent, "]"), Enclose("[", body, indent, "]"), body);
  }

  /**
   * A multi-line object: `{`, one line per entry whose value is not
   * `undefined`, joined by commas, then `}` on a line of its own indented
   * by `indent`; each entry line holds the key literal padded to the common
   * width, `": "`, and the value rendered with the key line as its inline
   * prefix (see `EntryLine`).
   */
  lemma FullObjectLayout(o: Options, entries: seq<(string, Value)>, indent: nat)
    requires o.spaceLen >= 0
    ensures var kvs := DefinedKVs(entries);
      Full(o, Obj(entries), indent)
      == Text("{" + Join(",", EntryLines(o, kvs, indent + o.spaceLen, KeyAlignLen(o, kvs), LeafDepth(Obj(entries))))
              + CloseLine(indent, "}"))
  {
    var kvs := DefinedKVs(entries);
    var ki := indent + o.spaceLen;
    var bound := LeafDepth(Obj(entries));
    DefinedKVsShallower(entries);
    EntryLinesDefined(o, kvs, ki, KeyAlignLen(o, kvs), bound);
    assert Full(o, Obj(entries), indent) == FullObjectText(o, kvs, ki, indent, bound);
    ObjectTextLayout(o, kvs, ki, indent, bound);
  }

  /** The object text as its entry lines joined by commas between the braces. */
  lemma ObjectTextLayout(o: Options, kvs: seq<KV>, ki: nat, indent: nat, bound: nat)
    requires forall k :: 0 <= k < |kvs| ==>
      LeafDepth(kvs[k].v) < bound && EntryLine(o, kvs[k], ki, KeyAlignLen(o, kvs), bound).Text?
    ensures FullObjectText(o, kvs, ki, indent, bound)
         == Text("{" + Join(",", EntryLines(o, kvs, ki, KeyAlignLen(o, kvs), bound)) + CloseLine(indent, "}"))
  {
    var align := KeyAlignLen(o, kvs);
    var lines := EntryLines(o, kvs, ki, align, bound);
    FullEntriesJoin(o, kvs, 0, ki, align, bound);
    assert lines[0..] == lines;
    var body := FullEntries(o, kvs, 0, ki, align, bound);
    Framed("{", Join(",", lines), CloseLine(indent, "}"), FullObjectText(o, kvs, ki, indent, bound), body);
  }
}
