/**
 * The multi-line renderer and the dispatcher in front of it. A primitive is
 * written as its literal; an array or object is written on one line when the
 * inline renderer accepts it, and otherwise one child per line, indented by
 * `spaceLen` more than its container, object keys padded to a common width.
 */
module FullStringifier {
  import opened JsonValues
  import opened ReadableOptions
  import opened InlineStringifier

  const NEWLINE: string := "\n"

  /**
   * What a call yields: a string; the value `undefined` (what the built-in
   * serializer returns for `undefined`); or a thrown `RangeError`, which
   * `" ".repeat(n)` raises for a negative `n`.
   */
  datatype Outcome = Text(s: string) | Undefined | RangeError

  /** `" ".repeat(n)` for `n >= 0`. */
  function Spaces(n: nat): (r: string)
    ensures |r| == n
    ensures forall k :: 0 <= k < |r| ==> r[k] == ' '
  {
    if n == 0 then "" else Spaces(n - 1) + " "
  }

  /** `str += x` for the result `x` of a nested call: `undefined` is appended as the text `undefined`. */
  function Concatenated(out: Outcome): (r: string)
    requires !out.RangeError?
    ensures out.Text? ==> r == out.s
    ensures out.Undefined? ==> r == "undefined"
  {
    if out.Text? then out.s else "undefined"
  }

  /** A key entry collected by `getSortedKVs`: the key, its JSON literal, and its value. */
  datatype KV = KV(key: string, keyJson: string, v: Value)

  /** The result of `getSortedKVs`. */
  datatype KVInfo = KVInfo(keyAlignLen: nat, sortedKVs: seq<KV>)

  /** The entries whose value is not `undefined`, in their order, each with its key's literal. */
  function DefinedKVs(entries: seq<(string, Value)>): (r: seq<KV>)
    ensures |r| <= |entries|
  {
    if entries == [] then []
    else
      var last := entries[|entries| - 1];
      DefinedKVs(entries[..|entries| - 1]) + (if last.1.Undef? then [] else [KV(last.0, Quote(last.0), last.1)])
  }

  /**
   * Every collected item is an entry of the object whose value is not
   * `undefined`, and carries its key's literal.
   */
  lemma {:induction false} DefinedKVsFromEntries(entries: seq<(string, Value)>)
    ensures forall k :: 0 <= k < |DefinedKVs(entries)| ==>
      var kv := DefinedKVs(entries)[k];
      (kv.key, kv.v) in entries && !kv.v.Undef? && kv.keyJson == Quote(kv.key)
  {
    if entries != [] {
      var init := entries[..|entries| - 1];
      DefinedKVsFromEntries(init);
      assert forall e :: e in init ==> e in entries;
    }
  }

  /**
   * The common key width: the longest key literal that is not longer than
   * `maxKeyAlignLen`, or 0 when there is none.
   */
  function KeyAlignLen(o: Options, kvs: seq<KV>): (r: nat)
    ensures r == 0 || r <= o.maxKeyAlignLen
  {
    if kvs == [] then 0
    else
      var m := KeyAlignLen(o, kvs[..|kvs| - 1]);
      var l := |kvs[|kvs| - 1].keyJson|;
      if l <= o.maxKeyAlignLen && l > m then l else m
  }

  /**
   * The running maximum is the maximum: 0 or the length of some key literal
   * not longer than `maxKeyAlignLen`, and no shorter than any such literal.
   */
  lemma {:induction false} KeyAlignLenIsMax(o: Options, kvs: seq<KV>)
    ensures var r := KeyAlignLen(o, kvs);
      r == 0 || exists k :: 0 <= k < |kvs| && |kvs[k].keyJson| == r && r <= o.maxKeyAlignLen
    ensures forall k :: 0 <= k < |kvs| && |kvs[k].keyJson| <= o.maxKeyAlignLen ==>
      |kvs[k].keyJson| <= KeyAlignLen(o, kvs)
  {
    if kvs != [] {
      KeyAlignLenIsMax(o, kvs[..|kvs| - 1]);
      assert forall k :: 0 <= k < |kvs| - 1 ==> kvs[..|kvs| - 1][k] == kvs[k];
    }
  }

  /** A key literal padded with spaces up to `align`; a longer one is left as it is. */
  function Pad(keyJson: string, align: int): (r: string)
    ensures |r| == if |keyJson| < align then align else |keyJson|
    ensures r[..|keyJson|] == keyJson
    ensures forall k :: |keyJson| <= k < |r| ==> r[k] == ' '
  {
    if |keyJson| < align then keyJson + Spaces(align - |keyJson|) else keyJson
  }

  /** Every value collected for an object is shallower than the object. */
  lemma DefinedKVsShallower(entries: seq<(string, Value)>)
    ensures forall k :: 0 <= k < |DefinedKVs(entries)| ==>
      LeafDepth(DefinedKVs(entries)[k].v) < LeafDepth(Obj(entries))
  {
    var kvs := DefinedKVs(entries);
    DefinedKVsFromEntries(entries);
    EntriesDepthAtMost(entries, LeafDepth(Obj(entries)));
    forall k | 0 <= k < |kvs|
      ensures LeafDepth(kvs[k].v) < LeafDepth(Obj(entries))
    {
      var j :| 0 <= j < |entries| && entries[j] == (kvs[k].key, kvs[k].v);
    }
  }

  /** The closing line of a multi-line container. */
  function CloseLine(indent: nat, close: string): (r: string) {
    NEWLINE + Spaces(indent) + close
  }

  /**
   * A container's text from its opening `str` and the text of its children:
   * the children, then the closing line at `indent`; or the error raised by a
   * child or by the negative `indent` of the closing line.
   */
  function Enclose(str: string, body: Outcome, indent: int, close: string): (r: Outcome)
    ensures r.Text? <==> body.Text? && indent >= 0
    ensures r.Text? ==> |r.s| == |str| + |body.s| + 1 + indent + |close|
  {
    match body
    case Text(s) => if indent < 0 then RangeError else Text(str + (s + CloseLine(indent, close)))
    case _ => RangeError
  }

  /**
   * What the dispatcher `stringify(v, inlinePrefixLen, fullIndentLen)`
   * yields: `undefined` for `undefined`, a literal for any other primitive,
   * the one-line text when the inline attempt succeeds, else the multi-line
   * text.
   */
  function Render(o: Options, v: Value, inlinePrefixLen: int, fullIndentLen: int): (r: Outcome)
    ensures r.Undefined? <==> v.Undef?
    decreases LeafDepth(v), 2, 0
  {
    if v.Undef? then Undefined
    else if !v.IsComposite() then Text(Literal(v))
    else
      match InlineAttempt(o, v, inlinePrefixLen)
      case Some(s) => Text(s)
      case None => Full(o, v, fullIndentLen)
  }

  /**
   * The multi-line text of an array or object whose own line is indented by
   * `indent`: the children at `indent + spaceLen`, or a `RangeError` when
   * either indentation is negative or a child raises one.
   */
  function Full(o: Options, v: Value, indent: int): (r: Outcome)
    requires v.IsComposite()
    ensures !r.Undefined?
    ensures indent < 0 || indent + o.spaceLen < 0 ==> r.RangeError?
    decreases LeafDepth(v), 1, 0
  {
    var ci := indent + o.spaceLen;
    if ci < 0 then RangeError
    else if v.Arr? then
      ElemsDepthAtMost(v.elems, LeafDepth(v));
      Enclose("[", FullElems(o, v.elems, 0, ci, LeafDepth(v)), indent, "]")
    else
      DefinedKVsShallower(v.entries);
      FullObjectText(o, DefinedKVs(v.entries), ci, indent, LeafDepth(v))
  }

  /**
   * The multi-line text of an object whose collected entries are `kvs`:
   * one line per entry at indentation `ci`, keys padded to their common
   * width, and the closing brace on a line indented by `indent`.
   */
  function FullObjectText(o: Options, kvs: seq<KV>, ci: nat, indent: int, ghost bound: nat): (r: Outcome)
    requires forall k :: 0 <= k < |kvs| ==> LeafDepth(kvs[k].v) < bound
    ensures !r.Undefined?
    ensures indent < 0 ==> r.RangeError?
    decreases bound, 0, |kvs| + 2
  {
    Enclose("{", FullEntries(o, kvs, 0, ci, KeyAlignLen(o, kvs), bound), indent, "}")
  }

  /** The line of one array element: a new line indented by `ci`, then the element's text. */
  function ElemLine(o: Options, e: Value, ci: nat, ghost bound: nat): (r: Outcome)
    requires LeafDepth(e) < bound
    ensures !r.Undefined?
    decreases bound, 0, 0
  {
    var child := Render(o, e, ci, ci);
    if child.RangeError? then RangeError
    else Text((NEWLINE + Spaces(ci)) + Concatenated(child))
  }

  /**
   * The elements from index `i` on, one line each, a comma ending every
   * line but the last; a `RangeError` when any element raises one.
   */
  function FullElems(o: Options, es: seq<Value>, i: nat, ci: nat, ghost bound: nat): (r: Outcome)
    requires i <= |es|
    requires forall k :: 0 <= k < |es| ==> LeafDepth(es[k]) < bound
    ensures !r.Undefined?
    decreases bound, 0, |es| - i + 1
  {
    if i == |es| then Text("")
    else
      match (ElemLine(o, es[i], ci, bound), FullElems(o, es, i + 1, ci, bound))
      case (Text(line), Text(rest)) => Text((if i == 0 then line else "," + line) + rest)
      case _ => RangeError
  }

  /**
   * The line of one object entry: a new line indented by `ki`, the key
   * padded to `align`, `": "`, and the value rendered with that key line as
   * its inline prefix.
   */
  function EntryLine(o: Options, kv: KV, ki: nat, align: nat, ghost bound: nat): (r: Outcome)
    requires LeafDepth(kv.v) < bound
    ensures !r.Undefined?
    decreases bound, 0, 0
  {
    var key := Pad(kv.keyJson, align);
    var child := Render(o, kv.v, ki + |key| + 2, ki);
    if child.RangeError? then RangeError
    else Text((NEWLINE + Spaces(ki)) + ((key + ": ") + Concatenated(child)))
  }

  /** The entries from index `i` on, one line each, a comma ending every line but the last. */
  function FullEntries(o: Options, kvs: seq<KV>, i: nat, ki: nat, align: nat, ghost bound: nat): (r: Outcome)
    requires i <= |kvs|
    requires forall k :: 0 <= k < |kvs| ==> LeafDepth(kvs[k].v) < bound
    ensures !r.Undefined?
    decreases bound, 0, |kvs| - i + 1
  {
    if i == |kvs| then Text("")
    else
      match (EntryLine(o, kvs[i], ki, align, bound), FullEntries(o, kvs, i + 1, ki, align, bound))
      case (Text(line), Text(rest)) => Text((if i == 0 then line else "," + line) + rest)
      case _ => RangeError
  }

  /** `str` followed by a piece of the body and the rest of the body. */
  lemma Shift(str: string, piece: string, rest: string, close: string)
    ensures str + ((piece + rest) + close) == (str + piece) + (rest + close)
  {
  }

  /** A line appended in two pieces to `s1`, which is `str` followed by a comma unless the line is the first. */
  lemma AppendElemLine(str: string, s1: string, i: nat, a: string, b: string)
    requires s1 == if i == 0 then str else str + ","
    ensures s1 + a + b == str + (if i == 0 then a + b else "," + (a + b))
  {
  }

  /** One step of the element loop: the element's text `vJson`, or the error it raises. */
  lemma FullElemsStep(o: Options, es: seq<Value>, i: nat, ci: nat, bound: nat, str: string, indent: int, vJson: Outcome)
    requires i < |es|
    requires forall k :: 0 <= k < |es| ==> LeafDepth(es[k]) < bound
    requires vJson == Render(o, es[i], ci, ci)
    ensures vJson.RangeError? ==> Enclose(str, FullElems(o, es, i, ci, bound), indent, "]") == RangeError
    ensures !vJson.RangeError? ==>
      var line := (NEWLINE + Spaces(ci)) + Concatenated(vJson);
      Enclose(str, FullElems(o, es, i, ci, bound), indent, "]")
      == Enclose(str + (if i == 0 then line else "," + line), FullElems(o, es, i + 1, ci, bound), indent, "]")
  {
    var next := FullElems(o, es, i + 1, ci, bound);
    var line := ElemLine(o, es[i], ci, bound);
    if line.Text? && next.Text? && indent >= 0 {
      Shift(str, if i == 0 then line.s else "," + line.s, next.s, CloseLine(indent, "]"));
    }
  }

  /** One step of the entry loop: the entry's line, or the error it raises. */
  lemma FullEntriesStep(o: Options, kvs: seq<KV>, i: nat, ki: nat, align: nat, bound: nat, str: string, indent: int)
    requires i < |kvs|
    requires forall k :: 0 <= k < |kvs| ==> LeafDepth(kvs[k].v) < bound
    ensures EntryLine(o, kvs[i], ki, align, bound).RangeError? ==>
      Enclose(str, FullEntries(o, kvs, i, ki, align, bound), indent, "}") == RangeError
    ensures EntryLine(o, kvs[i], ki, align, bound).Text? ==>
      var line := EntryLine(o, kvs[i], ki, align, bound).s;
      Enclose(str, FullEntries(o, kvs, i, ki, align, bound), indent, "}")
      == Enclose(str + (if i == 0 then line else "," + line), FullEntries(o, kvs, i + 1, ki, align, bound), indent, "}")
  {
    var next := FullEntries(o, kvs, i + 1, ki, align, bound);
    var line := EntryLine(o, kvs[i], ki, align, bound);
    if line.Text? && next.Text? && indent >= 0 {
      Shift(str, if i == 0 then line.s else "," + line.s, next.s, CloseLine(indent, "}"));
    }
  }

  /** A line appended to `s1`, which is `str` followed by a comma unless the line is the first. */
  lemma AppendAfterComma(str: string, s1: string, i: nat, line: string)
    requires s1 == if i == 0 then str else str + ","
    ensures s1 + line == str + (if i == 0 then line else "," + line)
  {
  }

  /** The dispatcher `stringify`. */
  method Stringify(o: Options, v: Value, inlinePrefixLen: int, fullIndentLen: int) returns (r: Outcome)
    ensures r == Render(o, v, inlinePrefixLen, fullIndentLen)
    decreases LeafDepth(v), 2, 0
  {
    if v.Undef? {
      return Undefined;
    }
    if !v.IsComposite() {
      return Text(Literal(v));
    }
    var inlineJson := TryStringify(o, v, inlinePrefixLen);
    if inlineJson.Some? {
      return Text(inlineJson.value);
    }
    r := StringifyFull(o, v, fullIndentLen);
  }

  /**
   * `stringifyFull`. Its only caller passes arrays and objects, so its
   * branch for primitives is not modelled.
   */
  method StringifyFull(o: Options, v: Value, indentLen: int) returns (r: Outcome)
    requires v.IsComposite()
    ensures r == Full(o, v, indentLen)
    decreases LeafDepth(v), 1, 0
  {
    if v.Arr? {
      r := StringifyFullArray(o, v, indentLen);
      return;
    }
    var keyIndentLen := indentLen + o.spaceLen;
    if keyIndentLen < 0 {
      return RangeError;
    }
    var keyIndent := Spaces(keyIndentLen);
    var kvInfo := GetSortedKVs(o, v.entries);
    DefinedKVsShallower(v.entries);
    assert Full(o, v, indentLen) == FullObjectText(o, kvInfo.sortedKVs, keyIndentLen, indentLen, LeafDepth(v));
    r := StringifyFullEntries(o, kvInfo, keyIndentLen, keyIndent, indentLen, LeafDepth(v));
  }

  /**
   * The entry loop of `stringifyFull` and its closing line: `"{"`, one line
   * per collected entry with its key padded to the common width, then `"}"`
   * on a line indented by `indentLen`.
   */
  method StringifyFullEntries(o: Options, kvInfo: KVInfo, keyIndentLen: nat, keyIndent: string, indentLen: int,
                              ghost bound: nat) returns (r: Outcome)
    requires keyIndent == Spaces(keyIndentLen)
    requires kvInfo.keyAlignLen == KeyAlignLen(o, kvInfo.sortedKVs)
    requires forall k :: 0 <= k < |kvInfo.sortedKVs| ==> LeafDepth(kvInfo.sortedKVs[k].v) < bound
    ensures r == FullObjectText(o, kvInfo.sortedKVs, keyIndentLen, indentLen, bound)
    decreases bound, 0, |kvInfo.sortedKVs| + 3
  {
    var kvs := kvInfo.sortedKVs;
    ghost var whole := FullObjectText(o, kvs, keyIndentLen, indentLen, bound);
    var str := "{";
    var first := true;
    for i := 0 to |kvs|
      invariant first == (i == 0)
      invariant whole == Enclose(str, FullEntries(o, kvs, i, keyIndentLen, kvInfo.keyAlignLen, bound), indentLen, "}")
    {
      ghost var str0 := str;
      if first {
        first := false;
      } else {
        str := str + ",";
      }
      FullEntriesStep(o, kvs, i, keyIndentLen, kvInfo.keyAlignLen, bound, str0, indentLen);
      var appended := AppendEntry(o, kvs[i], keyIndentLen, keyIndent, kvInfo.keyAlignLen, bound, str);
      if appended.RangeError? {
        return RangeError;
      }
      AppendAfterComma(str0, str, i, EntryLine(o, kvs[i], keyIndentLen, kvInfo.keyAlignLen, bound).s);
      str := appended.s;
    }
    if indentLen < 0 {
      return RangeError;
    }
    Closing(whole.s, str, CloseLine(indentLen, "}"));
    str := str + (NEWLINE + Spaces(indentLen) + "}");
    return Text(str);
  }

  /**
   * The body of the entry loop of `stringifyFull` after its comma: the key
   * indentation, the key literal padded to `align`, `": "`, then the value
   * laid out by the dispatcher, each appended to `str` in turn.
   */
  method AppendEntry(o: Options, kv: KV, ki: nat, keyIndent: string, align: nat, ghost bound: nat, str: string)
    returns (r: Outcome)
    requires keyIndent == Spaces(ki)
    requires LeafDepth(kv.v) < bound
    ensures r.RangeError? <==> EntryLine(o, kv, ki, align, bound).RangeError?
    ensures !r.Undefined?
    ensures r.Text? ==> r.s == str + EntryLine(o, kv, ki, align, bound).s
    decreases bound, 0, 0
  {
    var s := str + (NEWLINE + keyIndent);
    var keyJson := Pad(kv.keyJson, align);
    s := s + (keyJson + ": ");
    var vJson := Stringify(o, kv.v, ki + |keyJson| + 2, ki);
    if vJson.RangeError? {
      return RangeError;
    }
    Regroup3(str, NEWLINE + keyIndent, keyJson + ": ", Concatenated(vJson));
    s := s + Concatenated(vJson);
    return Text(s);
  }

  /** Three pieces appended one after the other. */
  lemma Regroup3(str: string, a: string, b: string, c: string)
    ensures str + a + b + c == str + (a + (b + c))
  {
  }

  /** `stringifyFullArray`: every element on its own line, `undefined` written as the text `undefined`. */
  method StringifyFullArray(o: Options, v: Value, indentLen: int) returns (r: Outcome)
    requires v.Arr?
    ensures r == Full(o, v, indentLen)
    decreases LeafDepth(v), 0, 0
  {
    var es := v.elems;
    var vIndentLen := indentLen + o.spaceLen;
    if vIndentLen < 0 {
      return RangeError;
    }
    var vIndent := Spaces(vIndentLen);
    ElemsDepthAtMost(es, LeafDepth(v));
    ghost var whole := Full(o, v, indentLen);
    var str := "[";
    var first := true;
    for i := 0 to |es|
      invariant first == (i == 0)
      invariant whole == Enclose(str, FullElems(o, es, i, vIndentLen, LeafDepth(v)), indentLen, "]")
    {
      ghost var str0 := str;
      if first {
        first := false;
      } else {
        str := str + ",";
      }
      ghost var s1 := str;
      str := str + (NEWLINE + vIndent);
      var vJson := Stringify(o, es[i], vIndentLen, vIndentLen);
      FullElemsStep(o, es, i, vIndentLen, LeafDepth(v), str0, indentLen, vJson);
      if vJson.RangeError? {
        return RangeError;
      }
      str := str + Concatenated(vJson);
      AppendElemLine(str0, s1, i, NEWLINE + vIndent, Concatenated(vJson));
    }
    if indentLen < 0 {
      return RangeError;
    }
    Closing(whole.s, str, CloseLine(indentLen, "]"));
    str := str + (NEWLINE + Spaces(indentLen) + "]");
    return Text(str);
  }

  /** `getSortedKVs`: the defined entries in key order with their literals, and the common key width. */
  method GetSortedKVs(o: Options, entries: seq<(string, Value)>) returns (info: KVInfo)
    ensures info.sortedKVs == DefinedKVs(entries)
    ensures info.keyAlignLen == KeyAlignLen(o, info.sortedKVs)
  {
    var keyAlignLen: nat := 0;
    var sortedKVs: seq<KV> := [];
    for i := 0 to |entries|
      invariant sortedKVs == DefinedKVs(entries[..i])
      invariant keyAlignLen == KeyAlignLen(o, sortedKVs)
    {
      var key := entries[i].0;
      var v := entries[i].1;
      assert entries[..i + 1][..i] == entries[..i];
      if v.Undef? {
        continue;
      }
      var keyJson := Quote(key);
      var kvItem := KV(key, keyJson, v);
      if |keyJson| <= o.maxKeyAlignLen && |keyJson| > keyAlignLen {
        keyAlignLen := |keyJson|;
      }
      assert (sortedKVs + [kvItem])[..|sortedKVs|] == sortedKVs;
      sortedKVs := sortedKVs + [kvItem];
    }
    assert entries[..|entries|] == entries;
    return KVInfo(keyAlignLen, sortedKVs);
  }
}
