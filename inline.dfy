/**
 * The inline renderer: a depth gate on the subtree, then a one-line
 * rendering built left to right against a character budget, given up as soon
 * as the text under construction is longer than the budget.
 */
module InlineStringifier {
  import opened JsonValues
  import opened ReadableOptions

  function Max(a: nat, b: nat): (r: nat) {
    if a < b then b else a
  }

  /**
   * Leaf depth: the longest chain of nested arrays and objects from `v` down
   * to a primitive. Primitives (`undefined` included) and empty arrays or
   * objects have depth 0; `[1, 2]` has depth 1 and `[1, [2, 3]]` depth 2.
   */
  function LeafDepth(v: Value): (r: nat)
    decreases v
  {
    match v
    case Arr(es) => ElemsDepth(es)
    case Obj(kvs) => EntriesDepth(kvs)
    case _ => 0
  }

  function ElemsDepth(es: seq<Value>): (r: nat)
    decreases es
  {
    if es == [] then 0 else Max(1 + LeafDepth(es[0]), ElemsDepth(es[1..]))
  }

  function EntriesDepth(kvs: seq<(string, Value)>): (r: nat)
    decreases kvs
  {
    if kvs == [] then 0
    else
      var e := kvs[0];
      assert e.1 < e;
      Max(1 + LeafDepth(e.1), EntriesDepth(kvs[1..]))
  }

  lemma {:induction false} ElemsDepthAtMost(es: seq<Value>, m: int)
    ensures ElemsDepth(es) <= m <==> m >= 0 && forall k :: 0 <= k < |es| ==> LeafDepth(es[k]) < m
  {
    if es != [] {
      ElemsDepthAtMost(es[1..], m);
      assert forall k :: 1 <= k < |es| ==> es[1..][k - 1] == es[k];
    }
  }

  lemma {:induction false} EntriesDepthAtMost(kvs: seq<(string, Value)>, m: int)
    ensures EntriesDepth(kvs) <= m <==> m >= 0 && forall k :: 0 <= k < |kvs| ==> LeafDepth(kvs[k].1) < m
  {
    if kvs != [] {
      EntriesDepthAtMost(kvs[1..], m);
      assert forall k :: 1 <= k < |kvs| ==> kvs[1..][k - 1] == kvs[k];
    }
  }

  /** "The leaf depth of `v` is at most `d`", which no value meets when `d < 0`. */
  predicate LeafDepthLEQ(v: Value, d: int)
    ensures LeafDepthLEQ(v, d) ==> d >= 0
  {
    d >= 0 && LeafDepth(v) <= d
  }

  /** A primitive passes the gate exactly when `d >= 0`. */
  lemma LeafDepthLEQPrimitive(v: Value, d: int)
    requires !v.IsComposite()
    ensures LeafDepthLEQ(v, d) <==> d >= 0
  {
  }

  /**
   * The recursive reading of the gate: an array or object passes at `d`
   * exactly when `d >= 0` and every child passes at `d - 1` (so an empty one
   * passes at every `d >= 0`).
   */
  lemma LeafDepthLEQComposite(v: Value, d: int)
    requires v.IsComposite()
    ensures v.Arr? ==> (LeafDepthLEQ(v, d) <==>
      d >= 0 && forall k :: 0 <= k < |v.elems| ==> LeafDepthLEQ(v.elems[k], d - 1))
    ensures v.Obj? ==> (LeafDepthLEQ(v, d) <==>
      d >= 0 && forall k :: 0 <= k < |v.entries| ==> LeafDepthLEQ(v.entries[k].1, d - 1))
  {
    if v.Arr? {
      ElemsDepthAtMost(v.elems, d);
    } else {
      EntriesDepthAtMost(v.entries, d);
    }
  }

  /** `isLeafDepthLEQ`: a loop over the children with an early exit on the first one that fails. */
  method IsLeafDepthLEQ(v: Value, maxDepth: int) returns (r: bool)
    ensures r == LeafDepthLEQ(v, maxDepth)
    decreases v
  {
    if maxDepth < 0 {
      return false;
    }
    match v {
      case Arr(es) =>
        for i := 0 to |es|
          invariant forall k :: 0 <= k < i ==> LeafDepthLEQ(es[k], maxDepth - 1)
        {
          var ok := IsLeafDepthLEQ(es[i], maxDepth - 1);
          if !ok {
            LeafDepthLEQComposite(v, maxDepth);
            return false;
          }
        }
        LeafDepthLEQComposite(v, maxDepth);
        return true;
      case Obj(kvs) =>
        for i := 0 to |kvs|
          invariant forall k :: 0 <= k < i ==> LeafDepthLEQ(kvs[k].1, maxDepth - 1)
        {
          var e := kvs[i];
          assert e.1 < e;
          var ok := IsLeafDepthLEQ(e.1, maxDepth - 1);
          if !ok {
            LeafDepthLEQComposite(v, maxDepth);
            return false;
          }
        }
        LeafDepthLEQComposite(v, maxDepth);
        return true;
      case _ =>
        return true;
    }
  }

  /** The separator between the elements of a one-line array. */
  function ArraySep(o: Options): (r: string)
    ensures r == ", " || r == ","
    ensures r == ", " <==> o.inlineArraySpaceAfterComma
  {
    if o.inlineArraySpaceAfterComma then ", " else ","
  }

  /** The separator between the entries of a one-line object. */
  function ObjectSep(o: Options): (r: string)
    ensures r == ", " || r == ","
    ensures r == ", " <==> o.inlineObjectSpaceAfterComma
  {
    if o.inlineObjectSpaceAfterComma then ", " else ","
  }

  /**
   * The complete one-line text of `v`, whatever its length: `[` elements `]`
   * and `{` `"key":value` entries `}`, separators after the options, entry
   * order kept, `undefined` entries left out and `undefined` elements
   * written `null`.
   */
  function Compact(o: Options, v: Value): (r: string)
    requires !v.Undef?
    ensures v.IsComposite() ==> |r| >= 2
    decreases v, 0
  {
    match v
    case Arr(es) => "[" + CompactElems(o, es, true) + "]"
    case Obj(kvs) => "{" + CompactEntries(o, kvs, true) + "}"
    case Null => Literal(v)
    case Bool(_) => Literal(v)
    case Num(_) => Literal(v)
    case Str(_) => Literal(v)
  }

  /** The text of one array element: `undefined` is written `null`. */
  function ElemText(o: Options, e: Value): (r: string)
    decreases e, 1
  {
    if e.Undef? then "null" else Compact(o, e)
  }

  function CompactElems(o: Options, es: seq<Value>, first: bool): (r: string)
    decreases es, 0
  {
    if es == [] then ""
    else
      var rest := ElemText(o, es[0]) + CompactElems(o, es[1..], false);
      if first then rest else ArraySep(o) + rest
  }

  function CompactEntries(o: Options, kvs: seq<(string, Value)>, first: bool): (r: string)
    decreases kvs, 0
  {
    if kvs == [] then ""
    else
      var e := kvs[0];
      assert e.1 < e;
      if e.1.Undef? then CompactEntries(o, kvs[1..], first)
      else
        var rest := (Quote(e.0) + ":") + (Compact(o, e.1) + CompactEntries(o, kvs[1..], false));
        if first then rest else ObjectSep(o) + rest
  }

  /**
   * What the inline renderer yields for `v` with `budget` characters left: a
   * primitive's literal whatever its length; for an array or object its
   * one-line text when that fits the budget, and nothing otherwise.
   */
  function InlineText(o: Options, v: Value, budget: int): (r: Option<string>)
    requires !v.Undef?
    ensures v.IsComposite() && r.Some? ==> |r.value| <= budget
    ensures v.IsComposite() && budget < 2 ==> r.None?
    ensures r.Some? ==> r.value == Compact(o, v)
    ensures v.IsComposite() && |Compact(o, v)| <= budget ==> r == Some(Compact(o, v))
  {
    if !v.IsComposite() then Some(Literal(v))
    else if |Compact(o, v)| <= budget then Some(Compact(o, v))
    else None
  }

  /** The inline attempt of the dispatcher: the depth gate, then the budget left after the prefix. */
  function InlineAttempt(o: Options, v: Value, inlinePrefixLen: int): (r: Option<string>)
    requires !v.Undef?
    ensures r.Some? <==> LeafDepthLEQ(v, o.maxInlineDepth)
                         && (!v.IsComposite() || inlinePrefixLen + |Compact(o, v)| <= o.maxInlineLen)
    ensures r.Some? ==> r.value == Compact(o, v)
  {
    if LeafDepthLEQ(v, o.maxInlineDepth) then InlineText(o, v, o.maxInlineLen - inlinePrefixLen)
    else None
  }

  /** `tryStringify`. Its only caller passes arrays and objects, never `undefined`. */
  method TryStringify(o: Options, v: Value, inlinePrefixLen: int) returns (r: Option<string>)
    requires !v.Undef?
    ensures r == InlineAttempt(o, v, inlinePrefixLen)
    ensures r.Some? ==> LeafDepthLEQ(v, o.maxInlineDepth)
    ensures r.Some? && v.IsComposite() ==> inlinePrefixLen + |r.value| <= o.maxInlineLen
  {
    var ok := IsLeafDepthLEQ(v, o.maxInlineDepth);
    if !ok {
      return None;
    }
    var maxInlineLen := o.maxInlineLen - inlinePrefixLen;
    r := TryStringifyInline(o, v, maxInlineLen);
  }

  /** `whole` read as `str` followed by `a` and then `rest`. */
  lemma Regroup(whole: string, str: string, a: string, rest: string)
    requires whole == str + (a + rest)
    ensures whole == (str + a) + rest
  {
  }

  /** `whole` once nothing is left before the closing bracket. */
  lemma Closing(whole: string, str: string, close: string)
    requires whole == str + ("" + close)
    ensures whole == str + close
  {
  }

  /** One step of the entry loop: an `undefined` entry adds nothing, any other adds separator, key, colon and value. */
  lemma CompactEntriesStep(o: Options, kvs: seq<(string, Value)>, i: nat, first: bool)
    requires i < |kvs|
    ensures kvs[i].1.Undef? ==> CompactEntries(o, kvs[i..], first) == CompactEntries(o, kvs[i + 1..], first)
    ensures !kvs[i].1.Undef? ==>
      var rest := (Quote(kvs[i].0) + ":") + (Compact(o, kvs[i].1) + (CompactEntries(o, kvs[i + 1..], false) + "}"));
      CompactEntries(o, kvs[i..], first) + "}" == if first then rest else ObjectSep(o) + rest
  {
    assert kvs[i..][0] == kvs[i] && kvs[i..][1..] == kvs[i + 1..];
  }

  /** One step of the element loop. */
  lemma CompactElemsStep(o: Options, es: seq<Value>, i: nat, first: bool)
    requires i < |es|
    ensures var rest := ElemText(o, es[i]) + (CompactElems(o, es[i + 1..], false) + "]");
      CompactElems(o, es[i..], first) + "]" == if first then rest else ArraySep(o) + rest
  {
    assert es[i..][0] == es[i] && es[i..][1..] == es[i + 1..];
  }

  /**
   * `tryStringifyInline`. The object loop appends separator, key and value,
   * checking the length after each append. Its callers never pass
   * `undefined`: the array loop writes `null` for it and the object loop
   * skips it.
   */
  method TryStringifyInline(o: Options, v: Value, maxInlineLen: int) returns (r: Option<string>)
    requires !v.Undef?
    ensures r == InlineText(o, v, maxInlineLen)
    decreases v, 1
  {
    if !v.IsComposite() {
      return Some(Literal(v));
    }
    if v.Arr? {
      r := TryStringifyInlineArray(o, v, maxInlineLen);
      return;
    }
    var kvs := v.entries;
    ghost var whole := Compact(o, v);
    var str := "{";
    var first := true;
    for i := 0 to |kvs|
      invariant whole == str + (CompactEntries(o, kvs[i..], first) + "}")
    {
      var e := kvs[i];
      CompactEntriesStep(o, kvs, i, first);
      if !e.1.Undef? {
        ghost var tail := CompactEntries(o, kvs[i + 1..], false) + "}";
        if first {
          first := false;
        } else {
          Regroup(whole, str, ObjectSep(o), (Quote(e.0) + ":") + (Compact(o, e.1) + tail));
          str := str + ObjectSep(o);
        }
        if |str| > maxInlineLen {
          return None;
        }
        Regroup(whole, str, Quote(e.0) + ":", Compact(o, e.1) + tail);
        str := str + (Quote(e.0) + ":");
        if |str| > maxInlineLen {
          return None;
        }
        assert e.1 < e;
        var vJson := TryStringifyInline(o, e.1, maxInlineLen - |str|);
        if vJson.None? {
          return None;
        }
        Regroup(whole, str, vJson.value, tail);
        str := str + vJson.value;
      }
    }
    assert CompactEntries(o, kvs[|kvs|..], first) == "";
    Closing(whole, str, "}");
    str := str + "}";
    if |str| > maxInlineLen {
      return None;
    }
    return Some(str);
  }

  /** `tryStringifyInlineArray`: the same loop over elements, `undefined` written `null` unchecked. */
  method TryStringifyInlineArray(o: Options, v: Value, maxInlineLen: int) returns (r: Option<string>)
    requires v.Arr?
    ensures r == InlineText(o, v, maxInlineLen)
    decreases v, 0
  {
    var es := v.elems;
    ghost var whole := Compact(o, v);
    var str := "[";
    var first := true;
    for i := 0 to |es|
      invariant whole == str + (CompactElems(o, es[i..], first) + "]")
    {
      var e := es[i];
      CompactElemsStep(o, es, i, first);
      ghost var tail := CompactElems(o, es[i + 1..], false) + "]";
      if first {
        first := false;
      } else {
        Regroup(whole, str, ArraySep(o), ElemText(o, e) + tail);
        str := str + ArraySep(o);
      }
      if |str| > maxInlineLen {
        return None;
      }
      Regroup(whole, str, ElemText(o, e), tail);
      if e.Undef? {
        assert ElemText(o, e) == "null";
        str := str + "null";
      } else {
        assert ElemText(o, e) == Compact(o, e);
        var vJson := TryStringifyInline(o, e, maxInlineLen - |str|);
        if vJson.None? {
          assert |whole| == |str| + |Compact(o, e)| + |tail|;
          return None;
        }
        str := str + vJson.value;
      }
    }
    assert CompactElems(o, es[|es|..], first) == "";
    Closing(whole, str, "]");
    str := str + "]";
    if |str| > maxInlineLen {
      return None;
    }
    return Some(str);
  }

  /** `ss` joined with `sep` between consecutive items. */
  function Join(sep: string, ss: seq<string>): (r: string)
  {
    if |ss| == 0 then "" else if |ss| == 1 then ss[0] else ss[0] + sep + Join(sep, ss[1..])
  }

  /** The entries of `kvs` whose value is not `undefined`, in order. */
  function Defined(kvs: seq<(string, Value)>): (r: seq<(string, Value)>)
    ensures forall k :: 0 <= k < |r| ==> !r[k].1.Undef?
    ensures forall e :: e in r ==> e in kvs
    ensures (forall k :: 0 <= k < |kvs| ==> !kvs[k].1.Undef?) ==> r == kvs
  {
    if kvs == [] then []
    else (if kvs[0].1.Undef? then [] else [kvs[0]]) + Defined(kvs[1..])
  }

  function EntryTexts(o: Options, kvs: seq<(string, Value)>): (r: seq<string>)
    requires forall k :: 0 <= k < |kvs| ==> !kvs[k].1.Undef?
  {
    seq(|kvs|, k requires 0 <= k < |kvs| => Quote(kvs[k].0) + ":" + Compact(o, kvs[k].1))
  }

  function ElemTexts(o: Options, es: seq<Value>): (r: seq<string>)
  {
    seq(|es|, k requires 0 <= k < |es| => ElemText(o, es[k]))
  }

  /** Joining a list that starts with `t`. */
  lemma JoinCons(sep: string, t: string, ts: seq<string>)
    ensures Join(sep, [t] + ts) == if ts == [] then t else t + (sep + Join(sep, ts))
  {
    assert ([t] + ts)[0] == t && ([t] + ts)[1..] == ts;
  }

  lemma {:induction false} CompactElemsJoin(o: Options, es: seq<Value>, first: bool)
    ensures CompactElems(o, es, first)
         == if first || es == [] then Join(ArraySep(o), ElemTexts(o, es))
            else ArraySep(o) + Join(ArraySep(o), ElemTexts(o, es))
    decreases es
  {
    if es != [] {
      CompactElemsJoin(o, es[1..], false);
      assert ElemTexts(o, es) == [ElemText(o, es[0])] + ElemTexts(o, es[1..]);
      JoinCons(ArraySep(o), ElemText(o, es[0]), ElemTexts(o, es[1..]));
    }
  }

  /** The string algebra of one entry in front of the joined rest. */
  lemma EntriesJoinHead(o: Options, e: (string, Value), tail: string, joined: string, empty: bool)
    requires !e.1.Undef?
    requires tail == if empty then joined else ObjectSep(o) + joined
    requires empty ==> joined == ""
    ensures (Quote(e.0) + ":") + (Compact(o, e.1) + tail)
         == if empty then Quote(e.0) + ":" + Compact(o, e.1)
            else (Quote(e.0) + ":" + Compact(o, e.1)) + (ObjectSep(o) + joined)
  {
  }

  /** `Defined` on a non-empty list: the head is kept unless its value is `undefined`. */
  lemma DefinedCons(kvs: seq<(string, Value)>)
    requires kvs != []
    ensures Defined(kvs) == if kvs[0].1.Undef? then Defined(kvs[1..]) else [kvs[0]] + Defined(kvs[1..])
  {
  }

  /** `Defined` keeps order: filtering a concatenation filters each part. */
  lemma {:induction false} DefinedConcat(a: seq<(string, Value)>, b: seq<(string, Value)>)
    ensures Defined(a + b) == Defined(a) + Defined(b)
    decreases |a|
  {
    if a == [] {
      assert a + b == b;
    } else {
      assert (a + b)[0] == a[0] && (a + b)[1..] == a[1..] + b;
      DefinedConcat(a[1..], b);
    }
  }

  /** A single entry is kept exactly when its value is not `undefined`. */
  lemma DefinedSingle(e: (string, Value))
    ensures Defined([e]) == if e.1.Undef? then [] else [e]
  {
    assert [e][1..] == [];
  }

  /** Every entry whose value is not `undefined` is kept. */
  lemma DefinedKeepsDefined(kvs: seq<(string, Value)>)
    ensures forall k :: 0 <= k < |kvs| && !kvs[k].1.Undef? ==> kvs[k] in Defined(kvs)
  {
    forall k | 0 <= k < |kvs| && !kvs[k].1.Undef?
      ensures kvs[k] in Defined(kvs)
    {
      assert kvs == kvs[..k] + ([kvs[k]] + kvs[k + 1..]);
      DefinedConcat(kvs[..k], [kvs[k]] + kvs[k + 1..]);
      DefinedConcat([kvs[k]], kvs[k + 1..]);
      DefinedSingle(kvs[k]);
    }
  }

  lemma EntryTextsCons(o: Options, e: (string, Value), kvs: seq<(string, Value)>)
    requires !e.1.Undef? && forall k :: 0 <= k < |kvs| ==> !kvs[k].1.Undef?
    ensures EntryTexts(o, [e] + kvs) == [Quote(e.0) + ":" + Compact(o, e.1)] + EntryTexts(o, kvs)
  {
  }

  /** `CompactEntries` on a non-empty list, unfolded once. */
  lemma CompactEntriesCons(o: Options, kvs: seq<(string, Value)>, first: bool)
    requires kvs != [] && !kvs[0].1.Undef?
    ensures var rest := (Quote(kvs[0].0) + ":") + (Compact(o, kvs[0].1) + CompactEntries(o, kvs[1..], false));
      CompactEntries(o, kvs, first) == if first then rest else ObjectSep(o) + rest
  {
  }

  lemma {:induction false} CompactEntriesJoin(o: Options, kvs: seq<(string, Value)>, first: bool)
    ensures CompactEntries(o, kvs, first)
         == if first || Defined(kvs) == [] then Join(ObjectSep(o), EntryTexts(o, Defined(kvs)))
            else ObjectSep(o) + Join(ObjectSep(o), EntryTexts(o, Defined(kvs)))
    decreases kvs
  {
    if kvs != [] {
      DefinedCons(kvs);
      if kvs[0].1.Undef? {
        CompactEntriesJoin(o, kvs[1..], first);
      } else {
        CompactEntriesJoin(o, kvs[1..], false);
        CompactEntriesCons(o, kvs, first);
        var e := kvs[0];
        var t := Quote(e.0) + ":" + Compact(o, e.1);
        var ts := EntryTexts(o, Defined(kvs[1..]));
        EntryTextsCons(o, e, Defined(kvs[1..]));
        JoinCons(ObjectSep(o), t, ts);
        EntriesJoinHead(o, e, CompactEntries(o, kvs[1..], false), Join(ObjectSep(o), ts), Defined(kvs[1..]) == []);
      }
    }
  }

  /** Inline array layout: `[`, the element texts joined by the array separator, `]`. */
  lemma CompactArrayLayout(o: Options, es: seq<Value>)
    ensures Compact(o, Arr(es)) == "[" + Join(ArraySep(o), ElemTexts(o, es)) + "]"
    ensures ArraySep(o) == (if o.inlineArraySpaceAfterComma then ", " else ",")
  {
    CompactElemsJoin(o, es, true);
  }

  /**
   * Inline object layout: `{`, the `"key":value` texts of the entries whose
   * value is not `undefined`, in their order, joined by the object separator,
   * `}` (no space after the colon).
   */
  lemma CompactObjectLayout(o: Options, kvs: seq<(string, Value)>)
    ensures Compact(o, Obj(kvs)) == "{" + Join(ObjectSep(o), EntryTexts(o, Defined(kvs))) + "}"
    ensures ObjectSep(o) == (if o.inlineObjectSpaceAfterComma then ", " else ",")
  {
    CompactEntriesJoin(o, kvs, true);
  }

  function NullForUndef(es: seq<Value>): (r: seq<Value>)
    ensures |r| == |es|
    ensures forall k :: 0 <= k < |es| ==> r[k] == if es[k].Undef? then Null else es[k]
  {
    seq(|es|, k requires 0 <= k < |es| => if es[k].Undef? then Null else es[k])
  }

  /** An `undefined` element is written exactly as `null` would be. */
  lemma CompactNullsUndefinedElements(o: Options, es: seq<Value>)
    ensures Compact(o, Arr(es)) == Compact(o, Arr(NullForUndef(es)))
  {
    CompactArrayLayout(o, es);
    CompactArrayLayout(o, NullForUndef(es));
    assert ElemTexts(o, es) == ElemTexts(o, NullForUndef(es));
  }

  /** An entry whose value is `undefined` leaves no trace: no key, no separator. */
  lemma CompactDropsUndefinedEntries(o: Options, kvs: seq<(string, Value)>)
    ensures Compact(o, Obj(kvs)) == Compact(o, Obj(Defined(kvs)))
  {
    CompactObjectLayout(o, kvs);
    CompactObjectLayout(o, Defined(kvs));
  }

  /**
   * A primitive is returned as its literal with no length check, so a string
   * literal can be longer than the budget it was given.
   */
  lemma InlinePrimitiveIgnoresBudget(o: Options, v: Value, budget: int)
    requires !v.IsComposite() && !v.Undef?
    ensures InlineText(o, v, budget) == Some(Literal(v))
    ensures v.Str? && budget < |v.s| + 2 ==> |InlineText(o, v, budget).value| > budget
  {
  }
}
