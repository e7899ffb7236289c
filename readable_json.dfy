/**
 * The public entry point `stringify(value, replacerOrOptions?, spaceOrOptions?)`:
 * resolve the arguments and the options, hand a zero indent to the built-in
 * serializer, and otherwise lay the document out from column 0.
 */
module ReadableJson {
  import opened JsonValues
  import opened ReadableOptions
  import opened InlineStringifier
  import opened FullStringifier
  import opened FullLayout

  /**
   * What `stringify` yields: for an indent of 0, whatever the built-in
   * serializer makes of the value and the replacer (not modelled here);
   * otherwise the formatter's outcome for the whole document.
   */
  datatype Output =
    | BuiltinJson(value: Value, replacer: SecondArg)
    | Formatted(out: Outcome)

  /** The options a call resolves to, through the argument shuffle as the code does it. */
  function CallOptions(arg2: SecondArg, arg3: SpaceOrOptions): (o: Options)
    ensures IsReplacerType(arg2) ==> o == FillOptions(arg3)
    ensures arg2.RecordArg? ==> o == FillOptionsCore(arg2.p)
    ensures arg2.NullArg? || arg2.Omitted? || arg2.ArrayArg? ==> o == DEFAULTS
  {
    FillOptions(ShuffleArgs(arg2, arg3).spaceOrOptions)
  }

  /**
   * The result of `stringify`: the built-in serializer exactly when the
   * resolved indent is 0, and otherwise the document rendered at prefix 0
   * and indentation 0, whatever the replacer.
   */
  function StringifyResult(value: Value, arg2: SecondArg, arg3: SpaceOrOptions): (r: Output)
    ensures r.BuiltinJson? <==> CallOptions(arg2, arg3).spaceLen == 0
    ensures r.BuiltinJson? ==> r.replacer == (if IsReplacerType(arg2) then arg2 else NullArg)
    ensures r.Formatted? ==> r.out == Render(CallOptions(arg2, arg3), value, 0, 0)
  {
    var call := ShuffleArgs(arg2, arg3);
    var o := FillOptions(call.spaceOrOptions);
    if o.spaceLen == 0 then BuiltinJson(value, call.replacer)
    else Formatted(Render(o, value, 0, 0))
  }

  /** `stringify`: the dispatcher is entered with prefix 0 and indentation 0 for the root value. */
  method Stringify(value: Value, arg2: SecondArg, arg3: SpaceOrOptions) returns (r: Output)
    ensures r == StringifyResult(value, arg2, arg3)
  {
    var call := ShuffleArgs(arg2, arg3);
    var o := FillOptions(call.spaceOrOptions);
    if o.spaceLen == 0 {
      return BuiltinJson(value, call.replacer);
    }
    var out := FullStringifier.Stringify(o, value, 0, 0);
    return Formatted(out);
  }

  /**
   * The wiring `stringify` has: the dispatcher lays out a wrapper object
   * whose one property `v` holds the value, the text is dropped, and the
   * wrapper's `vJson` field, which nothing assigns, is returned. Only a
   * `RangeError` raised while laying out the wrapper gets out.
   */
  function StringifyWrapped(value: Value, arg2: SecondArg, arg3: SpaceOrOptions): (r: Output)
    ensures r.BuiltinJson? <==> CallOptions(arg2, arg3).spaceLen == 0
    ensures r.Formatted? ==> r.out.Undefined? || r.out.RangeError?
  {
    var call := ShuffleArgs(arg2, arg3);
    var o := FillOptions(call.spaceOrOptions);
    if o.spaceLen == 0 then BuiltinJson(value, call.replacer)
    else if Render(o, Obj([("v", value)]), 0, 0).RangeError? then Formatted(RangeError)
    else Formatted(Undefined)
  }

  /**
   * With the wrapper, every call with a positive indent returns `undefined`
   * instead of the text, for instance `stringify(5)`, which the call at
   * prefix 0 and indentation 0 writes as `5`.
   */
  lemma WrappedLosesText(value: Value, arg2: SecondArg, arg3: SpaceOrOptions)
    requires CallOptions(arg2, arg3).spaceLen > 0
    ensures StringifyWrapped(value, arg2, arg3) == Formatted(Undefined)
    ensures StringifyResult(Num(5), Omitted, NoOptions) == Formatted(Text("5"))
  {
    RenderTotal(CallOptions(arg2, arg3), Obj([("v", value)]), 0, 0);
    FillOptionsDefaults();
    assert Literal(Num(5)) == "5";
  }

  /** `stringify(value)` uses the default options. */
  lemma DefaultCall(value: Value)
    ensures StringifyResult(value, Omitted, NoOptions) == Formatted(Render(DEFAULTS, value, 0, 0))
  {
    FillOptionsDefaults();
  }

  /** After a replacer-typed second argument, a non-zero number in third position is the indent. */
  lemma IndentAfterReplacer(value: Value, arg2: SecondArg, n: int)
    requires IsReplacerType(arg2) && n != 0
    ensures StringifyResult(value, arg2, SpaceLen(n)) == Formatted(Render(DEFAULTS.(spaceLen := n), value, 0, 0))
  {
  }

  /**
   * After a `null`, absent or array second argument the third argument is
   * lost: the document is formatted with the defaults, even for an indent
   * of 0 in third position.
   */
  lemma IndentAfterNullLost(value: Value, arg2: SecondArg, arg3: SpaceOrOptions)
    requires arg2.NullArg? || arg2.Omitted? || arg2.ArrayArg?
    ensures StringifyResult(value, arg2, arg3) == Formatted(Render(DEFAULTS, value, 0, 0))
  {
    FillOptionsDefaults();
  }

  /** The replacer does not change the formatted text: it is the text the options alone give. */
  lemma ReplacerIgnored(value: Value, arg2: SecondArg, arg3: SpaceOrOptions)
    requires IsReplacerType(arg2)
    ensures StringifyResult(value, arg2, arg3).Formatted? ==>
      StringifyResult(value, arg2, arg3) == Formatted(Render(FillOptions(arg3), value, 0, 0))
  {
  }

  /**
   * With a positive indent the call never throws, and the document is
   * `undefined` only for the value `undefined`.
   */
  lemma PositiveIndentNeverThrows(value: Value, arg2: SecondArg, arg3: SpaceOrOptions)
    requires CallOptions(arg2, arg3).spaceLen > 0
    ensures StringifyResult(value, arg2, arg3).Formatted?
    ensures !StringifyResult(value, arg2, arg3).out.RangeError?
    ensures StringifyResult(value, arg2, arg3).out.Undefined? <==> value.Undef?
  {
    RenderTotal(CallOptions(arg2, arg3), value, 0, 0);
  }

  /**
   * With a negative indent the call throws exactly for a container that does
   * not fit on one line.
   */
  lemma NegativeIndentThrows(value: Value, arg2: SecondArg, arg3: SpaceOrOptions)
    requires CallOptions(arg2, arg3).spaceLen < 0
    ensures StringifyResult(value, arg2, arg3).out.RangeError?
        <==> value.IsComposite() && InlineAttempt(CallOptions(arg2, arg3), value, 0).None?
  {
    RootThrowsIff(CallOptions(arg2, arg3), value, 0);
  }

  /**
   * The result with the argument shuffle the declared overloads describe:
   * the third argument keeps its role unless an options record stands in
   * second position.
   */
  function StringifyResultIntended(value: Value, arg2: SecondArg, arg3: SpaceOrOptions): (r: Output)
    ensures var o := FillOptions(ShuffleArgsIntended(arg2, arg3).spaceOrOptions);
      && (r.BuiltinJson? <==> o.spaceLen == 0)
      && (r.Formatted? ==> r.out == Render(o, value, 0, 0))
  {
    var call := ShuffleArgsIntended(arg2, arg3);
    var o := FillOptions(call.spaceOrOptions);
    if o.spaceLen == 0 then BuiltinJson(value, call.replacer)
    else Formatted(Render(o, value, 0, 0))
  }

  /** With the intended shuffle a non-zero number in third position is the indent, whatever stands in second position short of an options record. */
  lemma IndentArgument(value: Value, arg2: SecondArg, n: int)
    requires !arg2.RecordArg? && n != 0
    ensures StringifyResultIntended(value, arg2, SpaceLen(n)) == Formatted(Render(DEFAULTS.(spaceLen := n), value, 0, 0))
  {
  }

  /** The two shuffles give the same result except after a `null`, absent or array second argument. */
  lemma IntendedAgrees(value: Value, arg2: SecondArg, arg3: SpaceOrOptions)
    requires !(arg2.NullArg? || arg2.Omitted? || arg2.ArrayArg?)
    ensures StringifyResultIntended(value, arg2, arg3) == StringifyResult(value, arg2, arg3)
  {
  }
}
