/**
 * Option resolution of ReadableJson: a partial options record, a bare
 * indent width, or nothing, merged over fixed defaults; and the way the
 * public `stringify` tells a replacer from options in its second argument.
 */
module ReadableOptions {

  /** One property of a partial options record: absent (`undefined`), `null`, or supplied. */
  datatype Field<T> = Missing | NullValue | Present(value: T)

  /** A partial options record (`IOptions`). */
  datatype PartialOptions = PartialOptions(
    spaceLen: Field<int>,
    maxKeyAlignLen: Field<int>,
    maxInlineDepth: Field<int>,
    maxInlineLen: Field<int>,
    inlineArraySpaceAfterComma: Field<bool>,
    inlineObjectSpaceAfterComma: Field<bool>,
    inlineObjectAlignValues: Field<bool>)

  /** The record `{}`: every property absent. */
  const EMPTY: PartialOptions :=
    PartialOptions(Missing, Missing, Missing, Missing, Missing, Missing, Missing)

  /** A fully resolved options record (`IFullOptions`). Nothing is clamped: any integer may appear. */
  datatype Options = Options(
    spaceLen: int,
    maxKeyAlignLen: int,
    maxInlineDepth: int,
    maxInlineLen: int,
    inlineArraySpaceAfterComma: bool,
    inlineObjectSpaceAfterComma: bool,
    inlineObjectAlignValues: bool)

  const DEFAULTS: Options := Options(2, 16, 2, 100, true, true, true)

  /** `val(v, d)`: the default replaces `null` and `undefined` only, so `0` and `false` are kept. */
  function Val<T>(v: Field<T>, d: T): (r: T)
    ensures v.Present? ==> r == v.value
    ensures v.Missing? || v.NullValue? ==> r == d
  {
    match v
    case Present(x) => x
    case _ => d
  }

  function FillOptionsCore(p: PartialOptions): (r: Options)
    ensures p.spaceLen.Present? ==> r.spaceLen == p.spaceLen.value
    ensures !p.spaceLen.Present? ==> r.spaceLen == DEFAULTS.spaceLen
    ensures p.maxInlineLen.Present? ==> r.maxInlineLen == p.maxInlineLen.value
    ensures !p.maxInlineLen.Present? ==> r.maxInlineLen == DEFAULTS.maxInlineLen
  {
    Options(
      Val(p.spaceLen, DEFAULTS.spaceLen),
      Val(p.maxKeyAlignLen, DEFAULTS.maxKeyAlignLen),
      Val(p.maxInlineDepth, DEFAULTS.maxInlineDepth),
      Val(p.maxInlineLen, DEFAULTS.maxInlineLen),
      Val(p.inlineArraySpaceAfterComma, DEFAULTS.inlineArraySpaceAfterComma),
      Val(p.inlineObjectSpaceAfterComma, DEFAULTS.inlineObjectSpaceAfterComma),
      Val(p.inlineObjectAlignValues, DEFAULTS.inlineObjectAlignValues))
  }

  /** The argument of `fillOptions`: nothing, `null`, a number, or a (partial) record. */
  datatype SpaceOrOptions = NoOptions | NullOptions | SpaceLen(n: int) | OptionsRecord(p: PartialOptions)

  function FillOptions(a: SpaceOrOptions): (r: Options)
    ensures a.SpaceLen? ==> r == DEFAULTS.(spaceLen := a.n)
  {
    match a
    case SpaceLen(n) => FillOptionsCore(EMPTY.(spaceLen := Present(n)))
    case OptionsRecord(p) => FillOptionsCore(p)
    case _ => FillOptionsCore(EMPTY)
  }

  /** With no argument, or `null`, every field takes its default. */
  lemma FillOptionsDefaults()
    ensures FillOptions(NoOptions) == DEFAULTS
    ensures FillOptions(NullOptions) == DEFAULTS
    ensures FillOptions(OptionsRecord(EMPTY)) == DEFAULTS
    ensures DEFAULTS.spaceLen == 2 && DEFAULTS.maxKeyAlignLen == 16
    ensures DEFAULTS.maxInlineDepth == 2 && DEFAULTS.maxInlineLen == 100
    ensures DEFAULTS.inlineArraySpaceAfterComma && DEFAULTS.inlineObjectSpaceAfterComma
    ensures DEFAULTS.inlineObjectAlignValues
  {
  }

  /** A field present in a partial record is kept as given (negative numbers and `false` included); an absent or `null` field takes its default. */
  lemma FillOptionsKeepsSupplied(p: PartialOptions)
    ensures var r := FillOptions(OptionsRecord(p));
      && r.spaceLen == Val(p.spaceLen, 2)
      && r.maxKeyAlignLen == Val(p.maxKeyAlignLen, 16)
      && r.maxInlineDepth == Val(p.maxInlineDepth, 2)
      && r.maxInlineLen == Val(p.maxInlineLen, 100)
      && r.inlineArraySpaceAfterComma == Val(p.inlineArraySpaceAfterComma, true)
      && r.inlineObjectSpaceAfterComma == Val(p.inlineObjectSpaceAfterComma, true)
      && r.inlineObjectAlignValues == Val(p.inlineObjectAlignValues, true)
  {
  }

  /** The second argument of the public `stringify`. */
  datatype SecondArg =
    | Omitted
    | NullArg
    | FunctionArg
    | StringArg(s: string)
    | NumberArg(n: int)
    | ArrayArg(allowList: seq<string>)
    | RecordArg(p: PartialOptions)

  /** `isReplacerType`: a function, a string or a number. */
  predicate IsReplacerType(a: SecondArg)
    ensures !IsReplacerType(a) <==> a.Omitted? || a.NullArg? || a.ArrayArg? || a.RecordArg?
  {
    a.FunctionArg? || a.StringArg? || a.NumberArg?
  }

  /** The replacer and the options argument that `stringify` goes on with. */
  datatype CallShape = CallShape(replacer: SecondArg, spaceOrOptions: SpaceOrOptions)

  /**
   * The second argument read as `spaceOrOptions`. An array is an object whose
   * option properties are all absent.
   */
  function AsOptions(a: SecondArg): (r: SpaceOrOptions)
    requires !IsReplacerType(a)
    ensures FillOptions(r) == (if a.RecordArg? then FillOptionsCore(a.p) else DEFAULTS)
  {
    match a
    case Omitted => NoOptions
    case NullArg => NullOptions
    case ArrayArg(_) => OptionsRecord(EMPTY)
    case RecordArg(p) => OptionsRecord(p)
  }

  /**
   * The argument shuffle as the code does it: a replacer-typed second
   * argument is the replacer and the third argument the options; any other
   * second argument REPLACES the third argument, which is then lost.
   */
  function ShuffleArgs(arg2: SecondArg, arg3: SpaceOrOptions): (c: CallShape)
    ensures IsReplacerType(arg2) ==> c == CallShape(arg2, arg3)
    ensures !IsReplacerType(arg2) ==> c.replacer == NullArg
    ensures !IsReplacerType(arg2) ==> c.spaceOrOptions == AsOptions(arg2)
  {
    if IsReplacerType(arg2) then CallShape(arg2, arg3)
    else CallShape(NullArg, AsOptions(arg2))
  }

  /**
   * `stringify(v, null, 4)`, an overload the code declares for compatibility
   * with the built-in serializer, resolves to an indent of 2, not 4; an
   * allow-list array as second argument is dropped together with the third.
   */
  lemma ShuffleArgsDropsSpace()
    ensures FillOptions(ShuffleArgs(NullArg, SpaceLen(4)).spaceOrOptions).spaceLen == 2
    ensures FillOptions(ShuffleArgs(Omitted, SpaceLen(4)).spaceOrOptions).spaceLen == 2
    ensures ShuffleArgs(ArrayArg(["a"]), SpaceLen(4)) == CallShape(NullArg, OptionsRecord(EMPTY))
  {
  }

  /**
   * The shuffle the declared overloads describe: only an options record in
   * second position is taken as options; anything else there is the
   * replacer (`null` and absent meaning none), and the third argument keeps
   * its role.
   */
  function ShuffleArgsIntended(arg2: SecondArg, arg3: SpaceOrOptions): (c: CallShape)
    ensures arg2.RecordArg? ==> FillOptions(c.spaceOrOptions) == FillOptionsCore(arg2.p)
    ensures !arg2.RecordArg? ==> c == CallShape(arg2, arg3)
  {
    if arg2.RecordArg? then CallShape(NullArg, OptionsRecord(arg2.p))
    else CallShape(arg2, arg3)
  }

  /** The two shuffles agree except where the second argument is `null`, absent, or an array. */
  lemma ShuffleArgsAgreement(arg2: SecondArg, arg3: SpaceOrOptions)
    requires !(arg2.NullArg? || arg2.Omitted? || arg2.ArrayArg?)
    ensures FillOptions(ShuffleArgs(arg2, arg3).spaceOrOptions)
         == FillOptions(ShuffleArgsIntended(arg2, arg3).spaceOrOptions)
  {
  }
}
