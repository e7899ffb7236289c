# ReadableJson formatting engine in Dafny

ReadableJson writes JSON in a way people can read. Its `stringify` decides, at
every array and object, whether the node goes on one line or is spread over
several indented lines.

- A node is written on one line when two conditions hold:
  - its nesting depth is at most `maxInlineDepth`;
  - its one-line text fits in `maxInlineLen` minus the width of what already
    stands on its line.
- Otherwise each child goes on its own line, indented `spaceLen` more than
  its container.
- In a multi-line object, key literals are padded to a common width, so the
  values line up. Keys longer than `maxKeyAlignLen` are left out of that
  width and written unpadded.

This project models that engine and proves what it does.

## Modules

- `JsonValues` (`json_values.dfy`):
  - the value tree: `null`, booleans, integers, strings, `undefined`, arrays,
    and objects with their keys in order;
  - the literals the runtime's serializer writes for primitives and keys.
- `ReadableOptions` (`options.dfy`):
  - option resolution: a partial record, a bare indent, or nothing, merged
    over the defaults;
  - the argument shuffle of the public `stringify`, which tells a replacer
    from options.
- `InlineStringifier` (`inline.dfy`):
  - the depth gate `isLeafDepthLEQ` as a loop with an early exit;
  - the one-line renderers `tryStringifyInline` and `tryStringifyInlineArray`,
    as loops that give up as soon as the text under construction exceeds the
    budget.

  Each method is proved equal to a specification function: `LeafDepthLEQ`,
  or `InlineText`, which is built on the complete one-line text `Compact`.
  Lemmas then state the layout of `Compact`: separators, entry order,
  `undefined` entries dropped and `undefined` elements written `null`.
- `FullStringifier` (`full.dfy`):
  - the dispatcher `stringify`;
  - the multi-line renderers `stringifyFull` and `stringifyFullArray`, as
    loops appending to a string;
  - `getSortedKVs`, as a loop that collects the entries and keeps a running
    maximum.

  Each method is proved equal to a specification function: `Render`, `Full`
  or `DefinedKVs`/`KeyAlignLen`. The outcome type models the three things a
  call can produce: a string, the value `undefined`, or a thrown
  `RangeError`. `" ".repeat` throws `RangeError` for a negative count, which
  a negative `spaceLen` can produce.
- `FullLayout` (`full_layout.dfy`), properties of the dispatcher and the
  multi-line form:
  - which form a value takes;
  - when a `RangeError` escapes;
  - key alignment;
  - the prefix each child is dispatched with;
  - the text of a multi-line container, as its child lines joined by commas
    between the opening bracket and a closing line.
- `ReadableJson` (`readable_json.dfy`): the public `stringify`.
  - The arguments are shuffled and the options resolved as the code does it.
  - A resolved indent of 0 goes to the built-in serializer.
  - Otherwise the dispatcher renders the value at prefix 0 and indentation 0.
  - The wiring the code has instead (below) is modelled beside it, and so is
    the argument shuffle the declared overloads describe.
- `Examples` (`examples.dfy`): expected outputs from the repository's tests,
  computed from the model.

One behaviour of the code is kept as it is.

- **`undefined` elements differ between the two forms.**
  - The one-line form writes an `undefined` array element as `null`.
  - The multi-line form hands it to the built-in serializer. That returns
    `undefined`, and concatenating it writes the text `undefined`.
  - So `[1, undefined]` with `maxInlineLen: 5` comes out as
    `[\n  1,\n  undefined\n]` (`FullLayout.UndefinedElementLine`,
    `Examples.UndefinedInMultiLineArray`).

One is a deviation: the model's main entry point does not follow the code.

- **The public `stringify` throws its text away as written.**
  - With a non-zero indent it wraps the value in a `JsonObj`, whose one own
    property is `v` (ts/src/ReadableJson.ts:149-152, 168-181).
  - It calls the dispatcher on that wrapper, which lays out the object
    `{"v": value}`. That can raise `RangeError` for a negative `spaceLen`.
  - The text is then dropped, and the call returns the wrapper's `vJson`
    field, which nothing assigns: `undefined`.
  - `ReadableJson.StringifyWrapped` models this wiring, and
    `ReadableJson.WrappedLosesText` shows that `stringify(5)` returns
    `undefined` with it.
  - `ReadableJson.StringifyResult` and `ReadableJson.Stringify` follow the
    commented-out call at ts/src/ReadableJson.ts:148 instead: the value itself
    is rendered from column 0.

## Model

| member | source | states |
|---|---|---|
| ReadableOptions.Val | ts/src/ReadableJson.ts:64-66 | the default replaces only an absent or `null` field; a supplied value (0, `false`, negative) is returned unchanged |
| ReadableOptions.FillOptionsCore | ts/src/ReadableJson.ts:53-63 | a supplied `spaceLen` or `maxInlineLen` is kept as given; a missing or `null` one becomes its default (2, 100) |
| ReadableOptions.FillOptions | ts/src/ReadableJson.ts:68-77 | a bare number sets `spaceLen` to that number and leaves every other field at its default |
| ReadableOptions.FillOptionsDefaults | ts/src/ReadableJson.ts:53-77 | no argument, `null` or `{}` resolve to the defaults 2, 16, 2, 100, true, true, true |
| ReadableOptions.FillOptionsKeepsSupplied | ts/src/ReadableJson.ts:53-66 | each of the seven fields of a partial record is kept when supplied and defaulted otherwise, without clamping |
| ReadableOptions.IsReplacerType | ts/src/ReadableJson.ts:80-84 | a function, string or number in second position is the replacer; exactly an absent argument, `null`, an array or an options record is not |
| ReadableOptions.AsOptions | ts/src/ReadableJson.ts:136-140 | a second argument that is not replacer-typed resolves as options: a record to its fields over the defaults, `null`, absent or an array to the defaults |
| ReadableOptions.ShuffleArgs | ts/src/ReadableJson.ts:132-140 | a function, string or number in second position is the replacer and the third argument stays the options; anything else replaces the third argument as the options, read by `AsOptions`, and the replacer is `null` |
| ReadableOptions.ShuffleArgsDropsSpace | ts/src/ReadableJson.ts:132-140 | as written, `stringify(v, null, 4)` and `stringify(v, undefined, 4)` resolve to indent 2, and an allow-list array discards the third argument |
| ReadableOptions.ShuffleArgsIntended | ts/src/ReadableJson.ts:95-125 | only an options record in second position is taken as options; otherwise the second argument is the replacer and the third keeps its role, as the declared overloads describe |
| ReadableOptions.ShuffleArgsAgreement | ts/src/ReadableJson.ts:132-140 | the code's shuffle and the intended one resolve to the same options except when the second argument is `null`, absent or an array |
| JsonValues.Quote | ts/src/FullStringifier.ts:104 | a key literal starts and ends with a quote and is at least two characters longer than the key |
| JsonValues.EscapePlain | ts/src/FullStringifier.ts:104 | a key without quotes, backslashes or control characters is not changed by escaping |
| JsonValues.QuotePlain | ts/src/FullStringifier.ts:104 | such a key's literal is the key between two quotes |
| JsonValues.Literal | ts/src/InlineStringifier.ts:45-48 | a primitive's literal is non-empty, and a string's literal is longer than the string by at least its two quotes |
| InlineStringifier.ElemsDepthAtMost | ts/src/InlineStringifier.ts:25-31 | an array's children have depth at most `m` exactly when `m >= 0` and every element is shallower than `m` |
| InlineStringifier.EntriesDepthAtMost | ts/src/InlineStringifier.ts:32-36 | an object's children have depth at most `m` exactly when `m >= 0` and every property value is shallower than `m` |
| InlineStringifier.LeafDepthLEQPrimitive | ts/src/InlineStringifier.ts:22-41 | a primitive passes the depth gate exactly when the bound is non-negative, so nothing passes a negative bound |
| InlineStringifier.LeafDepthLEQComposite | ts/src/InlineStringifier.ts:22-38 | an array or object passes at `d` iff `d >= 0` and every child passes at `d - 1`; an empty one passes at every `d >= 0` |
| InlineStringifier.LeafDepthLEQ | ts/src/InlineStringifier.ts:22-42 | no value passes the depth gate at a negative bound |
| InlineStringifier.IsLeafDepthLEQ | ts/src/InlineStringifier.ts:22-42 | the loop with early exit returns exactly whether the leaf depth is at most the bound (false for a negative bound) |
| InlineStringifier.Compact | ts/src/InlineStringifier.ts:54-101 | the one-line text of an array or object is at least its two brackets long |
| InlineStringifier.InlineText | ts/src/InlineStringifier.ts:44-81 | an accepted array or object is no longer than the budget; a budget below 2 accepts no array or object; an accepted text is the one-line text |
| InlineStringifier.InlineAttempt | ts/src/InlineStringifier.ts:9-13 | a text comes back exactly when the value passes the depth gate at `maxInlineDepth` and, for an array or object, the prefix plus its one-line length is at most `maxInlineLen`; the text is the one-line text |
| InlineStringifier.ArraySep | ts/src/InlineStringifier.ts:88 | the array separator is `", "` exactly when `inlineArray_spaceAfterComma` is set, and `","` otherwise |
| InlineStringifier.ObjectSep | ts/src/InlineStringifier.ts:65 | the object separator is `", "` exactly when `inlineObject_spaceAfterComma` is set, and `","` otherwise |
| InlineStringifier.TryStringify | ts/src/InlineStringifier.ts:6-14 | `null` when the depth gate at `maxInlineDepth` fails; otherwise the inline result for the budget `maxInlineLen - inlinePrefixLen`, so an accepted container ends within `maxInlineLen` |
| InlineStringifier.TryStringifyInline | ts/src/InlineStringifier.ts:44-81 | the object loop with length checks after the separator, the key and the closing brace yields the one-line text if it fits the budget and `null` otherwise; a primitive yields its literal |
| InlineStringifier.TryStringifyInlineArray | ts/src/InlineStringifier.ts:82-102 | the element loop with length checks yields the one-line array text if it fits the budget and `null` otherwise |
| InlineStringifier.CompactEntriesStep | ts/src/InlineStringifier.ts:58-77 | one loop step: an `undefined` property adds nothing; any other adds the separator (unless first), `"key":` and the value |
| InlineStringifier.CompactElemsStep | ts/src/InlineStringifier.ts:86-98 | one loop step: the separator (unless first) and the element's text |
| InlineStringifier.Defined | ts/src/InlineStringifier.ts:58-61 | the kept entries have defined values and come from the object, and an object without `undefined` values keeps all its entries |
| InlineStringifier.DefinedConcat | ts/src/InlineStringifier.ts:58-61 | skipping `undefined` properties over two runs of properties is skipping them over each, in order |
| InlineStringifier.DefinedKeepsDefined | ts/src/InlineStringifier.ts:58-61 | every property whose value is defined is kept |
| InlineStringifier.CompactArrayLayout | ts/src/InlineStringifier.ts:82-102 | one-line array: `[`, the element texts joined by `", "` or `","` per `inlineArray_spaceAfterComma`, `]` |
| InlineStringifier.CompactObjectLayout | ts/src/InlineStringifier.ts:54-81 | one-line object: `{`, `"key":value` for each property whose value is defined, in order, no space after the colon, joined per `inlineObject_spaceAfterComma`, `}` |
| InlineStringifier.CompactNullsUndefinedElements | ts/src/InlineStringifier.ts:92 | an `undefined` element is written exactly as `null` would be |
| InlineStringifier.CompactDropsUndefinedEntries | ts/src/InlineStringifier.ts:58-66 | a property whose value is `undefined` leaves no key and no separator behind |
| InlineStringifier.InlinePrimitiveIgnoresBudget | ts/src/InlineStringifier.ts:45-48 | a primitive is returned as its literal whatever the budget, so a string literal can exceed it |
| FullStringifier.Spaces | ts/src/FullStringifier.ts:42 | `n` characters, all spaces |
| FullStringifier.DefinedKVs | ts/src/FullStringifier.ts:100-111 | no more items than the object has properties |
| FullStringifier.DefinedKVsFromEntries | ts/src/FullStringifier.ts:100-110 | every collected item is a property of the object with a defined value, carrying its key's literal |
| FullStringifier.KeyAlignLen | ts/src/FullStringifier.ts:106-109 | the common key width is 0 or at most `maxKeyAlignLen` |
| FullStringifier.KeyAlignLenIsMax | ts/src/FullStringifier.ts:86-113 | the common key width is 0 or the length of some key literal within `maxKeyAlignLen`, and no such literal is longer |
| FullStringifier.Concatenated | ts/src/FullStringifier.ts:79 | appending a string adds its text, and appending `undefined` adds the text `undefined` |
| FullStringifier.Pad | ts/src/FullStringifier.ts:54-57 | a key literal shorter than the width is extended with spaces to exactly the width; a longer one is unchanged |
| FullStringifier.Enclose | ts/src/FullStringifier.ts:64-66 | a container is text iff its body is text and the closing indentation is non-negative, and then has the length of opening, body, newline, indentation and bracket |
| FullStringifier.Render | ts/src/FullStringifier.ts:11-26 | the dispatcher yields `undefined` exactly for `undefined` |
| FullStringifier.Full | ts/src/FullStringifier.ts:28-84 | the multi-line form is never `undefined`, and raises `RangeError` when the own or the child indentation is negative |
| FullStringifier.FullObjectText | ts/src/FullStringifier.ts:41-66 | the multi-line object text is never `undefined` and raises `RangeError` for a negative closing indentation |
| FullStringifier.ElemLine | ts/src/FullStringifier.ts:78-79 | an element line is never `undefined`, even for an `undefined` element |
| FullStringifier.FullElems | ts/src/FullStringifier.ts:74-80 | the element lines are never `undefined` |
| FullStringifier.EntryLine | ts/src/FullStringifier.ts:51-62 | an entry line is never `undefined` |
| FullStringifier.FullEntries | ts/src/FullStringifier.ts:47-63 | the entry lines are never `undefined` |
| FullStringifier.FullElemsStep | ts/src/FullStringifier.ts:74-80 | one element-loop step appends the element's line (with a leading comma unless first), or the whole array raises the element's `RangeError` |
| FullStringifier.FullEntriesStep | ts/src/FullStringifier.ts:47-63 | one entry-loop step appends the entry's line (with a leading comma unless first), or the whole object raises the entry's `RangeError` |
| FullStringifier.Stringify | ts/src/FullStringifier.ts:11-26 | the dispatcher method yields the literal of a primitive, the inline text when accepted, else the multi-line text, as `Render` specifies |
| FullStringifier.StringifyFull | ts/src/FullStringifier.ts:28-44 | `stringifyFull` yields the multi-line form `Full` of its array or object |
| FullStringifier.StringifyFullEntries | ts/src/FullStringifier.ts:45-66 | the entry loop and closing line yield `{`, the entry lines, and `}` at the container's indentation |
| FullStringifier.AppendEntry | ts/src/FullStringifier.ts:51-62 | appending newline and indentation, padded key, `": "` and the value dispatched at prefix `keyIndentLen + paddedKeyLen + 2` gives `str` plus the entry line, or its `RangeError` |
| FullStringifier.StringifyFullArray | ts/src/FullStringifier.ts:68-84 | `stringifyFullArray` yields the multi-line array `Full`, each element dispatched at prefix and indentation `indentLen + spaceLen` |
| FullStringifier.GetSortedKVs | ts/src/FullStringifier.ts:86-114 | the loop collects the defined properties in key order with their literals, and its running maximum is the common key width |
| FullLayout.RenderChoice | ts/src/FullStringifier.ts:11-26 | a primitive is its literal whatever the prefix; a container is its one-line text exactly when it passes the depth gate and `prefix + length <= maxInlineLen`, else its multi-line text |
| FullLayout.RenderTotal | ts/src/FullStringifier.ts:11-84 | with non-negative `spaceLen` and indentation, no `RangeError` escapes from any value |
| FullLayout.FullTotal | ts/src/FullStringifier.ts:28-84 | with non-negative `spaceLen` and indentation, the multi-line form always produces a string |
| FullLayout.FullElemsTotal | ts/src/FullStringifier.ts:74-80 | with non-negative `spaceLen`, the element lines always produce a string |
| FullLayout.FullEntriesTotal | ts/src/FullStringifier.ts:47-63 | with non-negative `spaceLen`, the entry lines always produce a string |
| FullLayout.RootThrowsIff | ts/src/FullStringifier.ts:41-81 | at indentation 0, a `RangeError` escapes exactly when `spaceLen < 0` and the value is a container not written on one line |
| FullLayout.KeyColumn | ts/src/FullStringifier.ts:54-57 | every key literal within `maxKeyAlignLen` is padded to exactly the common width; a longer key is written unpadded |
| FullLayout.EntryValuePlacement | ts/src/FullStringifier.ts:59-62 | a container value stays on its key's line iff it passes the depth gate and fits after the prefix `keyIndentLen + paddedKeyLen + 2`; otherwise it is multi-line at `keyIndentLen` |
| FullLayout.ElemPlacement | ts/src/FullStringifier.ts:79 | a container element is one line iff it passes the depth gate and fits after the prefix `indentLen + spaceLen`; otherwise it is multi-line at that indentation |
| FullLayout.CollectedAreDefined | ts/src/FullStringifier.ts:94-111 | the multi-line form collects exactly the properties the one-line form writes, the defined ones in key order, none sorted |
| FullLayout.UndefinedElementLine | ts/src/FullStringifier.ts:79 | in a multi-line array an `undefined` element is the text `undefined`, where the one-line form writes `null` |
| FullLayout.FullElemsJoin | ts/src/FullStringifier.ts:74-80 | the element loop's text is the element lines joined by commas |
| FullLayout.FullEntriesJoin | ts/src/FullStringifier.ts:47-63 | the entry loop's text is the entry lines joined by commas |
| FullLayout.ArrayTextLayout | ts/src/FullStringifier.ts:72-83 | the array text is `[`, the element lines joined by commas, and the closing line |
| FullLayout.FullArrayLayout | ts/src/FullStringifier.ts:68-84 | a multi-line array is `[`, one line per element at `indent + spaceLen`, commas between, then a newline, `indent` spaces and `]` |
| FullLayout.ObjectTextLayout | ts/src/FullStringifier.ts:45-66 | the object text is `{`, the entry lines joined by commas, and the closing line |
| FullLayout.FullObjectLayout | ts/src/FullStringifier.ts:28-67 | a multi-line object is `{`, one line per defined property at `indent + spaceLen` with its key padded to the common width, commas between, then a newline, `indent` spaces and `}` |
| ReadableJson.CallOptions | ts/src/ReadableJson.ts:131-140 | the options as the code's shuffle resolves them: after a function, string or number the third argument is resolved; an options record in second position is resolved over the defaults; `null`, absent or an array in second position gives the defaults |
| ReadableJson.StringifyResult | ts/src/ReadableJson.ts:131-148 | with the options the code resolves, the built-in serializer is used exactly when the indent is 0, and receives the second argument only when it is replacer-typed; otherwise the output is the dispatcher's rendering at prefix 0 and indentation 0 |
| ReadableJson.Stringify | ts/src/ReadableJson.ts:128-148 | the entry point computes `StringifyResult` |
| ReadableJson.StringifyWrapped | ts/src/ReadableJson.ts:131-152 | as wired, the built-in serializer is used exactly when the indent is 0; otherwise the result is `undefined`, or the `RangeError` raised while laying out the wrapper |
| ReadableJson.WrappedLosesText | ts/src/ReadableJson.ts:149-152 | with a positive indent the wired call returns `undefined` for every value, where rendering the value returns `5` for `stringify(5)` |
| ReadableJson.DefaultCall | ts/src/ReadableJson.ts:125-145 | `stringify(value)` renders with the default options |
| ReadableJson.IndentAfterReplacer | ts/src/ReadableJson.ts:131-140 | after a function, string or number, a non-zero number in third position is the indent, with every other option at its default |
| ReadableJson.IndentAfterNullLost | ts/src/ReadableJson.ts:131-140 | after `null`, an absent argument or an array, the third argument is lost and the document is formatted with the defaults |
| ReadableJson.ReplacerIgnored | ts/src/ReadableJson.ts:131-148 | with a replacer-typed second argument, the formatted text is the one the third argument's options alone give |
| ReadableJson.PositiveIndentNeverThrows | ts/src/ReadableJson.ts:143-148 | with a positive indent the call never throws, and yields `undefined` only for `undefined` |
| ReadableJson.NegativeIndentThrows | ts/src/ReadableJson.ts:143-148 | with a negative indent the call throws exactly for a container that is not written on one line |
| ReadableJson.StringifyResultIntended | ts/src/ReadableJson.ts:95-125 | with the shuffle the declared overloads describe, the built-in serializer is used exactly when the resolved indent is 0; otherwise the output is the rendering at prefix 0 and indentation 0 |
| ReadableJson.IndentArgument | ts/src/ReadableJson.ts:95-102 | with the shuffle the overloads describe, a non-zero number in third position is the indent after any second argument but an options record |
| ReadableJson.IntendedAgrees | ts/src/ReadableJson.ts:131-140 | the code's entry point and the intended one give the same result except after a `null`, absent or array second argument |
| Examples.InlineArrayTest | ts/tests/ReadableJson.qunit.ts:39 | `[1, 2, true, false]` with `maxInlineLen: 40` is written as it stands |
| Examples.InlineObjectTest | ts/tests/ReadableJson.qunit.ts:40 | `{"a":1, "b":2}` with `maxInlineLen: 40` is written as it stands |
| Examples.UndefinedValueDropped | ts/tests/ReadableJson.qunit.ts:13 | `{a: undefined, b: 2}` with `maxInlineLen: 40` is `{"b":2}` |
| Examples.UndefinedIsNullInArray | ts/tests/ReadableJson.qunit.ts:19-22 | `[1, undefined]` with the defaults is `[1, null]` |
| Examples.UndefinedInMultiLineArray | ts/src/FullStringifier.ts:74-81 | `[1, undefined]` with `maxInlineLen: 5` is `[`, `  1,`, `  undefined`, `]` on four lines, while its one-line text is `[1, null]` |
| Examples.MaxInlineLenTen | ts/tests/ReadableJson.qunit.ts:50-57 | with `maxInlineLen: 10`, `"a": [1]` stays on one line and `[1, 2]` after `  "b": ` is multi-line |
| Examples.KeyAlignment | ts/tests/ReadableJson.qunit.ts:80-86 | the test's object `{"123": [1, 2, 3], "a": 1, "thisOneIsWayTooLong": 2}` collects three items; `"123"` and `"a"` share the width 5, `"a"` is padded to it, and the long key's literal is unpadded |

## Left out

- The runtime's built-in JSON serializer is not modelled as such.
  - Primitive and key literals are concrete stand-ins: integers in decimal,
    strings quoted and escaped as in section 7 of RFC 8259.
  - Non-integral numbers, `NaN`, `Infinity`, `toJSON`, functions, symbols,
    getters and cyclic references are not modelled.
  - The output of the `spaceLen == 0` fast path is not modelled
    (`ReadableJson.Output.BuiltinJson` only records its arguments), and
    neither is the replacer, which the formatter ignores.
- Lengths count characters, where the runtime's `length` counts UTF-16 code
  units. Numbers are unbounded integers, not doubles.
- Object keys are taken in the order the value lists them. The runtime's
  `Object.keys` order (integer-like keys first) is not modelled.
- Of the `JsonObj` class (ts/src/ReadableJson.ts:168-181) only its use as
  the wrapper in `stringify` is modelled, by `ReadableJson.StringifyWrapped`.
  Its other fields are never written.
- `stringifyAndLog` and console output are not modelled.
- ts/src/AlignedStringifier.ts, ts/src/Util.ts and ts/src/ReadabjeJson.ts are
  not part of this model, and neither is the unused `aligner` parameter of
  the dispatcher. The aligner is unfinished and never called, Util only
  serves it, and ReadabjeJson.ts is a pass-through to the built-in
  serializer.
- The option `inlineObject_alignValues` is resolved, but the formatter never
  reads it.
- `FullStringifier` and `InlineStringifier` are classes whose only state is
  the options, which they never change. They are modelled as module-level
  methods and functions taking the options as a parameter.
- `stringifyFull`'s object loop is split over `FullStringifier.StringifyFull`,
  `FullStringifier.StringifyFullEntries` and `FullStringifier.AppendEntry`.
  The appends and their order are those of ts/src/FullStringifier.ts:45-64.
- InlineStringifier.TryStringify: requires a value other than `undefined`.
  Its only caller passes arrays and objects.
- InlineStringifier.TryStringifyInline: requires a value other than
  `undefined`. The array loop writes `null` for one and the object loop skips
  it, so no caller passes it.
- FullStringifier.StringifyFull: requires an array or object. Its branch for
  primitives (ts/src/FullStringifier.ts:29-32) is unreachable from its only
  caller and is not modelled.
- FullStringifier.DefinedKVs: its own contract states only the length bound.
  Which items it collects is stated by `FullStringifier.DefinedKVsFromEntries`
  and `FullLayout.CollectedAreDefined`.
- FullLayout.RootThrowsIff: the exact condition for a `RangeError` is stated
  for indentation 0 only. At a positive indentation a negative `spaceLen`
  throws only once the indentation it reaches turns negative.
- The round trip (parsing the output gives back the input) is not modelled:
  it would need a JSON parser.

## Findings

| source | as written | input that shows it | evidently intended | confidence | as-written member | corrected member |
|---|---|---|---|---|---|---|
| ts/src/ReadableJson.ts:131-140 | any second argument that is not a function, string or number overwrites the third argument | `stringify(v, null, 4)`, an overload declared at ts/src/ReadableJson.ts:102, resolves to indent 2 instead of 4 | only an options record in second position replaces the options; `null`, an absent value or an allow-list array is the replacer and the third argument stays the indent | not executed | ReadableOptions.ShuffleArgsDropsSpace | ReadableOptions.ShuffleArgsIntended |
| ts/src/ReadableJson.ts:149-152 | the dispatcher lays out a wrapper object, the text is dropped and the wrapper's never-assigned `vJson` field is returned | `stringify(5)` returns `undefined` instead of `5` | the commented-out call at ts/src/ReadableJson.ts:148: render the value from column 0 and return the text | not executed | ReadableJson.WrappedLosesText | ReadableJson.StringifyResult |
