# json2json: a Dafny model of the projection engine

`json2json(document, template)` builds a new JSON document from an existing
one. The template says how. A template is one of three things:

- a **path string** such as `foo.bar.baz`, `foo.not_exist_key?.bar`,
  `foo[].bar` or `$root.foo`;
- a **function** from the current scope to a value;
- an **object** with an optional `$path`, then an optional `$formatting`,
  then output keys whose own templates project the narrowed and formatted
  scope.

The engine's implementation is not part of this model. The repository's
test suite (`test/index.js`) pins down its behaviour. This project is a
reference semantics written against those tests. The tests are restated as
lemmas and proved from the general definitions.

Modules:

- `Json` (`json.dfy`)
  - Documents: `Absent` stands for both `undefined` and `null`.
  - The two errors. `Deref` is a required read from an absent base, with
    its host message. `NotArray` is a `[]` marker on something that is not
    an array.
  - `Result`.
  - The `Plain | Distributed` wrapper. It records that a result came out of
    an explicit `[]` broadcast, as opposed to merely being an array.
- `Paths` (`paths.dfy`)
  - Splitting a path on `.` and joining it again.
  - Reading the `?` and `[]` markers off a segment (`name?[]`).
  - The leading `$root` marker.
  - Rendering a parsed path back to text, with the round trip proved.
- `Resolver` (`resolver.dfy`): walking a value segment by segment.
  - An optional segment short-circuits to absent.
  - A required read from an absent base is a dereference error.
  - A `[]` hands the rest of the path to every element of an array, in
    order. The first failing element aborts the walk.
- `Evaluator` (`evaluator.dfy`)
  - The three template kinds and the `$path` → `$formatting` → output-keys
    pipeline, with the root document threaded unchanged through every call.
  - Broadcast over a distributed scope.
  - The entry point `Json2Json`.
- `TestPaths` (`test_paths.dfy`): each path string used by the test suite,
  and the segments it parses to.
- `Scenarios` (`scenarios.dfy`): the test cases themselves, over the suite's
  two documents. User functions are left arbitrary wherever the expected
  output does not depend on what they compute.

Path strings are parsed once, when a template is built (`StringTemplate`,
`ObjectTemplate`). Parsing is a pure function of the string, so this agrees
with parsing at every use.

## Model

| member | source | states |
|---|---|---|
| Json.Message | test/index.js:35-41 | a dereference error's message is "Cannot read property '", then exactly the field name, then "' of undefined" |
| Paths.JoinSplit | test/index.js:21-27 | joining the pieces that a path string splits into gives back the string |
| Paths.Split | test/index.js:21-27 | a path string splits into at least one piece, no piece contains a dot, and a dot-free string is its own only piece; `Paths.JoinSplit` and `Paths.SplitJoin` prove splitting inverse to joining |
| Paths.SplitJoin | test/index.js:21-27 | splitting dot-free pieces joined by dots gives back the pieces |
| Paths.SplitCons | test/index.js:132-154 | a dot-free first piece, a dot and a tail split into that piece followed by the tail's pieces |
| Paths.RenderParseSegment | test/index.js:42-48 | reading the markers off a segment text and writing them back gives the same text |
| Paths.ParseSegment | test/index.js:42-48 | a segment's field name is its text up to the markers; the segment flattens exactly when its text ends in `[]`, and is optional exactly when what precedes that ends in `?` |
| Paths.ParseRenderSegment | test/index.js:157-167 | a canonical segment written with its markers reads back as the same field name and markers |
| Paths.ParseRenderPath | test/index.js:132-154 | a canonical parsed path, rendered with its `$root` marker if any, parses back to itself |
| Paths.ParsePath | test/index.js:132-154 | a path is rooted exactly when its first piece is `$root`; it has one segment per remaining piece, each that piece read as a segment; `Paths.ParseRenderPath`, `Paths.RootPrefix` and `Paths.ParseJoin` relate it to rendering and joining |
| Paths.RootPrefix | test/index.js:132-154 | prefixing `$root.` to any path gives a root-anchored path over the segments of the original text |
| Paths.PlainSegment | test/index.js:21-27 | a segment text without markers reads as a required, non-flattening read of that field |
| Paths.ParseJoin | test/index.js:21-27 | dot-free pieces joined by dots parse as those pieces' segments; a first piece equal to `$root` marks the path as rooted |
| Resolver.ResolveEach | test/index.js:157-167 | walking the rest of a path from every element succeeds exactly when every element's walk does; the results keep the elements' number and order, each the unwrapped walk of its element; a failure is the first failing element's error |
| Resolver.Step | test/index.js:28-41 | one read fails exactly when its base is absent and the segment is neither optional nor a bare `[]`, and then with a dereference error naming its field; a present base gives its field, an absent base read optionally gives absent, and a bare `[]` hands on its base unchanged |
| Resolver.ResolveSegs | test/index.js:157-167 | a walk yields a distributed result only when some segment of the path carries `[]`; the rest of its behaviour is stated by `Resolver.ResolveNest`, `Resolver.ResolveAppend`, `Resolver.Broadcast` and `Resolver.ErrorBlamesSegment` |
| Resolver.ErrorBlamesSegment | test/index.js:35-41 | a dereference error names a required segment of the path, and a not-an-array error names a `[]` segment |
| Resolver.ResolveNest | test/index.js:21-27 | walking an existing chain of fields yields exactly the value at its end, as a plain result |
| Resolver.ResolveAppend | test/index.js:21-34 | after a prefix of plain reads, the rest of the path continues from wherever the prefix stopped, and a failing prefix fails the whole path |
| Resolver.ReadPastScalar | test/index.js:28-34 | after a prefix of plain reads, one more plain read past a present non-object value gives absent, not an error |
| Resolver.StrictDeref | test/index.js:35-41 | after a prefix of plain reads, a required read from an absent value fails with a dereference error naming that field, whatever follows it |
| Resolver.OptionalShortCircuit | test/index.js:42-48 | after a prefix of plain reads, an optional segment whose read yields nothing ends the whole walk with absent, whatever follows it |
| Resolver.OptionalRescues | test/index.js:35-48 | marking the read of a missing field optional turns the next required read's dereference error into an absent result |
| Resolver.Broadcast | test/index.js:157-167 | after a `[]` over an array, the walk succeeds iff the rest of the path succeeds from every element, and yields a broadcast of the same length and order holding each element's result |
| Resolver.BareFlatten | test/index.js:213-231 | a path that is only `[]` broadcasts over the scope's own elements, unchanged |
| Resolver.FlattenMissingField | test/index.js:157-167 | `name[]` on an object without `name` fails with a not-an-array error naming `name`, whatever follows, and `name?[]` there ends the walk with absent |
| Resolver.RootIgnoresScope | test/index.js:132-154 | a `$root.` path gives the same result whatever the current scope: `Resolver.Resolve` switches to the root document for a rooted path |
| Evaluator.Eval | test/index.js:51-131 | a function template always succeeds with a plain result; a string template broadcasts only through a `[]` segment; an object template with output keys yields, over a plain scope, an object with exactly those keys |
| Evaluator.EvalObject | test/index.js:92-114 | an object template with output keys yields an object whose keys are exactly the declared keys, once for a plain scope and once per element for a broadcast |
| Evaluator.Project | test/index.js:92-102 | a successful projection has exactly the declared output keys |
| Evaluator.ProjectEach | test/index.js:195-212 | a successful broadcast projection has one object per element, each with exactly the declared keys |
| Evaluator.AllPassAt | test/index.js:35-41 | when every key of a range lets projection pass, each key in it is repeated later or has a template that succeeds |
| Evaluator.AllPassFrom | test/index.js:35-41 | conversely, when each key of a range is repeated later or has a template that succeeds, the range lets projection pass |
| Evaluator.ProjectOk | test/index.js:35-41 | a projection succeeds exactly when every output key lets it pass: the key is repeated later, or its template succeeds |
| Evaluator.ProjectFirstError | test/index.js:35-41 | a failing projection fails with the error of an unrepeated output key whose template fails, every earlier key having let it pass |
| Evaluator.ProjectValueAt | test/index.js:92-102 | the last occurrence of an output key holds its own template's unwrapped result against the projected element |
| Evaluator.ProjectValues | test/index.js:92-131 | every output key holds the unwrapped result of the template at its last occurrence, evaluated against the projected value with the same root |
| Evaluator.ProjectOutputsOnly | test/index.js:195-212 | projection depends only on the output keys, not on `$path` or `$formatting` |
| Evaluator.LastOccurrenceUnique | test/index.js:92-102 | an output key is the last occurrence of its name exactly when no later output key has that name |
| Evaluator.ShadowedKeyIgnored | test/index.js:92-102 | the template of an output key that a later key repeats is never evaluated: replacing it leaves the projection unchanged, as an object literal keeps only the last value of a repeated key |
| Evaluator.ProjectEachOk | test/index.js:195-212 | a broadcast projection succeeds exactly when every element's projection does |
| Evaluator.ProjectEachAt | test/index.js:195-212 | a successful broadcast projection holds, at every position, the projection of the element at that position |
| Evaluator.ProjectEachFirstError | test/index.js:195-212 | a failing broadcast projection fails with the error of the first element whose projection fails, every earlier element projecting successfully |
| Evaluator.PathStage | test/index.js:60-68 | `{$path: p}` and the string template `p` evaluate alike, to the resolution of `p`: this is what the `$path` stage `Evaluator.Narrow` computes |
| Evaluator.FormatStage | test/index.js:51-79 | `{$formatting: f}` and the function template `f` evaluate alike, to `f` of the scope |
| Evaluator.PathThenFormat | test/index.js:80-91 | `{$path: p, $formatting: f}` fails as `p` does, or gives `f` of the resolved value, or applies `f` to each element, in order, when `p` broadcast: this specifies the `$formatting` stage `Evaluator.Format` after `Evaluator.Narrow` |
| Evaluator.OneOutput | test/index.js:92-114 | a one-key object template over a plain scope gives a one-key object holding that key's unwrapped result, or that key's error |
| Evaluator.ProjectPlainOk | test/index.js:92-131 | over a plain scope, an object template succeeds exactly when every output key, against the narrowed-then-formatted scope, is repeated later or has a template that succeeds; otherwise it fails with the error of the first unrepeated key whose template fails |
| Evaluator.ProjectPlainValues | test/index.js:103-131 | over a plain scope, the output object has exactly the declared keys, each holding the result of the template at its last occurrence against the narrowed-then-formatted scope |
| Evaluator.BroadcastProjection | test/index.js:195-212 | over a broadcast scope, an object template succeeds iff its output keys succeed on every element, and yields, in order, what those keys give for each element alone |
| Evaluator.BroadcastFirstError | test/index.js:195-212 | over a broadcast scope, a failing object template fails with the error of the first element whose own projection fails, every earlier element projecting successfully |
| Evaluator.RootAnywhere | test/index.js:132-154 | a `$root.` string template reads the original document whatever the scope it is evaluated against |
| Evaluator.NoPartialResult | test/index.js:35-41 | if the template of any output key that no later key repeats fails, the whole transformation fails and returns no object |
| Evaluator.Json2Json | test/index.js:19-233 | the call fails exactly when the template fails against the document taken as both scope and root, and otherwise hands back its result with a broadcast turned into an array; `Evaluator.NoPartialResult` and the `Scenarios` lemmas state what that result is |
| TestPaths.MarkedSegments | test/index.js:45 | a name followed by `?` reads as an optional read, and followed by `[]` as a flattening read, of that name |
| TestPaths.MarkerOrder | test/index.js:45 | `name?[]` reads as an optional, flattening read of `name`, while `name[]?` reads as an optional read of a field literally named `name[]` |
| TestPaths.ParseFooBarBaz | test/index.js:24 | `foo.bar.baz` parses as three required reads |
| TestPaths.ParseFooBarBazQux | test/index.js:31 | `foo.bar.baz.qux` parses as four required reads |
| TestPaths.ParseFooBarBazQuxQuux | test/index.js:38 | `foo.bar.baz.qux.quux` parses as five required reads |
| TestPaths.ParseOptionalChain | test/index.js:45 | `foo.not_exist_key?.bar.baz` parses with its second segment optional |
| TestPaths.ParseFooBar | test/index.js:83 | `foo.bar` parses as two required reads |
| TestPaths.ParseBarBaz | test/index.js:107 | `bar.baz` parses as two required reads |
| TestPaths.ParseRootFoo | test/index.js:139 | `$root.foo` parses as a rooted path reading `foo` |
| TestPaths.ParseFooFlatBar | test/index.js:160 | `foo[].bar` parses as a flattening read of `foo`, then a required read of `bar` |
| TestPaths.ParseFooFlat | test/index.js:198 | `foo[]` parses as a flattening read of `foo` |
| TestPaths.ParseFlat | test/index.js:219 | `[]` parses as a flattening read with no field name |
| TestPaths.ParseName | test/index.js:106 | a single marker-free name parses as one required read |
| Scenarios.MatchNestedField | test/index.js:21-27 | `{new_foo: 'foo.bar.baz'}` gives `{new_foo: 1}` |
| Scenarios.FieldOfNumberIsAbsent | test/index.js:28-34 | `{new_foo: 'foo.bar.baz.qux'}` gives `{new_foo: undefined}`, keeping the key |
| Scenarios.FieldOfAbsentThrows | test/index.js:35-41 | `{new_foo: 'foo.bar.baz.qux.quux'}` aborts with a dereference error naming `quux` |
| Scenarios.QuuxMessage | test/index.js:40 | that error's message is "Cannot read property 'quux' of undefined" |
| Scenarios.OptionalChainStops | test/index.js:42-48 | `{new_foo: 'foo.not_exist_key?.bar.baz'}` gives `{new_foo: undefined}` without an error |
| Scenarios.FunctionSeesDocument | test/index.js:51-57 | `{new_foo: f}` gives `f` applied to the whole document, for every `f` |
| Scenarios.PathKey | test/index.js:60-68 | `{new_foo: {$path: 'foo.bar.baz'}}` gives `{new_foo: 1}` |
| Scenarios.FormattingKey | test/index.js:69-79 | `{new_foo: {$formatting: f}}` gives `f` of the whole document |
| Scenarios.PathThenFormattingKey | test/index.js:80-91 | `{new_foo: {$path: 'foo.bar', $formatting: f}}` gives `f({baz: 1})` |
| Scenarios.NestedObject | test/index.js:92-102 | `{new_foo: {new_bar: 'foo.bar.baz'}}` gives `{new_foo: {new_bar: 1}}` |
| Scenarios.NestedPath | test/index.js:103-114 | `{new_foo: {$path: 'foo', new_bar: 'bar.baz'}}` gives `{new_foo: {new_bar: 1}}` |
| Scenarios.NestedPathFormatting | test/index.js:115-131 | with `$path: 'foo'` and an `f` mapping `{bar: {baz: 1}}` to `{baz2: w}`, `new_bar: 'baz2'` reads `w` from the formatted scope |
| Scenarios.RootInnerValue | test/index.js:136-140 | the innermost template reads `baz` from its narrowed scope and `$root.foo` from the document |
| Scenarios.RootFromNestedScope | test/index.js:132-154 | the whole `$root` test gives `{new_foo: {new_bar: {new_baz1: 1, new_baz2: {bar: {baz: 1}}}}}` |
| Scenarios.ArrayedPath | test/index.js:157-167 | `{new_foo: 'foo[].bar'}` gives `{new_foo: [1, 2, 3]}` |
| Scenarios.ArrayedPathKey | test/index.js:168-180 | `{new_foo: {$path: 'foo[].bar'}}` gives `{new_foo: [1, 2, 3]}` |
| Scenarios.ArrayedFormatting | test/index.js:181-194 | with `$path: 'foo[].bar'`, `$formatting: f` runs once per element and gives `[f(1), f(2), f(3)]` |
| Scenarios.ArrayedNested | test/index.js:195-212 | with `$path: 'foo[]'`, the output key runs once per item and gives one `{new_bar: g(item)}` per item, in order |
| Scenarios.NestedArrayed | test/index.js:213-231 | `$path: '[]'` over the array at `foo` broadcasts over its items, and `new_bar` holds `[g(item) for each item]` as an array |

## Left out

- The test harness (`require`, `describe`/`it`, `assert.deepEqual`) is not
  modelled. Nor is module loading: the engine's source is not part of this
  model, so its behaviour is taken from the tests. The model states expected
  outputs as equalities of values.
- User functions are total Dafny functions `Value -> Value`. A function
  that throws, and the propagation of its exception, is not modelled.
- `+ '_formatted'` on JavaScript values is not modelled. Tests that use it
  are stated for an arbitrary function, or for any function with the one
  property the expected output depends on.
- `undefined` and `null` are one `Absent` value. Objects are maps with no
  prototype chain.
- Reads of array indices and of `length` are not modelled: a field read on
  a present non-object always gives absent.
- Number, string and boolean contents are not interpreted: numbers are
  integers only. No floating point.
- `Json.Message`: the text of the host's `TypeError` is only modelled for
  dereference errors. The not-an-array error's text is this model's own.
- A `[]` marker whose value is not an array is an error here (`NotArray`).
  This covers a present non-array value and also a field that is absent
  without a `?` marker: `missing[]` over `{}` fails with `NotArray`
  (`Resolver.FlattenMissingField`); returning absent there would be an
  equally defensible choice. With the `?` marker, `missing?[]` gives
  absent. The test suite only exercises the dereference error, and no test
  reaches these cases.
- Nested flattening is left open. No test uses two `[]` markers in one
  path. An inner broadcast is handed back as an array element, not merged
  into a single level.
- Position of a repeated output key. A template object is a JavaScript
  object literal, so a repeated key keeps only its last value, and
  `Evaluator.Project` never evaluates the templates it shadows
  (`Scenarios.RepeatedKey`). JavaScript enumerates such a key at its first
  occurrence, but the model evaluates it at its last. This can only change
  which error is reported when two keys fail.
- Enumeration order of integer-like keys. JavaScript enumerates output keys
  such as `"1"` or `"2"` first, in numeric order, whatever the written
  order. The model evaluates keys in written order. With such keys,
  `Evaluator.ProjectFirstError` may name a different failing key than the
  engine would.
- A segment written `foo[]?` is an optional read of a field literally named
  `foo[]`. Both markers are recognised only in the order `foo?[]`
  (`TestPaths.MarkerOrder`). No test puts both markers on one segment.
- A function template or a string template never sees a broadcast scope.
  Only `$formatting` and output keys run per element, and an element is a
  plain value.
- Malformed templates are mostly not representable: the `Template`
  datatype admits only the three well-formed kinds, so a `$formatting` that
  is not a function cannot be written. One form is representable but has
  no JavaScript counterpart: an output key named `$path` or `$formatting`.
  In a JavaScript object literal such a key is the stage itself. The model
  keeps the stages in their own fields, and an output so named is evaluated
  as an ordinary output key.
