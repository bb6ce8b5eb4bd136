# strict-builder in Dafny

A model of `strict-builder`, a Rust derive macro. For a struct it generates
a `<Name>Builder`. The builder gathers field values through setter methods.
Its `build` method assembles the struct, or reports the first required
field that was never set.

The model covers the macro's logic in `src/lib.rs`. It has four parts, each
stated over plain datatypes rather than token streams:

- **Wrapper-type matcher** (`Wrapped`). Recognises `Name<T>` by its first
  path segment and extracts `T`.
- **Annotation parser** (`EachAttr`). Parses the `#[builder(each = "...")]`
  grammar from a field's first attribute, including the quote trimming of
  the literal.
- **Field classifier and aggregation** (`Classify`, `Aggregate`). Tries
  Repeatable, then Optional, then Required. Refuses enums and unions. Merges
  the errors of all failing fields into one error, in field order.
- **Emitter and generated builder** (`Emitter`, `Generated`, `BuilderLaws`).
  The emitted artifact is data: builder slots, their defaults, the setter
  methods (SetSome, Push or Replace, each with its target slot) and the
  build plan. `Generated` gives that artifact a state-machine meaning:
  builder state, setter application and `build`.

`Syntax` holds the Rust syntax the macro inspects. A compile error is an
ordered list of messages, and combining errors concatenates them. `Results`
holds `Option` and `Result`. `Scenarios` replays the annotated `Player` of
`tests/07-repeated-field.rs`: its derivation, its setter chain and the
player `build` returns. `OptionalScenario` does the same for the `Player` of
`tests/06-optional-field.rs`, with both of its chains: one leaves the
`Option<Vec<String>>` field unset, and one sets it.

Behaviours of the code worth knowing, all modelled as written:

- A tuple-struct field fails inside the Repeatable probe with "Expected
  named field". That error is aggregated like any other field error.
- Every message starts with a capital letter ("Expected ...").
- The repeated-field message formats `stringify!(ident)`. It reads
  "Expected Vec<T> for repeated field ident" whatever the field's name.
- The third token of the annotation may be any literal. All leading and
  all trailing `"` characters are trimmed from its text.
- Only the first attribute is read, and a doc comment is an attribute. So
  a field whose first attribute is a doc comment is rejected with
  "Expected #[builder(...)] attribute". A doc comment after the
  `#[builder(each = "...")]` annotation is ignored.
- Tokens after the literal are ignored.
- The final "Expected valid field" error of `parse_field` can never occur.
  It is kept in the model, and `Classify.ValidFieldErrorUnreachable` proves
  it dead.

## Model

| member | source | states |
|---|---|---|
| Wrapped.ExtractWrappedType | src/lib.rs:4-35 | Returns `Some(t)` exactly when the type is an unqualified path whose first segment is `wrapper<t>` with one argument, and that argument is a type; otherwise `None`, never an error |
| Wrapped.ExtractWrap | src/lib.rs:4-35 | Round trip: matching `wrapper<t>` against the same wrapper name gives back `t` |
| Wrapped.ExtractWrapOtherName | src/lib.rs:18-20 | A wrapper whose name differs from the one asked for is not matched |
| Wrapped.ExtractIgnoresLaterSegments | src/lib.rs:13-16 | Only the first path segment decides; segments after it never change the result |
| Wrapped.ExtractQualifiedIsNone | src/lib.rs:5-11 | A path with a qualified self type never matches |
| EachAttr.TrimStart | src/lib.rs:179-179 | Strips the longest all-quote prefix, and the result never starts with a quote |
| EachAttr.TrimEnd | src/lib.rs:179-179 | Strips the longest all-quote suffix, and the result never ends with a quote |
| EachAttr.MiddleOf | src/lib.rs:179-179 | Trimming the front and then the back leaves a part of the text that sits at the front trim's offset, with only quotes around it |
| EachAttr.TrimQuotes | src/lib.rs:178-179 | The result is a contiguous middle part of the literal text, bordered only by quotes on both sides, and neither starts nor ends with a quote |
| EachAttr.TrimQuote | src/lib.rs:178-179 | Round trip: trimming the quoted text of a name that has no quote at either end gives the name back |
| EachAttr.ParseEach | src/lib.rs:109-182 | No attributes gives `Ok(None)`. A first attribute that is not `builder(...)` gives the attribute error. A list whose tokens do not start with `each`, `=`, literal gives the `each` error. Otherwise the result is the trimmed literal text. Every error has exactly one message |
| EachAttr.ParseEachAttribute | src/lib.rs:109-182 | Round trip: writing `#[builder(each = "name")]` and parsing it gives `name`, whatever attributes follow |
| EachAttr.DocCommentFirstRejected | src/lib.rs:115-120 | A doc comment in first position makes the field fail with "Expected #[builder(...)] attribute" |
| EachAttr.ParseEachFirstOnly | src/lib.rs:110-113 | Attributes after the first never affect the result |
| EachAttr.ParseEachIgnoresTrailingTokens | src/lib.rs:132-176 | Tokens after the third never affect the result |
| Classify.ParseRequired | src/lib.rs:55-65 | Fails with "Expected named field" exactly when the field is unnamed; a named field is always Required with its declared type, never "not applicable" |
| Classify.ParseOptional | src/lib.rs:67-81 | Not applicable exactly when the field is named and its type is not `Option<_>`; any `Option<t>` gives Optional with `t` |
| Classify.ParseRepeated | src/lib.rs:83-106 | Unnamed fails first. An annotation error is passed on. No attribute means not applicable. An `each` name with `Vec<t>` gives Repeatable with `t` and that name; with any other type it gives the repeated-field error |
| Classify.ParseField | src/lib.rs:184-198 | An unnamed field fails with "Expected named field". A success keeps the declared name, and an error has exactly one message |
| Classify.AnnotatedPrecedence | src/lib.rs:83-106 | For a named field with an attribute, the annotation decides. A malformed annotation is the error even on an `Option<_>` field. An `each` name with `Vec<t>` gives Repeatable over `t`, and with any other type the repeated-field error |
| Classify.UnannotatedPrecedence | src/lib.rs:184-195 | A named field without an attribute is Optional over `t` when its type is `Option<t>`. Otherwise it is Required with its whole type, an unannotated `Vec<t>` included |
| Classify.ValidFieldErrorUnreachable | src/lib.rs:193-197 | The closing "Expected valid field" error is never produced |
| Classify.UnannotatedVecIsRequired | src/lib.rs:89-91 | A `Vec<t>` field without an annotation is Required with its whole type |
| Classify.ClassifyDeclare | src/lib.rs:184-198 | Round trip: declaring a classified field (`Option<t>`, or `Vec<t>` with its `each` annotation, or the plain type) and classifying it again gives the same field |
| Syntax.Combine | src/lib.rs:237-240 | Combining two errors keeps the first error's messages, then the second's, in order, and nothing else |
| Aggregate.ExtractFields | src/lib.rs:200-216 | A struct yields its fields; an enum and a union are refused with their own messages |
| Aggregate.ParseAll | src/lib.rs:220-220 | Classifies every field on its own: one result per declared field, in declaration order, whatever the other fields hold |
| Aggregate.Failures | src/lib.rs:230-233 | Keeps no more entries than it is given, and is empty exactly when every result succeeded |
| Aggregate.Successes | src/lib.rs:226-226 | When every result succeeded, it keeps every value, in order |
| Aggregate.CombineAll | src/lib.rs:237-240 | The left fold of `combine` holds the accumulator's messages followed by every error's messages, in order |
| Aggregate.CombineErrors | src/lib.rs:229-241 | `None` exactly when nothing failed; otherwise one error holding the messages of every failure, in order |
| Aggregate.ParseFields | src/lib.rs:218-227 | Enum and union are refused. Otherwise it succeeds exactly when every field classifies, with one classified field per declared field in order. A failure carries the messages of every failing field in declaration order |
| Aggregate.FailuresOfParseAll | src/lib.rs:220-223 | Gathering the failures of the per-field results gives exactly the reference list of field error messages |
| Aggregate.FieldErrorsCount | src/lib.rs:218-241 | The combined error has exactly one message per failing field |
| Aggregate.FieldErrorsNonEmpty | src/lib.rs:222-226 | The combined message list is empty exactly when every field classifies |
| Emitter.FieldMethods | src/lib.rs:303-349 | Every setter of a field targets its slot and takes its type. A Required or Optional field gets exactly one SetSome setter under its own name. A Repeatable field gets a Push under its `each` name. It gets a Replace under its own name exactly when the two names differ (lines 339-341) |
| Emitter.SlotsOf | src/lib.rs:261-271 | One slot per field, in field order, named after the field and holding its type; the slot is a `Vec` exactly for a Repeatable field and an `Option` otherwise |
| Emitter.DefaultsOf | src/lib.rs:279-283 | One initialiser per field, in field order: an empty `Vec` exactly for a Repeatable field and `None` otherwise |
| Emitter.StepOf | src/lib.rs:295-301 | A field's build step reads its own slot. It unwraps exactly when the field is Required, copies a vector exactly when it is Repeatable, and otherwise copies the `Option` |
| Emitter.PlanOf | src/lib.rs:295-301 | One build step per field, in field order, each the step of its field |
| Emitter.MethodsFrom | src/lib.rs:303-349 | Every emitted setter belongs to the field whose slot it targets; every field's setters are present; setters come in field order |
| Emitter.Emit | src/lib.rs:254-361 | The builder is named `<Name>Builder`. There is one slot, default and build step per field, in field order. `Vec` slots are exactly those of Repeatable fields. Build steps unwrap exactly the Required slots. Every setter targets a slot of its kind |
| Emitter.DeriveStrictBuilder | src/lib.rs:254-361 | The builder is emitted exactly when field parsing succeeds, and otherwise the parsing error is returned unchanged. The result is named `<Name>Builder` and its parts agree with each other. It has one slot per declared field, named after it, holding the type its classification gives. A slot is a `Vec` exactly when its field is Repeatable, and its build step unwraps exactly when the field is Required. Every setter is one its field's classification calls for, and every setter a field's classification calls for is emitted |
| Emitter.SettersOfField | src/lib.rs:303-349 | A Required or Optional field gets a SetSome setter under its own name. A Repeatable field gets a Push under its `each` name. Every setter of a field's slot carries the name its kind calls for |
| Emitter.BulkSetterOfField | src/lib.rs:332-347 | A field has a Replace setter exactly when it is Repeatable and its `each` name differs from its own name |
| Emitter.DeriveDeclared | src/lib.rs:218-259 | Round trip: deriving from a struct declared from classified fields emits the builder for exactly those fields, in order |
| Generated.Initial | src/lib.rs:279-293 | `builder()` starts with every `Option` slot `None` and every `Vec` slot empty, with the declared slot kinds |
| Generated.Apply | src/lib.rs:303-349 | A setter changes only its own slot. SetSome stores `Some(v)`, Push appends `v` at the end, and Replace installs exactly the given vector |
| Generated.Run | src/lib.rs:306-309 | Each setter returns the builder, so calls chain; a chain of well-typed calls keeps every slot of the kind the builder declares |
| Generated.StepValue | src/lib.rs:296-300 | A set Required slot gives its value unwrapped. An Optional slot is copied as the `Option` it is, and a `Vec` slot is copied whole |
| Generated.BuildFrom | src/lib.rs:295-301 | From step `k` on, succeeds exactly when no later required slot is empty; otherwise it fails naming the first such field; on success yields one member per step |
| Generated.Build | src/lib.rs:351-357 | Succeeds exactly when every required slot holds a value. Otherwise it fails with "missing required field: <name>" for the first unset required field in declaration order. On success required values are unwrapped, optional slots copied as they are and vectors copied whole |
| BuilderLaws.PushesAppend | src/lib.rs:325-330 | Calling an `each` method once per value appends those values, in call order, after the slot's contents, and touches no other slot |
| BuilderLaws.ReplaceOverwrites | src/lib.rs:332-337 | After any chain of calls, a bulk setter leaves exactly the given vector |
| BuilderLaws.RunAppend | src/lib.rs:306-309 | Chaining two call sequences is the same as running their concatenation |
| BuilderLaws.RunFrame | src/lib.rs:303-349 | A slot that no call of a chain targets is unchanged by the chain |
| BuilderLaws.RunLastSetWins | src/lib.rs:304-319 | After a chain of calls, an `Option` slot holds the value of the last SetSome call on it: calls after that one on other fields leave it alone |
| BuilderLaws.RunKeepsSet | src/lib.rs:304-319 | Once an `Option` slot holds a value, no later call empties it |
| BuilderLaws.CallsCommute | src/lib.rs:303-349 | Setter calls on different fields commute |
| BuilderLaws.SetterLastWins | src/lib.rs:304-319 | Setting the same field twice keeps only the last value |
| BuilderLaws.BuildNamesFirstMissingRequired | src/lib.rs:295-298 | For an emitted builder, `build` succeeds exactly when every Required field's slot is set. Otherwise it names the first unset Required field in declaration order |
| BuilderLaws.BuildFresh | src/lib.rs:279-301 | On a fresh builder, `build` succeeds only without Required fields, and then Optional fields are `None` and vectors empty. Otherwise it names the first Required field |
| BuilderLaws.UntouchedFirstRequired | src/lib.rs:295-298 | If the first field is Required and no call sets it, `build` names it |
| Scenarios.PlayerDerives | tests/07-repeated-field.rs:3-13 | The annotated `Player` classifies as declared and emits its builder |
| Scenarios.PlayerRepeatedFieldScenario | tests/07-repeated-field.rs:15-46 | The test's setter chain is well typed on `PlayerBuilder`. Building gives friends `Willem, Simmon, Devi` and siblings `Auri, Devi` |
| Scenarios.PlayerMissingNameScenario | src/lib.rs:296-298 | The same chain without `.name(..)` fails with "missing required field: name" |
| Scenarios.OptionalFieldScenario | tests/06-optional-field.rs:14-58 | An Optional field never set builds as `None` and set once builds as `Some(v)`, and setting it does not change whether `build` succeeds |
| OptionalScenario.OptionalPlayerDeclared | tests/06-optional-field.rs:4-11 | The macro input is the test's struct as written: `friends` a plain `Vec<String>`, `siblings` an `Option<Vec<String>>` |
| OptionalScenario.OptionalPlayerDerives | tests/06-optional-field.rs:3-11 | That struct classifies back into its fields (`siblings` Optional over `Vec<String>`, `friends` Required) and emits its builder |
| OptionalScenario.OptionalSiblingsClassified | tests/06-optional-field.rs:8-8 | `Option<Vec<String>>` is Optional over `Vec<String>` |
| OptionalScenario.PlainFriendsClassified | tests/06-optional-field.rs:7-7 | An unannotated `Vec<String>` is Required |
| OptionalScenario.OptionalUnsetScenario | tests/06-optional-field.rs:14-34 | The chain that never calls `.siblings(..)` is well typed, and `build` gives every field as set with `siblings` `None` |
| OptionalScenario.OptionalSetScenario | tests/06-optional-field.rs:36-60 | The chain with `.siblings(vec![Devi, Auri])` is well typed, and `build` gives `siblings` as `Some` of that list with every other field as set |
| Scenarios.TwoErrorsAggregated | src/lib.rs:218-241 | Two malformed fields give one error with both messages in declaration order, and nothing is emitted |
| Scenarios.EnumRefused | src/lib.rs:203-208 | An enum is refused with "Expected Struct found Enum" |
| Scenarios.TupleStructRefused | src/lib.rs:84-87 | Each unnamed field contributes "Expected named field" to one combined error |

## Left out

- The `proc_macro` entry point and the conversion of an error into a compile error (src/lib.rs:243-252). These are host-toolchain plumbing.
- Token-stream construction with `quote!`, spans, and the internals of `syn::Error::combine`. An error is an ordered list of messages, and combining concatenates them.
- EachAttr.ParseEach: `format_ident!` panics when the trimmed literal is not a valid identifier. The model returns the trimmed text unchanged; identifier validity belongs to a library the model cannot see.
- `Path::is_ident` and `Literal::to_string` are library behaviour. The model takes syn's meaning: a bare one-segment path with no arguments, and the literal's source text with its quotes.
- Type-checking of the generated code is not modelled. This includes two fields' setters sharing a name, or an `each` name equal to another field's setter. The macro does not detect these, and the model claims nothing about them. A call names its method directly, not by name lookup.
- Generated.Apply: the argument's shape (one value or a whole vector) is a precondition. In Rust the type checker enforces it. Values are not typed against the field types.
- Field values and `Clone` are abstracted by a small `Value` datatype. `Box<dyn Error>` is the message string.
- Generated.Build: `build(&mut self)` clones every slot. The model's `Build` is a pure function of the state, so the builder is unchanged after `build` by construction, not by a proved property.
- `src/main.rs` and `tests/02-create-builder.rs` only declare `Player` and call `builder()`, which `Generated.Initial` covers. `tests/03-call-setters.rs` only calls the setters, without building.
- `tests/05-method-chaining.rs` builds a `Player` without `siblings` from the same chain as the first one of `tests/06-optional-field.rs`, and checks the fields. It is not replayed separately: its struct is that of `tests/06` without the Optional field, and `OptionalScenario.OptionalUnsetScenario` covers the same chain.
