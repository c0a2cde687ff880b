# ext-gson core, modelled in Dafny

This project models the four decision and codec rules at the heart of the
ext-gson Gson extension, and proves what they promise.

- **Type-aware envelope codec** (`TypeAwareTypeAdapter`, module `TypeAware`).
  A value is written as a two-property object `{typeProperty: runtime class name, valueProperty: value}`.
  Null is written as JSON `null`.
  Reading peeks first, resolves the class from the tag and decodes the inner value under that class.
  The JsonWriter and JsonReader of Gson's streaming API are modelled in module `JsonStream`:
  - the writer is a class whose methods append tokens to `written`;
  - the reader is a class holding a cursor `pos` over a fixed, already lexed token sequence.

  Each reading method is proved equal to a specification function on `(tokens, position)`.
- **Abstract-type factory** (`AbstractTypeTypeAdapterFactory`, module `AbstractTypeFactory`).
  It hands out the envelope codec exactly for requested types whose class is abstract, and has no opinion otherwise.
- **Dynamic field naming** (`DynamicSerializedNameFieldNamingStrategy`, module `Naming`).
  A field's JSON name comes from a resolver fed with its `@DynamicSerializedName` value.
  When there is no annotation, or the resolver answers null, the fallback strategy names the field.
- **Path projection** (`JsonPathTypeAdapterFactory`, module `JsonPathFactory`).
  For a class with `@JsonPathExpression` fields, the adapter first decodes the object structurally from the parsed tree.
  It then overwrites each annotated field with the decoded match of its path in that same tree.
  A path that matches nothing leaves its field as it was.
  - `FieldInfosOf` and `Adapter.Read` keep the source's loops.
  - Each loop is proved against a specification function (`CollectFieldInfos`, `ApplyProjections`).
  - Those functions carry the lemmas.

Gson, JsonPath and Java reflection appear as collaborators, held in two `Runtime` datatypes:
- `TypeAware.Runtime` holds `getClass`, `getTypeName`, abstractness and the inner codecs as functions, and the names `Class.forName` resolves as a finite map.
- `JsonPathFactory.Runtime` holds path compilation, the delegate's structural decode and write, `gson.fromJson` and `Field.set` as functions.

Path evaluation is the `read` function of a separate `Configuration` datatype. Java's null is `None`.
`JsonTree` is Gson's `JsonElement` tree; as in Gson's JsonObject, the last of repeated keys wins. `PathExpressions.Evaluate` is a small evaluator for `.name`/`[index]` paths. It stands for the default JsonPath configuration in the replay of the documented examples (module `JsonPathExamples`).

## Model

| member | source | states |
|---|---|---|
| JsonStream.PeekAt | src/main/java/lsh/ext/gson/adapters/TypeAwareTypeAdapter.java:76 | stand-in for Gson's JsonReader.peek: the token under the cursor, or None exactly when no token is left (END_DOCUMENT at the top level, end of input inside the envelope) |
| JsonStream.BeginObjectAt | src/main/java/lsh/ext/gson/adapters/TypeAwareTypeAdapter.java:99 | stand-in for Gson's JsonReader.beginObject: succeeds exactly on BEGIN_OBJECT and advances one token; otherwise it refuses in place and reports what it saw |
| JsonStream.NextNameAt | src/main/java/lsh/ext/gson/adapters/TypeAwareTypeAdapter.java:113 | stand-in for Gson's JsonReader.nextName: succeeds exactly on a NAME token, returning its name and advancing one token |
| JsonStream.NextStringAt | src/main/java/lsh/ext/gson/adapters/TypeAwareTypeAdapter.java:101 | stand-in for Gson's JsonReader.nextString: accepts a STRING (its text) and also a NUMBER (its literal), and refuses everything else |
| JsonStream.EndObjectAt | src/main/java/lsh/ext/gson/adapters/TypeAwareTypeAdapter.java:104 | stand-in for Gson's JsonReader.endObject: succeeds exactly on END_OBJECT and advances one token |
| TypeAware.TypeAwareTypeAdapter.Write | src/main/java/lsh/ext/gson/adapters/TypeAwareTypeAdapter.java:58-71 | the writer's output grows by exactly `Encode(value)`: `null` for null, otherwise BEGIN_OBJECT, the type name, the runtime class's name, the value name, the inner codec's tokens for that class, END_OBJECT |
| TypeAware.TypeAwareTypeAdapter.ReadAt | src/main/java/lsh/ext/gson/adapters/TypeAwareTypeAdapter.java:74-94 | a NULL token gives null without moving the cursor; any token other than NULL or BEGIN_OBJECT, END_DOCUMENT included, is a malformed-JSON failure; every successful non-null read consumed a well-formed envelope |
| TypeAware.TypeAwareTypeAdapter.Read | src/main/java/lsh/ext/gson/adapters/TypeAwareTypeAdapter.java:74-94 | the reader method returns what `ReadAt` specifies from the old cursor and leaves the cursor where that outcome says |
| TypeAware.TypeAwareTypeAdapter.ParseObjectAt | src/main/java/lsh/ext/gson/adapters/TypeAwareTypeAdapter.java:96-109 | a successful parse consumed BEGIN_OBJECT, the type name, a tag that resolves to a class, the value name, the inner value under that class, and END_OBJECT, in that order |
| TypeAware.TypeAwareTypeAdapter.ParseObject | src/main/java/lsh/ext/gson/adapters/TypeAwareTypeAdapter.java:96-109 | the reader method returns what `ParseObjectAt` specifies, with the cursor at the reported position, failures included |
| TypeAware.TypeAwareTypeAdapter.RequireNameAt | src/main/java/lsh/ext/gson/adapters/TypeAwareTypeAdapter.java:111-117 | succeeds iff the next token is NAME(expected); another name is malformed JSON after consuming it; any other token is an illegal-state failure in place, and no token at all is an end-of-input failure |
| TypeAware.TypeAwareTypeAdapter.RequireName | src/main/java/lsh/ext/gson/adapters/TypeAwareTypeAdapter.java:111-117 | the reader method returns what `RequireNameAt` specifies, with the cursor at the reported position |
| TypeAware.TypeAwareTypeAdapter.EnvelopeIsRead | src/main/java/lsh/ext/gson/adapters/TypeAwareTypeAdapter.java:96-109 | conversely, every well-formed envelope is read back as the inner codec's value, ending just past its END_OBJECT |
| TypeAware.TypeAwareTypeAdapter.RoundTrip | src/main/java/lsh/ext/gson/adapters/TypeAwareTypeAdapter.java:58-94 | reading what `Write` wrote gives the value back, consuming exactly its tokens, when the class name resolves to the class and the inner codec round-trips; a null is given back without consuming its token |
| TypeAware.TypeAwareTypeAdapter.NullLeftUnconsumed | src/main/java/lsh/ext/gson/adapters/TypeAwareTypeAdapter.java:78-79 | as written, a null followed by a value reads as null twice: the second read starts on the same NULL token |
| TypeAware.TypeAwareTypeAdapter.CorrectedRoundTrip | src/main/java/lsh/ext/gson/adapters/TypeAwareTypeAdapter.java:58-94 | with the NULL token consumed, reading what `Write` wrote gives the value back and consumes exactly its tokens, null included |
| TypeAware.TypeAwareTypeAdapter.ConsecutiveValuesReadBack | src/main/java/lsh/ext/gson/adapters/TypeAwareTypeAdapter.java:58-94 | with the NULL token consumed, two consecutively written values (either may be null) are read back in order, each consuming exactly its own tokens |
| TypeAware.TypeAwareTypeAdapter.FirstNameMustBeType | src/main/java/lsh/ext/gson/adapters/TypeAwareTypeAdapter.java:98-100 | any first property other than the type property is malformed JSON, reported with both names, after consuming that name |
| TypeAware.TypeAwareTypeAdapter.SecondNameMustBeValue | src/main/java/lsh/ext/gson/adapters/TypeAwareTypeAdapter.java:101-102 | after a resolvable tag, any second property other than the value property is malformed JSON |
| TypeAware.TypeAwareTypeAdapter.SwappedEnvelopeRejected | src/main/java/lsh/ext/gson/adapters/TypeAwareTypeAdapter.java:99-100 | an envelope with the value property first is rejected as malformed at its first name, whatever follows |
| TypeAware.TypeAwareTypeAdapter.UnresolvableTypeFails | src/main/java/lsh/ext/gson/adapters/TypeAwareTypeAdapter.java:101-107 | a tag that names no class fails with the wrapped ClassNotFoundException right after the tag, and no value is returned |
| TypeAware.TypeAwareTypeAdapter.ExtraPropertyRejected | src/main/java/lsh/ext/gson/adapters/TypeAwareTypeAdapter.java:103-104 | anything but END_OBJECT after the inner value, such as a third property, makes endObject fail where it stands (end of input when the tokens run out) |
| TypeAware.Refusal | src/main/java/lsh/ext/gson/adapters/TypeAwareTypeAdapter.java:99-104 | a reader call refused inside the envelope is an end-of-input failure (EOFException) exactly when no token is left, and otherwise an illegal-state failure naming the token it saw |
| TypeAware.TypeAwareTypeAdapter.TruncatedEnvelopeFails | src/main/java/lsh/ext/gson/adapters/TypeAwareTypeAdapter.java:99-101 | an envelope cut off after `{`, after the type name or after the tag fails with end of input where the tokens run out, never with a value |
| TypeAware.TypeAwareTypeAdapter.EmptyObjectRejected | src/main/java/lsh/ext/gson/adapters/TypeAwareTypeAdapter.java:111-113 | `{}` fails because nextName refuses END_OBJECT (an illegal-state failure, not malformed JSON) |
| AbstractTypeFactory.AbstractTypeTypeAdapterFactory.Create | src/main/java/lsh/ext/gson/adapters/AbstractTypeTypeAdapterFactory.java:43-48 | an adapter is returned iff the requested raw type is abstract; it carries the same Gson and the factory's two property names |
| AbstractTypeFactory.AbstractTypeTypeAdapterFactory.CreateDependsOnlyOnAbstractness | src/main/java/lsh/ext/gson/adapters/AbstractTypeTypeAdapterFactory.java:43-48 | two requested types that agree on being abstract get the same answer |
| AbstractTypeFactory.AbstractTypeTypeAdapterFactory.CreatedAdapterRoundTrips | src/main/java/lsh/ext/gson/adapters/AbstractTypeTypeAdapterFactory.java:43-48 | the adapter handed out keys its envelope by the factory's property names and reads back what it writes: a non-null value consuming exactly its tokens, a null with the cursor left on its NULL token; the null-consuming read of the finding consumes exactly the written tokens, null included |
| Naming.DynamicSerializedNameFieldNamingStrategy.TranslateName | src/main/java/lsh/ext/gson/stategies/DynamicSerializedNameFieldNamingStrategy.java:52-62 | no annotation: the fallback's name; annotation and a null answer from the resolver: the fallback's name; annotation and an answer: that answer |
| Naming.GetDynamicSerializedNameFieldNamingStrategy | src/main/java/lsh/ext/gson/stategies/DynamicSerializedNameFieldNamingStrategy.java:34-36 | the one-argument factory keeps the resolver and falls back to IDENTITY, the field's own name |
| Naming.GetDynamicSerializedNameFieldNamingStrategyWithFallback | src/main/java/lsh/ext/gson/stategies/DynamicSerializedNameFieldNamingStrategy.java:46-49 | the two-argument factory keeps the resolver and the given fallback unchanged |
| Naming.NameComesFromResolverOrFallback | src/main/java/lsh/ext/gson/stategies/DynamicSerializedNameFieldNamingStrategy.java:52-62 | the name is always the fallback's, or the resolver's answer for the field's annotation value |
| Naming.ResolverSeesOnlyAnnotationValue | src/main/java/lsh/ext/gson/stategies/DynamicSerializedNameFieldNamingStrategy.java:57 | the resolver sees only the annotation value: two resolvers that agree on it give the same name |
| Naming.IdentityFallbackKeepsFieldName | src/main/java/lsh/ext/gson/stategies/DynamicSerializedNameFieldNamingStrategy.java:34-36 | with the one-argument factory, a field without an annotation, or one the resolver has no name for, keeps its Java name |
| JsonPathFactory.FieldInfosOf | src/main/java/lsh/ext/gson/adapters/JsonPathTypeAdapterFactory.java:208-221 | the loop over the declared fields returns what `CollectFieldInfos` specifies, stopping at the first expression that does not compile |
| JsonPathFactory.CollectedAreAnnotated | src/main/java/lsh/ext/gson/adapters/JsonPathTypeAdapterFactory.java:208-221 | the projections are exactly the annotated fields, in declaration order, each paired with the compiled form of its expression |
| JsonPathFactory.CollectFailsIff | src/main/java/lsh/ext/gson/adapters/JsonPathTypeAdapterFactory.java:217 | collecting fails iff some annotated field's expression does not compile |
| JsonPathFactory.NoneCollectedIff | src/main/java/lsh/ext/gson/adapters/JsonPathTypeAdapterFactory.java:209-220 | the collection is empty iff no declared field is annotated |
| JsonPathFactory.AnnotatedEmptyIff | src/main/java/lsh/ext/gson/adapters/JsonPathTypeAdapterFactory.java:210-212 | no field is selected iff no declared field carries the annotation |
| JsonPathFactory.AnnotatedDistinct | src/main/java/lsh/ext/gson/adapters/JsonPathTypeAdapterFactory.java:210-212 | the annotated fields are drawn from the declared fields, so their names are distinct when the declared names are |
| JsonPathFactory.CollectPrefixFailure | src/main/java/lsh/ext/gson/adapters/JsonPathTypeAdapterFactory.java:217 | a compile failure on a prefix of the fields is the failure of the whole collection |
| JsonPathFactory.FirstBadExpressionReported | src/main/java/lsh/ext/gson/adapters/JsonPathTypeAdapterFactory.java:217 | when the fields before it collect and an annotated field's expression does not compile, creation fails with `InvalidPath` of exactly that expression: the first bad expression is reported |
| JsonPathFactory.JsonPathTypeAdapterFactory.Created | src/main/java/lsh/ext/gson/adapters/JsonPathTypeAdapterFactory.java:146-152 | create fails iff collecting fails; it returns the delegate itself iff nothing is collected; otherwise the projecting adapter with the collected projections and the configuration the provider builds for this Gson |
| JsonPathFactory.JsonPathTypeAdapterFactory.Create | src/main/java/lsh/ext/gson/adapters/JsonPathTypeAdapterFactory.java:146-152 | the method returns what `Created` specifies |
| JsonPathFactory.JsonPathTypeAdapterFactory.MalformedExpressionFailsCreate | src/main/java/lsh/ext/gson/adapters/JsonPathTypeAdapterFactory.java:148 | create fails iff some annotation does not compile, before any document is read |
| JsonPathFactory.JsonPathTypeAdapterFactory.NoAnnotationsMeansDelegate | src/main/java/lsh/ext/gson/adapters/JsonPathTypeAdapterFactory.java:147-150 | without annotated fields the delegate is returned, and reading is the structural decode alone: no path is evaluated |
| JsonPathFactory.JsonPathTypeAdapterFactory.ReadSucceedsIffAllProjectionsComplete | src/main/java/lsh/ext/gson/adapters/JsonPathTypeAdapterFactory.java:179-194 | a read returns a value iff structural decoding succeeds and every projection completes; the result is null iff the structural decode was |
| JsonPathFactory.JsonPathTypeAdapterFactory.ReadFieldValues | src/main/java/lsh/ext/gson/adapters/JsonPathTypeAdapterFactory.java:181-193 | after a successful read, each annotated field holds the decoded match of its path in the root tree, or its structural value when the path matched nothing; every unannotated field keeps its structural value |
| JsonPathFactory.Adapter.ReadTree | src/main/java/lsh/ext/gson/adapters/JsonPathTypeAdapterFactory.java:179-194 | a structural decode failure is the read's failure; the delegate returns the structural value as it is |
| JsonPathFactory.Adapter.Read | src/main/java/lsh/ext/gson/adapters/JsonPathTypeAdapterFactory.java:179-194 | the projection loop returns what `ReadTree` specifies: the first failing projection's failure, or the value after all projections |
| JsonPathFactory.Adapter.Write | src/main/java/lsh/ext/gson/adapters/JsonPathTypeAdapterFactory.java:173-176 | both adapters write exactly the delegate's tokens for the value; projection plays no part in writing |
| JsonPathFactory.ApplyPrefixFailure | src/main/java/lsh/ext/gson/adapters/JsonPathTypeAdapterFactory.java:183-192 | an exception in one projection ends the read with that exception; later projections are not applied |
| JsonPathFactory.ProjectionOutcome | src/main/java/lsh/ext/gson/adapters/JsonPathTypeAdapterFactory.java:184-191 | once the earlier projections completed, a projection whose path matches nothing is swallowed and leaves the object as it is; an IllegalAccessException from `Field.set` ends the read wrapped in an IOException; a failing path read, a failing decode, a null object or a rejected argument ends the read with that exception; a successful set stores the decoded match under the field's name |
| JsonPathFactory.ReadSucceedsIff | src/main/java/lsh/ext/gson/adapters/JsonPathTypeAdapterFactory.java:183-192 | the loop completes iff every projection completes; whether one completes depends on the root tree and the object's null-ness, not on the other fields; null-ness is preserved |
| JsonPathFactory.UntargetedFieldKept | src/main/java/lsh/ext/gson/adapters/JsonPathTypeAdapterFactory.java:185-187 | a field no projection targets keeps its structurally decoded value |
| JsonPathFactory.ProjectedFieldValue | src/main/java/lsh/ext/gson/adapters/JsonPathTypeAdapterFactory.java:185-188 | with distinct field names, a projected field ends up with its path's decoded match; when the path is not found it keeps its structural value |
| JsonPathFactory.BuildDefaultConfiguration | src/main/java/lsh/ext/gson/adapters/JsonPathTypeAdapterFactory.java:225-230 | stand-in for the JsonPath configuration built here: every path is evaluated over the Gson tree by `PathExpressions.Evaluate` |
| JsonPathFactory.GetJsonPathTypeAdapterFactory | src/main/java/lsh/ext/gson/adapters/JsonPathTypeAdapterFactory.java:98-100 | the no-argument factory builds its configuration with `buildDefaultConfiguration` for whichever Gson asks |
| JsonPathExamples.WrapperFieldsProjected | src/test/java/lsh/ext/gson/adapters/JsonPathTypeAdapterFactoryTest.java:50-60 | with any configuration provider that evaluates paths over the Gson tree, such as the test's own, the three fields of `Wrapper` receive "Foo!", "A" and {"k1": "v1"} |
| JsonPathExamples.MissingPathLeavesFieldNull | src/test/java/lsh/ext/gson/adapters/JsonPathTypeAdapterFactoryTest.java:62-70 | with any such provider, a field whose path `$.nowhere` matches nothing stays null |
| JsonPathExamples.DefaultFactoryReplaysTests | src/test/java/lsh/ext/gson/adapters/JsonPathTypeAdapterFactoryTest.java:28-48 | with the factory `getJsonPathTypeAdapterFactory()` returns, `Wrapper` receives "Foo!", "A" and {"k1": "v1"}, and the `$.nowhere` field stays null |

## Left out

- Gson internals are collaborators held in the `Runtime` datatypes: the inner codecs (`toJson`/`fromJson`), reflective structural decoding (`fromJsonTree`), `getDelegateAdapter`, and `Class.forName`/`getTypeName`. The names `forName` resolves are a finite map.
- The inner codecs `toJson`/`fromJson` are total functions, so the model assumes they terminate. In Java they can re-enter the factories: `getModifiers()` reports array classes as abstract, so for an array value `gson.toJson(value, value.getClass(), out)` (TypeAwareTypeAdapter.java:69) goes back through `AbstractTypeTypeAdapterFactory` to the same adapter and does not return. That re-entry is not modelled.
- `FieldDecl.fieldType` is the raw (erased) class that `field.getType()` returns. Generic type arguments are lost in the decode, as in the source, and are not represented.
- Lexing: the reader works on an already lexed token sequence. Character-level syntax, escaping and JsonReader's lenient modes are not modelled.
- JsonWriter's own state checks, such as a name written outside an object, are not modelled. The writer appends tokens.
- `jsonElementTypeAdapter.read(in)`, which parses the input into a tree, is not modelled. `Adapter.Read` starts from the parsed root tree.
- JsonPath is a collaborator: `compile` and `Configuration.read`. Expression syntax, indefinite paths, filters and the `GsonJsonProvider`/`GsonMappingProvider` plumbing are not modelled. `PathExpressions.Evaluate` is a stand-in evaluator for the examples.
- The global-defaults factory is left out. It relies on `Configuration.setDefaults`, which is process-wide mutable state.
- The static singleton instances are not modelled as shared objects. `GetJsonPathTypeAdapterFactory` builds a factory equal to the default singleton.
- `Adapter.Read`: the decoded object is a value (a field-name map) threaded through the loop. Java updates the object in place through `Field.set`, and aliasing of that object is not modelled.
- `Adapter.Read`: static annotated fields, which `Field.set` would write on the class rather than the object, are not modelled.
- `field.setAccessible(true)` is not modelled. An access failure that still occurs is the `AccessDenied` outcome of `fieldSet`.
- Exception messages are not modelled. Failures are datatype constructors that keep the data the message would print.
- `getTypeAwareTypeAdapter` and `getAbstractTypeTypeAdapterFactory` are plain constructor calls. They are the datatype constructors.
- `TypeAware.TypeAwareTypeAdapter.EmptyObjectRejected`: `{}` fails in `nextName` (line 113) with IllegalStateException, not MalformedJsonException. The model follows the code.
- `TypeAware.TypeAwareTypeAdapter.ReadAt`: the model has no enclosing structure, so no token left at the cursor is always read as END_DOCUMENT and reported as a malformed-JSON failure, `Unexpected(None)`. Gson's peek returns END_DOCUMENT only at the top level after a complete value. For an empty document, and for a read nested in an enclosing object or array whose input ends before the value (such as `{"f":` for a field the abstract-type factory serves), Gson's peek throws EOFException instead; the model reports those cases as `Unexpected(None)`, not `EndOfInput`.
- The `default` branch of `read` (TypeAwareTypeAdapter.java:91-92) is unreachable, because every token kind is listed. It has no counterpart in the model.

## Findings

| source | as written | input that shows it | evidently intended | confidence | as-written member | corrected member |
|---|---|---|---|---|---|---|
| src/main/java/lsh/ext/gson/adapters/TypeAwareTypeAdapter.java:78-79 | on a NULL token `read` returns null without consuming it (no `nextNull()`) | the tokens `null`, then an envelope of any value `v`, read twice in a row: both reads return null and the cursor never moves | consume the NULL token, as Gson's own adapters do, so the next read starts after it | not executed | TypeAware.TypeAwareTypeAdapter.NullLeftUnconsumed | TypeAware.TypeAwareTypeAdapter.ConsecutiveValuesReadBack |
