/** The documented uses of the path projection factory, replayed on the model:
    a class with three annotated fields read from a nested document, and a
    class whose only path matches nothing. */
module JsonPathExamples {
  import opened Wrappers
  import opened JsonTree
  import opened PathExpressions
  import opened JsonPathFactory

  /** The Java values the example fields hold. */
  datatype JavaValue = JavaNull | JavaString(s: string) | JavaMap(entries: map<string, string>)

  /** The compiled forms of the expressions the examples use; any other text
      is rejected as JsonPath.compile would reject a malformed expression. */
  function CompileTable(expression: string): Result<Path, string> {
    if expression == "$.l1.l2.l3.foo" then Ok([Property("l1"), Property("l2"), Property("l3"), Property("foo")])
    else if expression == "$.l1.l2.l3.bar[0]" then Ok([Property("l1"), Property("l2"), Property("l3"), Property("bar"), Index(0)])
    else if expression == "$.l1.l2.l3.baz" then Ok([Property("l1"), Property("l2"), Property("l3"), Property("baz")])
    else if expression == "$.nowhere" then Ok([Property("nowhere")])
    else Err(expression)
  }

  /** Every declared field at its initial null. */
  function Defaults(fields: seq<FieldDecl>): map<string, JavaValue> {
    map f | f in fields :: f.name := JavaNull
  }

  /** Gson's reflective decoding for these classes: the documents' keys name
      none of the fields, so an object decodes to all fields null. */
  function StructuralDecode(cls: ClassDecl, root: Json): Result<Option<Record<JavaValue>>, string> {
    match root
    case JsonNull => Ok(None)
    case JsonObject(_) => Ok(Some(Defaults(cls.declaredFields)))
    case _ => Err("expected an object")
  }

  /** A string-to-string map from object members. */
  function StringEntries(members: seq<Member>): Option<map<string, string>>
    decreases |members|
  {
    if members == [] then Some(map[])
    else
      var last := members[|members| - 1];
      match StringEntries(members[..|members| - 1])
      case None => None
      case Some(m) => if last.value.JsonString? then Some(m[last.key := last.value.text]) else None
  }

  /** gson.fromJson for the two declared field types of the examples. */
  function DecodeField(tree: Json, fieldType: string): Result<JavaValue, string> {
    if tree.JsonNull? then Ok(JavaNull)
    else if fieldType == "String" && tree.JsonString? then Ok(JavaString(tree.text))
    else if fieldType == "Map" && tree.JsonObject? && StringEntries(tree.members).Some? then Ok(JavaMap(StringEntries(tree.members).value))
    else Err("type mismatch")
  }

  function ExampleGson(): Runtime<JavaValue> {
    Runtime(
      CompileTable,
      StructuralDecode,
      (cls, value) => [],
      DecodeField,
      (field, value) => SetDone)
  }

  /** {"l1":{"l2":{"l3":{"foo":"Foo!","bar":["A","B","C"],"baz":{"k1":"v1"}}}}} */
  function Document(): Json {
    JsonObject([Member("l1", JsonObject([Member("l2", JsonObject([Member("l3", JsonObject([
      Member("foo", JsonString("Foo!")),
      Member("bar", JsonArray([JsonString("A"), JsonString("B"), JsonString("C")])),
      Member("baz", JsonObject([Member("k1", JsonString("v1"))]))]))]))]))])
  }

  function Wrapper(): ClassDecl {
    ClassDecl("Wrapper", [
      FieldDecl("fooRef", "String", Some("$.l1.l2.l3.foo")),
      FieldDecl("barRef", "String", Some("$.l1.l2.l3.bar[0]")),
      FieldDecl("bazRef", "Map", Some("$.l1.l2.l3.baz"))])
  }

  function WrapperWithNotExistingPath(): ClassDecl {
    ClassDecl("WrapperWithNotExistingPath", [FieldDecl("fooRef", "String", Some("$.nowhere"))])
  }

  function FooPath(): Path { [Property("l1"), Property("l2"), Property("l3"), Property("foo")] }
  function BarPath(): Path { [Property("l1"), Property("l2"), Property("l3"), Property("bar"), Index(0)] }
  function BazPath(): Path { [Property("l1"), Property("l2"), Property("l3"), Property("baz")] }

  function WrapperInfos(): seq<FieldInfo> {
    var fields := Wrapper().declaredFields;
    [FieldInfo(fields[0], FooPath()), FieldInfo(fields[1], BarPath()), FieldInfo(fields[2], BazPath())]
  }

  /** One annotated field more for FieldInfo.of. */
  lemma CollectAnnotatedStep(compile: string -> Result<Path, string>, fields: seq<FieldDecl>, i: nat, infos: seq<FieldInfo>, path: Path)
    requires i < |fields| && CollectFieldInfos(compile, fields[..i]) == Ok(infos)
    requires fields[i].jsonPathExpression.Some? && compile(fields[i].jsonPathExpression.value) == Ok(path)
    ensures CollectFieldInfos(compile, fields[..i + 1]) == Ok(infos + [FieldInfo(fields[i], path)])
  {
    assert fields[..i + 1][..i] == fields[..i];
  }

  /** FieldInfo.of for Wrapper: its three fields, each with its compiled path. */
  lemma WrapperFieldInfos()
    ensures CollectFieldInfos(CompileTable, Wrapper().declaredFields) == Ok(WrapperInfos())
  {
    var fields := Wrapper().declaredFields;
    var infos := WrapperInfos();
    assert fields[..0] == [];
    CollectAnnotatedStep(CompileTable, fields, 0, [], FooPath());
    assert [] + [infos[0]] == infos[..1];
    CollectAnnotatedStep(CompileTable, fields, 1, infos[..1], BarPath());
    assert infos[..1] + [infos[1]] == infos[..2];
    CollectAnnotatedStep(CompileTable, fields, 2, infos[..2], BazPath());
    assert infos[..2] + [infos[2]] == infos;
    assert fields[..3] == fields;
  }

  /** The three paths' matches in the example document. */
  lemma WrapperPathsFound()
    ensures Evaluate(FooPath(), Document()) == Found(JsonString("Foo!"))
    ensures Evaluate(BarPath(), Document()) == Found(JsonString("A"))
    ensures Evaluate(BazPath(), Document()) == Found(JsonObject([Member("k1", JsonString("v1"))]))
  {
    L3Reached(FooPath());
    L3Reached(BarPath());
    L3Reached(BazPath());
    L3Members(Document().members[0].value.members[0].value.members[0].value.members);
  }

  /** Looking up each key of the "l3" object. */
  lemma L3Members(m: seq<Member>)
    requires m == [Member("foo", JsonString("Foo!")),
                   Member("bar", JsonArray([JsonString("A"), JsonString("B"), JsonString("C")])),
                   Member("baz", JsonObject([Member("k1", JsonString("v1"))]))]
    ensures Lookup(m, "foo") == Some(m[0].value)
    ensures Lookup(m, "bar") == Some(m[1].value)
    ensures Lookup(m, "baz") == Some(m[2].value)
  {
    assert m[..2][..1] == m[..1];
    assert Lookup(m[..1], "foo") == Some(m[0].value);
    assert Lookup(m[..2], "foo") == Some(m[0].value);
    assert Lookup(m[..2], "bar") == Some(m[1].value);
  }

  /** One projection more for the read loop. */
  lemma ApplyStep(gson: Runtime<JavaValue>, configuration: Configuration, root: Json, value: Option<Record<JavaValue>>,
                  infos: seq<FieldInfo>, i: nat, current: Option<Record<JavaValue>>)
    requires i < |infos| && ApplyProjections(gson, configuration, root, value, infos[..i]) == Ok(current)
    ensures ApplyProjections(gson, configuration, root, value, infos[..i + 1]) == Project(gson, configuration, root, current, infos[i])
  {
    assert infos[..i + 1][..i] == infos[..i];
  }

  /** Each of Wrapper's projections sets its own field to the decoded match. */
  lemma WrapperProjectionsSet(rec: Record<JavaValue>)
    ensures Project(ExampleGson(), Configuration(Evaluate), Document(), Some(rec), WrapperInfos()[0])
            == Ok(Some(rec["fooRef" := JavaString("Foo!")]))
    ensures Project(ExampleGson(), Configuration(Evaluate), Document(), Some(rec), WrapperInfos()[1])
            == Ok(Some(rec["barRef" := JavaString("A")]))
    ensures Project(ExampleGson(), Configuration(Evaluate), Document(), Some(rec), WrapperInfos()[2])
            == Ok(Some(rec["bazRef" := JavaMap(map["k1" := "v1"])]))
  {
    WrapperPathsFound();
    var k1 := JsonObject([Member("k1", JsonString("v1"))]);
    assert StringEntries(k1.members) == Some(map["k1" := "v1"]) by {
      assert k1.members[..0] == [];
    }
  }

  /** The read loop over Wrapper's projections, from the all-null record. */
  lemma WrapperProjectionsApplied(infos: seq<FieldInfo>, start: Record<JavaValue>)
    requires infos == WrapperInfos() && start == Defaults(Wrapper().declaredFields)
    ensures ApplyProjections(ExampleGson(), Configuration(Evaluate), Document(), Some(start), infos)
            == Ok(Some(start["fooRef" := JavaString("Foo!")]["barRef" := JavaString("A")]["bazRef" := JavaMap(map["k1" := "v1"])]))
  {
    var gson := ExampleGson();
    var cfg := Configuration(Evaluate);
    var r1 := start["fooRef" := JavaString("Foo!")];
    var r2 := r1["barRef" := JavaString("A")];
    var r3 := r2["bazRef" := JavaMap(map["k1" := "v1"])];
    WrapperProjectionsSet(start);
    WrapperProjectionsSet(r1);
    WrapperProjectionsSet(r2);
    assert infos[..0] == [];
    ApplyStep(gson, cfg, Document(), Some(start), infos, 0, Some(start));
    ApplyStep(gson, cfg, Document(), Some(start), infos, 1, Some(r1));
    ApplyStep(gson, cfg, Document(), Some(start), infos, 2, Some(r2));
    assert infos[..3] == infos;
  }

  /** Overwriting all three fields of a three-field record. */
  lemma OverwrittenRecord(start: Record<JavaValue>)
    requires start.Keys == {"fooRef", "barRef", "bazRef"}
    ensures start["fooRef" := JavaString("Foo!")]["barRef" := JavaString("A")]["bazRef" := JavaMap(map["k1" := "v1"])]
            == map["fooRef" := JavaString("Foo!"), "barRef" := JavaString("A"), "bazRef" := JavaMap(map["k1" := "v1"])]
  {
  }

  /** Wrapper's initial record has exactly its three fields. */
  lemma WrapperDefaultsKeys()
    ensures Defaults(Wrapper().declaredFields).Keys == {"fooRef", "barRef", "bazRef"}
  {
    var fields := Wrapper().declaredFields;
    assert fields[0].name == "fooRef" && fields[1].name == "barRef" && fields[2].name == "bazRef";
    assert forall f :: f in fields ==> f == fields[0] || f == fields[1] || f == fields[2];
  }

  /** With the default configuration, or any that evaluates paths over the Gson
      tree, the three fields receive "Foo!", "A" and {"k1": "v1"}. */
  lemma WrapperFieldsProjected(provider: Runtime<JavaValue> -> Configuration)
    requires provider(ExampleGson()) == Configuration(Evaluate)
    ensures var factory := JsonPathTypeAdapterFactory(provider);
            && factory.Created(ExampleGson(), Wrapper()).Ok?
            && factory.Created(ExampleGson(), Wrapper()).value.ReadTree(Document()) ==
               Ok(Some(map["fooRef" := JavaString("Foo!"), "barRef" := JavaString("A"), "bazRef" := JavaMap(map["k1" := "v1"])]))
  {
    WrapperFieldInfos();
    var start := Defaults(Wrapper().declaredFields);
    WrapperProjectionsApplied(WrapperInfos(), start);
    WrapperDefaultsKeys();
    OverwrittenRecord(start);
    assert ExampleGson().fromJsonTree(Wrapper(), Document()) == Ok(Some(Defaults(Wrapper().declaredFields)));
  }

  /** A property step into an object whose one member has that key. */
  lemma StepIntoOnlyMember(path: Path, node: Json)
    requires |path| >= 1 && path[0].Property?
    requires node.JsonObject? && |node.members| == 1 && node.members[0].key == path[0].key
    ensures Evaluate(path, node) == Evaluate(path[1..], node.members[0].value)
  {
    assert Lookup(node.members, path[0].key) == Some(node.members[0].value);
  }

  /** The first three steps of every example path lead to the "l3" object. */
  lemma L3Reached(path: Path)
    requires |path| >= 3 && path[..3] == [Property("l1"), Property("l2"), Property("l3")]
    ensures Evaluate(path, Document()) == Evaluate(path[3..], Document().members[0].value.members[0].value.members[0].value)
  {
    var d := Document();
    var l1 := d.members[0].value;
    var l2 := l1.members[0].value;
    assert path[0] == Property("l1") && path[1] == Property("l2") && path[2] == Property("l3");
    StepIntoOnlyMember(path, d);
    assert path[1..][0] == Property("l2");
    StepIntoOnlyMember(path[1..], l1);
    assert path[1..][1..] == path[2..];
    assert path[2..][0] == Property("l3");
    StepIntoOnlyMember(path[2..], l2);
    assert path[2..][1..] == path[3..];
  }

  /** A path that matches nothing leaves its field null. */
  lemma MissingPathLeavesFieldNull(provider: Runtime<JavaValue> -> Configuration)
    requires provider(ExampleGson()) == Configuration(Evaluate)
    ensures var factory := JsonPathTypeAdapterFactory(provider);
            && factory.Created(ExampleGson(), WrapperWithNotExistingPath()).Ok?
            && factory.Created(ExampleGson(), WrapperWithNotExistingPath()).value.ReadTree(Document()) ==
               Ok(Some(map["fooRef" := JavaNull]))
  {
    var gson := ExampleGson();
    var fields := WrapperWithNotExistingPath().declaredFields;
    var nowhere := [Property("nowhere")];
    assert CompileTable("$.nowhere") == Ok(nowhere);
    assert fields[..0] == [];
    assert CollectFieldInfos(CompileTable, fields[..0]) == Ok([]);
    assert fields[|fields| - 1].jsonPathExpression == Some("$.nowhere");
    assert gson.compile("$.nowhere") == Ok(nowhere);
    assert CompileTable(fields[|fields| - 1].jsonPathExpression.value) == Ok(nowhere);
    var infos := [FieldInfo(fields[0], nowhere)];
    assert [] + infos == infos;
    assert CollectFieldInfos(CompileTable, fields) == Ok(infos);
    assert Lookup(Document().members, "nowhere") == None by {
      assert Document().members[0].key == "l1";
    }
    assert Evaluate(nowhere, Document()) == PathNotFound;
    var cfg := Configuration(Evaluate);
    var start := Some(Defaults(fields));
    assert Defaults(fields) == map["fooRef" := JavaNull];
    assert gson.fromJsonTree(WrapperWithNotExistingPath(), Document()) == Ok(start);
    assert Project(gson, cfg, Document(), start, infos[0]) == Ok(start);
    assert infos[..0] == [];
    assert ApplyProjections(gson, cfg, Document(), start, infos) == Ok(start);
  }

  /** The tests' replay with the factory getJsonPathTypeAdapterFactory()
      returns: "Foo!", "A" and {"k1": "v1"} for Wrapper, null for the field
      whose path matches nothing. */
  lemma DefaultFactoryReplaysTests()
    ensures var factory := GetJsonPathTypeAdapterFactory<JavaValue>();
            && factory.Created(ExampleGson(), Wrapper()).Ok?
            && factory.Created(ExampleGson(), Wrapper()).value.ReadTree(Document()) ==
               Ok(Some(map["fooRef" := JavaString("Foo!"), "barRef" := JavaString("A"), "bazRef" := JavaMap(map["k1" := "v1"])]))
            && factory.Created(ExampleGson(), WrapperWithNotExistingPath()).Ok?
            && factory.Created(ExampleGson(), WrapperWithNotExistingPath()).value.ReadTree(Document()) ==
               Ok(Some(map["fooRef" := JavaNull]))
  {
    var provider := GetJsonPathTypeAdapterFactory<JavaValue>().configurationProvider;
    assert provider(ExampleGson()) == Configuration(Evaluate);
    WrapperFieldsProjected(provider);
    MissingPathLeavesFieldNull(provider);
  }
}
