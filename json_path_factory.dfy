/** JsonPathTypeAdapterFactory: for a class whose fields carry
    @JsonPathExpression, reads the object structurally and then overwrites
    each annotated field with the value found at its path in the same parsed
    document; a path that matches nothing leaves its field alone. */
module JsonPathFactory {
  import opened Wrappers
  import opened JsonStream
  import opened JsonTree
  import opened PathExpressions

  /** A declared field: its name, its raw (erased) type as Field.getType gives
      it, and the value of its @JsonPathExpression annotation, if any. */
  datatype FieldDecl = FieldDecl(name: string, fieldType: string, jsonPathExpression: Option<string>)

  /** A class as reflection shows it: its declared fields in declaration order. */
  datatype ClassDecl = ClassDecl(name: string, declaredFields: seq<FieldDecl>)

  /** An annotated field with its compiled expression. */
  datatype FieldInfo = FieldInfo(field: FieldDecl, jsonPath: Path)

  /** A decoded object: field name to field value. */
  type Record<V> = map<string, V>

  /** What Field.set does with a value, the target being non-null. */
  datatype SetOutcome = SetDone | AccessDenied | ArgumentRejected

  /** JsonPath's Configuration, reduced to how it reads a path from a root. */
  datatype Configuration = Configuration(read: (Path, Json) -> PathOutcome)

  /** The collaborators the factory and its adapter call. */
  datatype Runtime<!V> = Runtime(
    compile: string -> Result<Path, string>,                          // JsonPath.compile
    fromJsonTree: (ClassDecl, Json) -> Result<Option<Record<V>>, string>,  // the delegate adapter's fromJsonTree
    toJson: (ClassDecl, Option<Record<V>>) -> seq<Token>,             // the delegate adapter's write
    fromJson: (Json, string) -> Result<V, string>,                    // gson.fromJson(tree, field type)
    fieldSet: (FieldDecl, V) -> SetOutcome)                           // Field.set on an accessible field

  datatype Failure =
    | InvalidPath(expression: string)        // compile rejected an annotation value
    | StructuralDecodeFailed(reason: string)  // the delegate could not decode the object
    | PathReadFailed(reason: string)          // JsonPath.read threw something other than PathNotFound
    | FieldDecodeFailed(reason: string)       // the matched sub-tree does not decode to the field type
    | IllegalAccessWrapped(field: string)     // IOException wrapping IllegalAccessException
    | IllegalArgument(field: string)          // Field.set rejected the value
    | NullPointer(field: string)              // Field.set on a null object

  // ---------------------------------------------------------------------------
  // FieldInfo.of

  /** The declared fields that carry the annotation, in declaration order. */
  function Annotated(fields: seq<FieldDecl>): (r: seq<FieldDecl>)
    ensures |r| <= |fields|
    ensures forall i :: 0 <= i < |r| ==> r[i].jsonPathExpression.Some?
    ensures forall f :: f in r <==> f in fields && f.jsonPathExpression.Some?
    decreases |fields|
  {
    if fields == [] then []
    else
      var init := fields[..|fields| - 1];
      var last := fields[|fields| - 1];
      assert forall f :: f in fields <==> f in init || f == last;
      if last.jsonPathExpression.Some? then Annotated(init) + [last]
      else Annotated(init)
  }

  /** What FieldInfo.of returns for a class with these declared fields: one
      FieldInfo per annotated field, or the failure of the first expression that
      does not compile. */
  function CollectFieldInfos(compile: string -> Result<Path, string>, fields: seq<FieldDecl>): Result<seq<FieldInfo>, Failure>
    decreases |fields|
  {
    if fields == [] then Ok([])
    else
      match CollectFieldInfos(compile, fields[..|fields| - 1])
      case Err(e) => Err(e)
      case Ok(infos) =>
        var field := fields[|fields| - 1];
        match field.jsonPathExpression
        case None => Ok(infos)
        case Some(expression) =>
          match compile(expression)
          case Err(_) => Err(InvalidPath(expression))
          case Ok(path) => Ok(infos + [FieldInfo(field, path)])
  }

  /** A failure on a prefix of the fields is the failure of all of them. */
  lemma {:induction false} CollectPrefixFailure(compile: string -> Result<Path, string>, fields: seq<FieldDecl>, i: nat)
    requires i <= |fields| && CollectFieldInfos(compile, fields[..i]).Err?
    ensures CollectFieldInfos(compile, fields) == CollectFieldInfos(compile, fields[..i])
    decreases |fields| - i
  {
    if i < |fields| {
      assert fields[..i + 1][..i] == fields[..i];
      CollectPrefixFailure(compile, fields, i + 1);
    } else {
      assert fields[..i] == fields;
    }
  }

  /** The first annotated field whose expression does not compile is the one
      reported: once the fields before it collect, its failure decides. */
  lemma FirstBadExpressionReported(compile: string -> Result<Path, string>, fields: seq<FieldDecl>, i: nat)
    requires i < |fields| && CollectFieldInfos(compile, fields[..i]).Ok?
    requires fields[i].jsonPathExpression.Some? && compile(fields[i].jsonPathExpression.value).Err?
    ensures CollectFieldInfos(compile, fields) == Err(InvalidPath(fields[i].jsonPathExpression.value))
  {
    assert fields[..i + 1][..i] == fields[..i];
    CollectPrefixFailure(compile, fields, i + 1);
  }

  /** FieldInfo.of collects exactly the annotated fields, in declaration order,
      each with its compiled expression. */
  lemma {:induction false} CollectedAreAnnotated(compile: string -> Result<Path, string>, fields: seq<FieldDecl>)
    requires CollectFieldInfos(compile, fields).Ok?
    ensures var infos := CollectFieldInfos(compile, fields).value;
            && |infos| == |Annotated(fields)|
            && forall i :: 0 <= i < |infos| ==>
                 && infos[i].field == Annotated(fields)[i]
                 && infos[i].field.jsonPathExpression.Some?
                 && compile(infos[i].field.jsonPathExpression.value) == Ok(infos[i].jsonPath)
    decreases |fields|
  {
    if fields != [] {
      CollectedAreAnnotated(compile, fields[..|fields| - 1]);
    }
  }

  /** FieldInfo.of fails exactly when some annotated field's expression does
      not compile. */
  lemma {:induction false} CollectFailsIff(compile: string -> Result<Path, string>, fields: seq<FieldDecl>)
    ensures CollectFieldInfos(compile, fields).Err? <==>
            exists i :: 0 <= i < |fields| && fields[i].jsonPathExpression.Some? && compile(fields[i].jsonPathExpression.value).Err?
    decreases |fields|
  {
    if fields != [] {
      var init := fields[..|fields| - 1];
      CollectFailsIff(compile, init);
      assert forall i :: 0 <= i < |init| ==> init[i] == fields[i];
    }
  }

  /** FieldInfo.of is empty exactly when no declared field is annotated. */
  lemma {:induction false} NoneCollectedIff(compile: string -> Result<Path, string>, fields: seq<FieldDecl>)
    requires CollectFieldInfos(compile, fields).Ok?
    ensures CollectFieldInfos(compile, fields).value == [] <==> forall i :: 0 <= i < |fields| ==> fields[i].jsonPathExpression.None?
  {
    CollectedAreAnnotated(compile, fields);
    AnnotatedEmptyIff(fields);
  }

  lemma {:induction false} AnnotatedEmptyIff(fields: seq<FieldDecl>)
    ensures Annotated(fields) == [] <==> forall i :: 0 <= i < |fields| ==> fields[i].jsonPathExpression.None?
    decreases |fields|
  {
    if fields != [] {
      var init := fields[..|fields| - 1];
      AnnotatedEmptyIff(init);
      assert forall i :: 0 <= i < |init| ==> init[i] == fields[i];
    }
  }

  /** FieldInfo.of: the loop over the declared fields. */
  method FieldInfosOf(compile: string -> Result<Path, string>, cls: ClassDecl) returns (r: Result<seq<FieldInfo>, Failure>)
    ensures r == CollectFieldInfos(compile, cls.declaredFields)
  {
    var fields := cls.declaredFields;
    var collection: seq<FieldInfo> := [];
    var i := 0;
    while i < |fields|
      invariant 0 <= i <= |fields|
      invariant CollectFieldInfos(compile, fields[..i]) == Ok(collection)
    {
      var field := fields[i];
      assert fields[..i + 1][..i] == fields[..i];
      if field.jsonPathExpression.Some? {
        var compiled := compile(field.jsonPathExpression.value);
        if compiled.Err? {
          CollectPrefixFailure(compile, fields, i + 1);
          return Err(InvalidPath(field.jsonPathExpression.value));
        }
        collection := collection + [FieldInfo(field, compiled.value)];
      }
      i := i + 1;
    }
    assert fields[..i] == fields;
    r := Ok(collection);
  }

  // ---------------------------------------------------------------------------
  // JsonPathTypeAdapter.read

  /** One iteration of the read loop: read the projection's path from the root
      and, when it matched, decode the sub-tree to the field's declared type and
      set the field. PathNotFound leaves the object as it is. */
  function Project<V>(gson: Runtime<V>, configuration: Configuration, root: Json,
                      value: Option<Record<V>>, info: FieldInfo): Result<Option<Record<V>>, Failure>
  {
    match configuration.read(info.jsonPath, root)
    case PathNotFound => Ok(value)
    case PathFailed(reason) => Err(PathReadFailed(reason))
    case Found(inner) =>
      match gson.fromJson(inner, info.field.fieldType)
      case Err(reason) => Err(FieldDecodeFailed(reason))
      case Ok(innerValue) =>
        if value.None? then Err(NullPointer(info.field.name))
        else
          match gson.fieldSet(info.field, innerValue)
          case AccessDenied => Err(IllegalAccessWrapped(info.field.name))
          case ArgumentRejected => Err(IllegalArgument(info.field.name))
          case SetDone => Ok(Some(value.value[info.field.name := innerValue]))
  }

  /** The object after the first |infos| iterations of the read loop. */
  function ApplyProjections<V>(gson: Runtime<V>, configuration: Configuration, root: Json,
                               value: Option<Record<V>>, infos: seq<FieldInfo>): Result<Option<Record<V>>, Failure>
    decreases |infos|
  {
    if infos == [] then Ok(value)
    else
      match ApplyProjections(gson, configuration, root, value, infos[..|infos| - 1])
      case Err(e) => Err(e)
      case Ok(current) => Project(gson, configuration, root, current, infos[|infos| - 1])
  }

  /** Whether a projection's iteration completes. It depends on the root
      document and on whether the object is null, never on its field values. */
  ghost predicate ProjectionCompletes<V>(gson: Runtime<V>, configuration: Configuration, root: Json,
                                         objectIsNull: bool, info: FieldInfo) {
    match configuration.read(info.jsonPath, root)
    case PathNotFound => true
    case PathFailed(_) => false
    case Found(inner) =>
      && gson.fromJson(inner, info.field.fieldType).Ok?
      && !objectIsNull
      && gson.fieldSet(info.field, gson.fromJson(inner, info.field.fieldType).value).SetDone?
  }

  /** A failure after a prefix of the projections is the failure of the read. */
  lemma {:induction false} ApplyPrefixFailure<V>(gson: Runtime<V>, configuration: Configuration, root: Json,
                                                 value: Option<Record<V>>, infos: seq<FieldInfo>, i: nat)
    requires i <= |infos| && ApplyProjections(gson, configuration, root, value, infos[..i]).Err?
    ensures ApplyProjections(gson, configuration, root, value, infos) == ApplyProjections(gson, configuration, root, value, infos[..i])
    decreases |infos| - i
  {
    if i < |infos| {
      assert infos[..i + 1][..i] == infos[..i];
      ApplyPrefixFailure(gson, configuration, root, value, infos, i + 1);
    } else {
      assert infos[..i] == infos;
    }
  }

  /** What the k-th iteration does once the earlier ones completed: a
      PathNotFoundException is swallowed and the object stays as it is; an
      IllegalAccessException from Field.set ends the read wrapped in an
      IOException; every other exception ends the read as it is. */
  lemma ProjectionOutcome<V>(gson: Runtime<V>, configuration: Configuration, root: Json,
                             value: Option<Record<V>>, infos: seq<FieldInfo>, k: nat)
    requires k < |infos| && ApplyProjections(gson, configuration, root, value, infos[..k]).Ok?
    ensures var info := infos[k];
            var before := ApplyProjections(gson, configuration, root, value, infos[..k]);
            var whole := ApplyProjections(gson, configuration, root, value, infos);
            match configuration.read(info.jsonPath, root)
            case PathNotFound =>
              ApplyProjections(gson, configuration, root, value, infos[..k + 1]) == before
            case PathFailed(reason) =>
              whole == Err(PathReadFailed(reason))
            case Found(inner) =>
              match gson.fromJson(inner, info.field.fieldType)
              case Err(reason) => whole == Err(FieldDecodeFailed(reason))
              case Ok(innerValue) =>
                if value.None? then whole == Err(NullPointer(info.field.name))
                else
                  match gson.fieldSet(info.field, innerValue)
                  case AccessDenied => whole == Err(IllegalAccessWrapped(info.field.name))
                  case ArgumentRejected => whole == Err(IllegalArgument(info.field.name))
                  case SetDone =>
                    && before.value.Some?
                    && ApplyProjections(gson, configuration, root, value, infos[..k + 1])
                      == Ok(Some(before.value.value[info.field.name := innerValue]))
  {
    ReadSucceedsIff(gson, configuration, root, value, infos[..k]);
    assert infos[..k + 1][..k] == infos[..k];
    if ApplyProjections(gson, configuration, root, value, infos[..k + 1]).Err? {
      ApplyPrefixFailure(gson, configuration, root, value, infos, k + 1);
    }
  }

  /** The read returns an object exactly when every projection's iteration
      completes; any other exception propagates. */
  lemma {:induction false} ReadSucceedsIff<V>(gson: Runtime<V>, configuration: Configuration, root: Json,
                                              value: Option<Record<V>>, infos: seq<FieldInfo>)
    ensures ApplyProjections(gson, configuration, root, value, infos).Ok? <==>
            forall i :: 0 <= i < |infos| ==> ProjectionCompletes(gson, configuration, root, value.None?, infos[i])
    ensures ApplyProjections(gson, configuration, root, value, infos).Ok? ==>
            ApplyProjections(gson, configuration, root, value, infos).value.None? == value.None?
    decreases |infos|
  {
    if infos != [] {
      var init := infos[..|infos| - 1];
      ReadSucceedsIff(gson, configuration, root, value, init);
      assert forall i :: 0 <= i < |init| ==> init[i] == infos[i];
    }
  }

  /** A field no projection targets keeps its structurally decoded value. */
  lemma {:induction false} UntargetedFieldKept<V>(gson: Runtime<V>, configuration: Configuration, root: Json,
                                                  rec: Record<V>, infos: seq<FieldInfo>, name: string)
    requires forall i :: 0 <= i < |infos| ==> infos[i].field.name != name
    requires ApplyProjections(gson, configuration, root, Some(rec), infos).Ok?
    ensures var after := ApplyProjections(gson, configuration, root, Some(rec), infos).value;
            && after.Some?
            && (name in after.value <==> name in rec)
            && (name in rec ==> after.value[name] == rec[name])
    decreases |infos|
  {
    if infos != [] {
      var init := infos[..|infos| - 1];
      assert forall i :: 0 <= i < |init| ==> init[i] == infos[i];
      UntargetedFieldKept(gson, configuration, root, rec, init, name);
      ReadSucceedsIff(gson, configuration, root, Some(rec), init);
    }
  }

  /** With distinct field names, a projected field ends up holding the decoded
      match of its path in the root document, or, when the path matched nothing,
      its structurally decoded value. */
  lemma {:induction false} ProjectedFieldValue<V>(gson: Runtime<V>, configuration: Configuration, root: Json,
                                                  rec: Record<V>, infos: seq<FieldInfo>, k: nat)
    requires k < |infos|
    requires forall i, j :: 0 <= i < j < |infos| ==> infos[i].field.name != infos[j].field.name
    requires ApplyProjections(gson, configuration, root, Some(rec), infos).Ok?
    ensures var after := ApplyProjections(gson, configuration, root, Some(rec), infos).value;
            var name := infos[k].field.name;
            && after.Some?
            && match configuration.read(infos[k].jsonPath, root)
               case Found(inner) =>
                 && gson.fromJson(inner, infos[k].field.fieldType).Ok?
                 && name in after.value
                 && after.value[name] == gson.fromJson(inner, infos[k].field.fieldType).value
               case PathNotFound =>
                 (name in after.value <==> name in rec) && (name in rec ==> after.value[name] == rec[name])
               case PathFailed(_) => false
    decreases |infos|
  {
    var init := infos[..|infos| - 1];
    assert forall i :: 0 <= i < |init| ==> init[i] == infos[i];
    ReadSucceedsIff(gson, configuration, root, Some(rec), init);
    ReadSucceedsIff(gson, configuration, root, Some(rec), infos);
    if k < |infos| - 1 {
      ProjectedFieldValue(gson, configuration, root, rec, init, k);
    } else {
      UntargetedFieldKept(gson, configuration, root, rec, init, infos[k].field.name);
    }
  }

  // ---------------------------------------------------------------------------
  // Declared fields of one class have distinct names

  ghost predicate DistinctNames(fields: seq<FieldDecl>) {
    forall i, j :: 0 <= i < j < |fields| ==> fields[i].name != fields[j].name
  }

  /** The annotated fields are drawn from the declared fields, so their names
      are distinct too. */
  lemma {:induction false} AnnotatedDistinct(fields: seq<FieldDecl>)
    requires DistinctNames(fields)
    ensures forall f :: f in Annotated(fields) ==> f in fields
    ensures DistinctNames(Annotated(fields))
    decreases |fields|
  {
    if fields != [] {
      var init := fields[..|fields| - 1];
      assert DistinctNames(init) by {
        assert forall i :: 0 <= i < |init| ==> init[i] == fields[i];
      }
      AnnotatedDistinct(init);
      var last := fields[|fields| - 1];
      forall f | f in Annotated(init) ensures f.name != last.name {
        var k :| 0 <= k < |init| && init[k] == f;
        assert fields[k] == f;
      }
    }
  }

  // ---------------------------------------------------------------------------
  // The factory and the adapters it returns

  /** What create returns: the delegate itself when no field is annotated, the
      projecting adapter otherwise. */
  datatype Adapter<!V> =
    | Delegate(gson: Runtime<V>, cls: ClassDecl)
    | JsonPathTypeAdapter(gson: Runtime<V>, cls: ClassDecl, fieldInfos: seq<FieldInfo>, configuration: Configuration)
  {
    /** Reading from the parsed tree: structural decoding, then, for the
        projecting adapter, every projection against the same root. */
    function ReadTree(root: Json): (r: Result<Option<Record<V>>, Failure>)
      ensures gson.fromJsonTree(cls, root).Err? ==> r == Err(StructuralDecodeFailed(gson.fromJsonTree(cls, root).error))
      ensures Delegate? && gson.fromJsonTree(cls, root).Ok? ==> r == Ok(gson.fromJsonTree(cls, root).value)
    {
      match gson.fromJsonTree(cls, root)
      case Err(reason) => Err(StructuralDecodeFailed(reason))
      case Ok(decoded) =>
        if Delegate? then Ok(decoded)
        else ApplyProjections(gson, configuration, root, decoded, fieldInfos)
    }

    /** write: both adapters hand the value to the delegate unchanged. */
    method Write(out: JsonWriter, value: Option<Record<V>>)
      modifies out
      ensures out.written == old(out.written) + gson.toJson(cls, value)
    {
      out.WriteAll(gson.toJson(cls, value));
    }

    /** read: decode the record from the tree, then run the projection loop. */
    method Read(root: Json) returns (r: Result<Option<Record<V>>, Failure>)
      ensures r == ReadTree(root)
    {
      var decoded := gson.fromJsonTree(cls, root);
      if decoded.Err? {
        return Err(StructuralDecodeFailed(decoded.error));
      }
      if Delegate? {
        return Ok(decoded.value);
      }
      var value := decoded.value;
      var i := 0;
      while i < |fieldInfos|
        invariant 0 <= i <= |fieldInfos|
        invariant ApplyProjections(gson, configuration, root, decoded.value, fieldInfos[..i]) == Ok(value)
      {
        assert fieldInfos[..i + 1][..i] == fieldInfos[..i];
        var step := Project(gson, configuration, root, value, fieldInfos[i]);
        if step.Err? {
          ApplyPrefixFailure(gson, configuration, root, decoded.value, fieldInfos, i + 1);
          return step;
        }
        value := step.value;
        i := i + 1;
      }
      assert fieldInfos[..i] == fieldInfos;
      r := Ok(value);
    }
  }

  /** JsonPathTypeAdapterFactory, holding the strategy that builds a path
      configuration for a Gson instance. */
  datatype JsonPathTypeAdapterFactory<!V> = JsonPathTypeAdapterFactory(configurationProvider: Runtime<V> -> Configuration)
  {
    /** What create returns for a class. */
    function Created(gson: Runtime<V>, cls: ClassDecl): (r: Result<Adapter<V>, Failure>)
      ensures r.Err? <==> CollectFieldInfos(gson.compile, cls.declaredFields).Err?
      ensures r.Ok? ==> r.value.gson == gson && r.value.cls == cls
      ensures r.Ok? && r.value.Delegate? <==> CollectFieldInfos(gson.compile, cls.declaredFields) == Ok([])
      ensures r.Ok? && r.value.JsonPathTypeAdapter? ==>
                && CollectFieldInfos(gson.compile, cls.declaredFields) == Ok(r.value.fieldInfos)
                && r.value.fieldInfos != []
                && r.value.configuration == configurationProvider(gson)
    {
      match CollectFieldInfos(gson.compile, cls.declaredFields)
      case Err(e) => Err(e)
      case Ok(infos) =>
        if infos == [] then Ok(Delegate(gson, cls))
        else Ok(JsonPathTypeAdapter(gson, cls, infos, configurationProvider(gson)))
    }

    /** create: collect the projections, then choose the adapter. */
    method Create(gson: Runtime<V>, cls: ClassDecl) returns (r: Result<Adapter<V>, Failure>)
      ensures r == Created(gson, cls)
    {
      var fieldInfos := FieldInfosOf(gson.compile, cls);
      if fieldInfos.Err? {
        return Err(fieldInfos.error);
      }
      if fieldInfos.value == [] {
        return Ok(Delegate(gson, cls));
      }
      r := Ok(JsonPathTypeAdapter(gson, cls, fieldInfos.value, configurationProvider(gson)));
    }

    /** A malformed expression fails create, before any document is read. */
    lemma MalformedExpressionFailsCreate(gson: Runtime<V>, cls: ClassDecl)
      ensures Created(gson, cls).Err? <==>
              exists i :: 0 <= i < |cls.declaredFields| && cls.declaredFields[i].jsonPathExpression.Some?
                            && gson.compile(cls.declaredFields[i].jsonPathExpression.value).Err?
    {
      CollectFailsIff(gson.compile, cls.declaredFields);
    }

    /** Without annotated fields create returns the delegate, whose read is the
        structural decode alone: no path is evaluated. */
    lemma NoAnnotationsMeansDelegate(gson: Runtime<V>, cls: ClassDecl, root: Json)
      requires forall i :: 0 <= i < |cls.declaredFields| ==> cls.declaredFields[i].jsonPathExpression.None?
      ensures Created(gson, cls) == Ok(Delegate(gson, cls))
      ensures Created(gson, cls).value.ReadTree(root) ==
              match gson.fromJsonTree(cls, root)
              case Ok(decoded) => Ok(decoded)
              case Err(reason) => Err(StructuralDecodeFailed(reason))
    {
      CollectFailsIff(gson.compile, cls.declaredFields);
      NoneCollectedIff(gson.compile, cls.declaredFields);
    }

    /** The projecting adapter returns a value exactly when structural decoding
        succeeds and every projection completes; the value is null exactly when
        the structural decode gave null. */
    lemma ReadSucceedsIffAllProjectionsComplete(gson: Runtime<V>, cls: ClassDecl, root: Json)
      requires Created(gson, cls).Ok?
      ensures var a := Created(gson, cls).value;
              && (a.ReadTree(root).Ok? <==>
                   && gson.fromJsonTree(cls, root).Ok?
                   && (a.JsonPathTypeAdapter? ==>
                         forall i :: 0 <= i < |a.fieldInfos| ==>
                           ProjectionCompletes(gson, a.configuration, root, gson.fromJsonTree(cls, root).value.None?, a.fieldInfos[i])))
              && (a.ReadTree(root).Ok? ==> a.ReadTree(root).value.None? == gson.fromJsonTree(cls, root).value.None?)
    {
      var a := Created(gson, cls).value;
      if a.JsonPathTypeAdapter? && gson.fromJsonTree(cls, root).Ok? {
        ReadSucceedsIff(gson, a.configuration, root, gson.fromJsonTree(cls, root).value, a.fieldInfos);
      }
    }

    /** On a successful read of a non-null object: every annotated field holds
        the decoded match of its path in the root document, or keeps its
        structurally decoded value when the path matched nothing; every field
        without the annotation keeps its structurally decoded value. */
    lemma ReadFieldValues(gson: Runtime<V>, cls: ClassDecl, root: Json, rec: Record<V>)
      requires DistinctNames(cls.declaredFields)
      requires Created(gson, cls).Ok? && Created(gson, cls).value.JsonPathTypeAdapter?
      requires gson.fromJsonTree(cls, root) == Ok(Some(rec))
      requires Created(gson, cls).value.ReadTree(root).Ok?
      ensures var a := Created(gson, cls).value;
              var after := a.ReadTree(root).value;
              && after.Some?
              && (forall k :: 0 <= k < |a.fieldInfos| ==>
                    var name := a.fieldInfos[k].field.name;
                    && a.fieldInfos[k].field in cls.declaredFields
                    && match a.configuration.read(a.fieldInfos[k].jsonPath, root)
                       case Found(inner) =>
                         && gson.fromJson(inner, a.fieldInfos[k].field.fieldType).Ok?
                         && name in after.value
                         && after.value[name] == gson.fromJson(inner, a.fieldInfos[k].field.fieldType).value
                       case PathNotFound =>
                         (name in after.value <==> name in rec) && (name in rec ==> after.value[name] == rec[name])
                       case PathFailed(_) => false)
              && (forall f :: f in cls.declaredFields && f.jsonPathExpression.None? ==>
                    (f.name in after.value <==> f.name in rec) && (f.name in rec ==> after.value[f.name] == rec[f.name]))
    {
      var a := Created(gson, cls).value;
      var fields := cls.declaredFields;
      CollectedAreAnnotated(gson.compile, fields);
      AnnotatedDistinct(fields);
      forall k | 0 <= k < |a.fieldInfos|
        ensures a.fieldInfos[k].field in fields
      {
        assert a.fieldInfos[k].field == Annotated(fields)[k];
      }
      forall k | 0 <= k < |a.fieldInfos|
        ensures var after := a.ReadTree(root).value;
                var name := a.fieldInfos[k].field.name;
                && after.Some?
                && match a.configuration.read(a.fieldInfos[k].jsonPath, root)
                   case Found(inner) =>
                     && gson.fromJson(inner, a.fieldInfos[k].field.fieldType).Ok?
                     && name in after.value
                     && after.value[name] == gson.fromJson(inner, a.fieldInfos[k].field.fieldType).value
                   case PathNotFound =>
                     (name in after.value <==> name in rec) && (name in rec ==> after.value[name] == rec[name])
                   case PathFailed(_) => false
      {
        ProjectedFieldValue(gson, a.configuration, root, rec, a.fieldInfos, k);
      }
      forall f | f in fields && f.jsonPathExpression.None?
        ensures var after := a.ReadTree(root).value;
                && after.Some?
                && (f.name in after.value <==> f.name in rec) && (f.name in rec ==> after.value[f.name] == rec[f.name])
      {
        forall i | 0 <= i < |a.fieldInfos| ensures a.fieldInfos[i].field.name != f.name {
          var g := a.fieldInfos[i].field;
          assert g == Annotated(fields)[i];
          var p :| 0 <= p < |fields| && fields[p] == f;
          var q :| 0 <= q < |fields| && fields[q] == g;
          assert p != q by { assert g.jsonPathExpression.Some?; }
        }
        UntargetedFieldKept(gson, a.configuration, root, rec, a.fieldInfos, f.name);
      }
    }
  }

  /** buildDefaultConfiguration: paths are evaluated over the Gson tree. */
  function BuildDefaultConfiguration<V>(gson: Runtime<V>): (r: Configuration)
    ensures forall path, root :: r.read(path, root) == Evaluate(path, root)
  {
    Configuration(Evaluate)
  }

  /** getJsonPathTypeAdapterFactory(): the factory whose configuration is
      buildDefaultConfiguration of the Gson it is asked by. */
  function GetJsonPathTypeAdapterFactory<V>(): (r: JsonPathTypeAdapterFactory<V>)
    ensures r.configurationProvider == BuildDefaultConfiguration
  {
    JsonPathTypeAdapterFactory(BuildDefaultConfiguration)
  }
}
