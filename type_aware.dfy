/** TypeAwareTypeAdapter: writes a value as a two-property envelope holding the
    name of the value's runtime class and the value encoded under that class,
    and reads such an envelope back by resolving the name first. */
module TypeAware {
  import opened Wrappers
  import opened JsonStream

  /** Why a read failed: the exception that ends it. */
  datatype Failure =
    | Unexpected(found: Option<Token>)              // MalformedJsonException: read saw no object and no null
    | NameMismatch(expected: string, actual: string)  // MalformedJsonException from requireName
    | IllegalState(refused: Token)                  // the reader refused a call (IllegalStateException)
    | EndOfInput                                    // the input ended inside the envelope (EOFException)
    | ClassNotFound(typeName: string)               // IOException wrapping ClassNotFoundException
    | Inner(reason: string)                         // thrown inside the inner codec

  /** The failure of a reader call that was refused inside the envelope: an
      unexpected token is an IllegalStateException, and input that ends before
      the object is closed is an EOFException. */
  function Refusal(found: Option<Token>): (f: Failure)
    ensures f == EndOfInput <==> found.None?
    ensures found.Some? ==> f == IllegalState(found.value)
  {
    match found
    case None => EndOfInput
    case Some(t) => IllegalState(t)
  }

  /** The two failures the adapter raises as MalformedJsonException. */
  predicate IsMalformed(f: Failure) {
    f.Unexpected? || f.NameMismatch?
  }

  /** A read that returned `value` with the cursor at `next`, or one that
      threw `failure` with the cursor at `next`. */
  datatype Outcome<T> = Done(value: T, next: nat) | Failed(failure: Failure, next: nat)

  /** The collaborators the adapter calls; V are the values (None is Java's
      null where it appears as Option<V>), C the classes. */
  datatype Runtime<!V, !C> = Runtime(
    classOf: V -> C,                                // Object.getClass
    typeName: C -> string,                          // Class.getTypeName
    forName: map<string, C>,                        // the names Class.forName resolves
    isAbstract: C -> bool,                          // Modifier.isAbstract of the class's modifiers
    toJson: (V, C) -> seq<Token>,                   // gson.toJson(value, type, out): the tokens it writes
    fromJson: (seq<Token>, nat, C) -> Outcome<Option<V>>)  // gson.fromJson(in, type) from a cursor position

  /** Class.forName(c.getTypeName()) gives c back. Not true of every class, so
      the round trip asks it of the class it writes. */
  ghost predicate ResolvesOwnName<V, C>(gson: Runtime<V, C>, c: C) {
    gson.typeName(c) in gson.forName && gson.forName[gson.typeName(c)] == c
  }

  /** The inner codec reads back, from any position holding them, exactly the
      tokens it wrote for v under v's runtime class. */
  ghost predicate InnerRoundTrip<V, C>(gson: Runtime<V, C>, v: V) {
    forall ts: seq<Token>, pos: nat ::
      pos + |gson.toJson(v, gson.classOf(v))| <= |ts| &&
      ts[pos..pos + |gson.toJson(v, gson.classOf(v))|] == gson.toJson(v, gson.classOf(v)) ==>
        gson.fromJson(ts, pos, gson.classOf(v)) == Done(Some(v), pos + |gson.toJson(v, gson.classOf(v))|)
  }

  /** The type tag as nextString reads it: a STRING's text or a NUMBER's literal. */
  function TagText(t: Token): Option<string> {
    match t
    case Str(s) => Some(s)
    case Number(lit) => Some(lit)
    case _ => None
  }

  datatype TypeAwareTypeAdapter<!V, !C> = TypeAwareTypeAdapter(
    gson: Runtime<V, C>,
    typePropertyName: string,
    valuePropertyName: string)
  {
    /** The tokens `Write` emits for a value. */
    function Encode(value: Option<V>): seq<Token> {
      match value
      case None => [Null]
      case Some(v) =>
        [BeginObject, Name(typePropertyName), Str(gson.typeName(gson.classOf(v))), Name(valuePropertyName)]
        + gson.toJson(v, gson.classOf(v)) + [EndObject]
    }

    /** The tokens at `pos` form an envelope of `value` that ends just before `next`:
        the type property first, a tag naming a resolvable class, the value
        property second, the inner codec's reading of the value under that class,
        and then the closing of the object. */
    ghost predicate EnvelopeAt(ts: seq<Token>, pos: nat, value: Option<V>, next: nat) {
      && pos + 3 < |ts|
      && ts[pos] == BeginObject
      && ts[pos + 1] == Name(typePropertyName)
      && TagText(ts[pos + 2]).Some?
      && TagText(ts[pos + 2]).value in gson.forName
      && ts[pos + 3] == Name(valuePropertyName)
      && 0 < next <= |ts|
      && ts[next - 1] == EndObject
      && gson.fromJson(ts, pos + 4, gson.forName[TagText(ts[pos + 2]).value]) == Done(value, next - 1)
    }

    /** What `Read` does from cursor `pos`. */
    function ReadAt(ts: seq<Token>, pos: nat): (r: Outcome<Option<V>>)
      ensures PeekAt(ts, pos) == Some(Null) ==> r == Done(None, pos)
      ensures PeekAt(ts, pos) != Some(Null) && PeekAt(ts, pos) != Some(BeginObject) ==>
                r == Failed(Unexpected(PeekAt(ts, pos)), pos) && IsMalformed(r.failure)
      ensures r.Done? && PeekAt(ts, pos) != Some(Null) ==> EnvelopeAt(ts, pos, r.value, r.next)
    {
      match PeekAt(ts, pos)
      case Some(Null) => Done(None, pos)
      case Some(BeginObject) => ParseObjectAt(ts, pos)
      case found => Failed(Unexpected(found), pos)
    }

    /** What `ParseObject` does from cursor `pos`. */
    function ParseObjectAt(ts: seq<Token>, pos: nat): (r: Outcome<Option<V>>)
      ensures r.Done? ==> EnvelopeAt(ts, pos, r.value, r.next)
    {
      match BeginObjectAt(ts, pos)
      case Refused(found) => Failed(Refusal(found), pos)
      case Took(_, p1) =>
        match RequireNameAt(typePropertyName, ts, p1)
        case Failed(f, p) => Failed(f, p)
        case Done(_, p2) =>
          match NextStringAt(ts, p2)
          case Refused(found) => Failed(Refusal(found), p2)
          case Took(name, p3) =>
            if name !in gson.forName then Failed(ClassNotFound(name), p3)
            else
              match RequireNameAt(valuePropertyName, ts, p3)
              case Failed(f, p) => Failed(f, p)
              case Done(_, p4) =>
                match gson.fromJson(ts, p4, gson.forName[name])
                case Failed(f, p) => Failed(f, p)
                case Done(value, p5) =>
                  match EndObjectAt(ts, p5)
                  case Refused(found) => Failed(Refusal(found), p5)
                  case Took(_, p6) => Done(value, p6)
    }

    /** What `RequireName` does from cursor `pos`. */
    static function RequireNameAt(expected: string, ts: seq<Token>, pos: nat): (r: Outcome<()>)
      ensures r.Done? <==> pos < |ts| && ts[pos] == Name(expected)
      ensures r.Done? ==> r.next == pos + 1
      ensures pos < |ts| && ts[pos].Name? && ts[pos].name != expected ==>
                r == Failed(NameMismatch(expected, ts[pos].name), pos + 1) && IsMalformed(r.failure)
      ensures !(pos < |ts| && ts[pos].Name?) ==> r == Failed(Refusal(PeekAt(ts, pos)), pos)
    {
      match NextNameAt(ts, pos)
      case Refused(found) => Failed(Refusal(found), pos)
      case Took(actual, next) =>
        if actual == expected then Done((), next) else Failed(NameMismatch(expected, actual), next)
    }

    /** The read the source evidently intends: like `ReadAt`, except that a null
        consumes its NULL token (JsonReader.nextNull) before returning. */
    function ReadConsumingNullAt(ts: seq<Token>, pos: nat): Outcome<Option<V>> {
      if PeekAt(ts, pos) == Some(Null) then Done(None, pos + 1) else ReadAt(ts, pos)
    }

    /** Every envelope is read back: the value the inner codec reads under the
        resolved class, with the cursor just past the closing of the object. */
    lemma EnvelopeIsRead(ts: seq<Token>, pos: nat, value: Option<V>, next: nat)
      requires EnvelopeAt(ts, pos, value, next)
      ensures ReadAt(ts, pos) == Done(value, next)
    {
      var name := TagText(ts[pos + 2]).value;
      assert RequireNameAt(typePropertyName, ts, pos + 1) == Done((), pos + 2);
      assert NextStringAt(ts, pos + 2) == Took(name, pos + 3);
      assert RequireNameAt(valuePropertyName, ts, pos + 3) == Done((), pos + 4);
      assert EndObjectAt(ts, next - 1) == Took((), next);
    }

    /** What `Encode` wrote at `pos` is read back. A non-null value is decoded and
        exactly its tokens are consumed, provided the tag written for its class
        resolves to that class and the inner codec reads back what it wrote; a
        null is returned with the cursor left ON its NULL token. */
    lemma RoundTrip(ts: seq<Token>, pos: nat, value: Option<V>)
      requires pos + |Encode(value)| <= |ts| && ts[pos..pos + |Encode(value)|] == Encode(value)
      requires value.Some? ==> ResolvesOwnName(gson, gson.classOf(value.value)) && InnerRoundTrip(gson, value.value)
      ensures ReadAt(ts, pos) == Done(value, if value.None? then pos else pos + |Encode(value)|)
    {
      var written := Encode(value);
      assert ts[pos] == written[0] by { assert ts[pos..pos + |written|][0] == ts[pos]; }
      if value.Some? {
        var v := value.value;
        var cls := gson.classOf(v);
        var inner := gson.toJson(v, cls);
        var n := |written|;
        assert n == |inner| + 5;
        forall k | 0 <= k < n
          ensures ts[pos + k] == written[k]
        {
          assert ts[pos..pos + n][k] == ts[pos + k];
        }
        assert ts[pos + 1] == written[1] && ts[pos + 2] == written[2] && ts[pos + 3] == written[3];
        assert TagText(ts[pos + 2]) == Some(gson.typeName(cls));
        assert ts[pos + 4..pos + 4 + |inner|] == inner by {
          forall k | 0 <= k < |inner|
            ensures ts[pos + 4..pos + 4 + |inner|][k] == inner[k]
          {
            assert written[4 + k] == inner[k];
          }
        }
        assert gson.fromJson(ts, pos + 4, cls) == Done(Some(v), pos + 4 + |inner|);
        assert ts[pos + n - 1] == written[n - 1] == EndObject;
        EnvelopeIsRead(ts, pos, value, pos + n);
      }
    }

    /** Finding, as written: a null written before a value hides that value.
        The first read returns null without moving the cursor, so the next read
        starts on the same NULL token and returns null again. */
    lemma NullLeftUnconsumed(v: V)
      ensures ReadAt(Encode(None) + Encode(Some(v)), 0) == Done(None, 0)
      ensures ReadAt(Encode(None) + Encode(Some(v)), ReadAt(Encode(None) + Encode(Some(v)), 0).next) == Done(None, 0)
    {
      var ts := Encode(None) + Encode(Some(v));
      assert PeekAt(ts, 0) == Some(Null);
    }

    /** Finding, corrected: reading consecutively written values with the
        null-consuming read gives each value back and consumes exactly the tokens
        written for it. */
    lemma ConsecutiveValuesReadBack(a: Option<V>, b: Option<V>, rest: seq<Token>)
      requires a.Some? ==> ResolvesOwnName(gson, gson.classOf(a.value)) && InnerRoundTrip(gson, a.value)
      requires b.Some? ==> ResolvesOwnName(gson, gson.classOf(b.value)) && InnerRoundTrip(gson, b.value)
      ensures ReadConsumingNullAt(Encode(a) + Encode(b) + rest, 0) == Done(a, |Encode(a)|)
      ensures ReadConsumingNullAt(Encode(a) + Encode(b) + rest, |Encode(a)|) == Done(b, |Encode(a)| + |Encode(b)|)
    {
      var ts := Encode(a) + Encode(b) + rest;
      assert ts[0..|Encode(a)|] == Encode(a);
      assert ts[|Encode(a)|..|Encode(a)| + |Encode(b)|] == Encode(b);
      CorrectedRoundTrip(ts, 0, a);
      CorrectedRoundTrip(ts, |Encode(a)|, b);
    }

    /** The corrected read consumes exactly what `Encode` wrote, null included. */
    lemma CorrectedRoundTrip(ts: seq<Token>, pos: nat, value: Option<V>)
      requires pos + |Encode(value)| <= |ts| && ts[pos..pos + |Encode(value)|] == Encode(value)
      requires value.Some? ==> ResolvesOwnName(gson, gson.classOf(value.value)) && InnerRoundTrip(gson, value.value)
      ensures ReadConsumingNullAt(ts, pos) == Done(value, pos + |Encode(value)|)
    {
      RoundTrip(ts, pos, value);
      assert ts[pos] == Encode(value)[0] by { assert ts[pos..pos + |Encode(value)|][0] == ts[pos]; }
    }

    /** The first property must be the type property: any other name is
        malformed, even when it is the value property (a swapped envelope). */
    lemma FirstNameMustBeType(ts: seq<Token>, pos: nat)
      requires pos + 1 < |ts| && ts[pos] == BeginObject
      requires ts[pos + 1].Name? && ts[pos + 1].name != typePropertyName
      ensures ReadAt(ts, pos) == Failed(NameMismatch(typePropertyName, ts[pos + 1].name), pos + 2)
      ensures IsMalformed(ReadAt(ts, pos).failure)
    {
    }

    /** The second property must be the value property. */
    lemma SecondNameMustBeValue(ts: seq<Token>, pos: nat)
      requires pos + 3 < |ts| && ts[pos] == BeginObject && ts[pos + 1] == Name(typePropertyName)
      requires TagText(ts[pos + 2]).Some? && TagText(ts[pos + 2]).value in gson.forName
      requires ts[pos + 3].Name? && ts[pos + 3].name != valuePropertyName
      ensures ReadAt(ts, pos) == Failed(NameMismatch(valuePropertyName, ts[pos + 3].name), pos + 4)
      ensures IsMalformed(ReadAt(ts, pos).failure)
    {
      assert NextStringAt(ts, pos + 2).Took?;
    }

    /** The swapped envelope {valueProperty: ..., typeProperty: tag} is rejected
        as malformed at its first name, whatever follows. */
    lemma SwappedEnvelopeRejected(tag: string, inner: seq<Token>)
      requires typePropertyName != valuePropertyName
      ensures var ts := [BeginObject, Name(valuePropertyName)] + inner + [Name(typePropertyName), Str(tag), EndObject];
              ReadAt(ts, 0) == Failed(NameMismatch(typePropertyName, valuePropertyName), 2)
    {
      var ts := [BeginObject, Name(valuePropertyName)] + inner + [Name(typePropertyName), Str(tag), EndObject];
      FirstNameMustBeType(ts, 0);
    }

    /** A tag no class answers to fails with the wrapped ClassNotFoundException
        right after the tag is read; no value is returned. */
    lemma UnresolvableTypeFails(ts: seq<Token>, pos: nat)
      requires pos + 2 < |ts| && ts[pos] == BeginObject && ts[pos + 1] == Name(typePropertyName)
      requires TagText(ts[pos + 2]).Some? && TagText(ts[pos + 2]).value !in gson.forName
      ensures ReadAt(ts, pos) == Failed(ClassNotFound(TagText(ts[pos + 2]).value), pos + 3)
    {
      assert NextStringAt(ts, pos + 2).Took?;
    }

    /** Anything but END_OBJECT after the value, such as a third property, makes
        the closing endObject throw where it stands. */
    lemma ExtraPropertyRejected(ts: seq<Token>, pos: nat, value: Option<V>, p: nat)
      requires pos + 3 < |ts| && ts[pos] == BeginObject && ts[pos + 1] == Name(typePropertyName)
      requires TagText(ts[pos + 2]).Some? && TagText(ts[pos + 2]).value in gson.forName
      requires ts[pos + 3] == Name(valuePropertyName)
      requires gson.fromJson(ts, pos + 4, gson.forName[TagText(ts[pos + 2]).value]) == Done(value, p)
      requires PeekAt(ts, p) != Some(EndObject)
      ensures ReadAt(ts, pos) == Failed(Refusal(PeekAt(ts, p)), p)
    {
      assert NextStringAt(ts, pos + 2).Took?;
    }

    /** An empty object has no type property: nextName refuses END_OBJECT. */
    lemma EmptyObjectRejected(ts: seq<Token>, pos: nat)
      requires pos + 1 < |ts| && ts[pos] == BeginObject && ts[pos + 1] == EndObject
      ensures ReadAt(ts, pos) == Failed(IllegalState(EndObject), pos + 1)
    {
    }

    /** Input that ends inside the envelope before its value, such as a lone
        `{`, fails with an end-of-input error where the tokens run out, never
        with a value or an illegal-state error. */
    lemma TruncatedEnvelopeFails(ts: seq<Token>, pos: nat, value: Option<V>, next: nat, k: nat)
      requires EnvelopeAt(ts, pos, value, next)
      requires 1 <= k <= 3
      ensures ReadAt(ts[..pos + k], pos) == Failed(EndOfInput, pos + k)
    {
      var cut := ts[..pos + k];
      assert cut[pos] == BeginObject;
      if k >= 2 {
        assert cut[pos + 1] == Name(typePropertyName);
        assert RequireNameAt(typePropertyName, cut, pos + 1) == Done((), pos + 2);
      }
      if k == 3 {
        assert cut[pos + 2] == ts[pos + 2];
        assert NextStringAt(cut, pos + 2) == Took(TagText(ts[pos + 2]).value, pos + 3);
      }
    }

    method Write(out: JsonWriter, value: Option<V>)
      modifies out
      ensures out.written == old(out.written) + Encode(value)
    {
      if value.None? {
        out.NullValue();
        return;
      }
      var v := value.value;
      var cls := gson.classOf(v);
      out.BeginObject();
      out.Name(typePropertyName);
      out.Value(gson.typeName(cls));
      out.Name(valuePropertyName);
      out.WriteAll(gson.toJson(v, cls));
      out.EndObject();
    }

    method Read(reader: JsonReader) returns (r: Outcome<Option<V>>)
      modifies reader
      ensures r == ReadAt(reader.tokens, old(reader.pos))
      ensures reader.pos == r.next
    {
      var token := reader.Peek();
      match token
      case Some(Null) =>
        r := Done(None, reader.pos);
      case Some(BeginObject) =>
        r := ParseObject(reader);
      case _ =>
        r := Failed(Unexpected(token), reader.pos);
    }

    method ParseObject(reader: JsonReader) returns (r: Outcome<Option<V>>)
      modifies reader
      ensures r == ParseObjectAt(reader.tokens, old(reader.pos))
      ensures reader.pos == r.next
    {
      var begun := reader.BeginObject();
      if begun.Refused? {
        return Failed(Refusal(begun.found), reader.pos);
      }
      var typeProperty := RequireName(typePropertyName, reader);
      if typeProperty.Failed? {
        return Failed(typeProperty.failure, typeProperty.next);
      }
      var name := reader.NextString();
      if name.Refused? {
        return Failed(Refusal(name.found), reader.pos);
      }
      if name.value !in gson.forName {
        return Failed(ClassNotFound(name.value), reader.pos);
      }
      var cls := gson.forName[name.value];
      var valueProperty := RequireName(valuePropertyName, reader);
      if valueProperty.Failed? {
        return Failed(valueProperty.failure, valueProperty.next);
      }
      var value := gson.fromJson(reader.tokens, reader.pos, cls);
      reader.Seek(value.next);
      if value.Failed? {
        return Failed(value.failure, value.next);
      }
      var ended := reader.EndObject();
      if ended.Refused? {
        return Failed(Refusal(ended.found), reader.pos);
      }
      r := Done(value.value, reader.pos);
    }

    static method RequireName(expectedName: string, reader: JsonReader) returns (r: Outcome<()>)
      modifies reader
      ensures r == RequireNameAt(expectedName, reader.tokens, old(reader.pos))
      ensures reader.pos == r.next
    {
      var actual := reader.NextName();
      if actual.Refused? {
        return Failed(Refusal(actual.found), reader.pos);
      }
      if actual.value == expectedName {
        r := Done((), reader.pos);
      } else {
        r := Failed(NameMismatch(expectedName, actual.value), reader.pos);
      }
    }
  }
}
