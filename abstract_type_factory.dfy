/** AbstractTypeTypeAdapterFactory: hands out the type-aware adapter for
    requested types whose class is abstract, and has no opinion otherwise. */
module AbstractTypeFactory {
  import opened Wrappers
  import opened JsonStream
  import opened TypeAware

  /** The factory keeps the two property names it was built with; nothing else. */
  datatype AbstractTypeTypeAdapterFactory = AbstractTypeTypeAdapterFactory(
    typePropertyName: string,
    valuePropertyName: string)
  {
    /** The adapter for the raw type `rawType` of the requested type token, or
        None (Java's null: "no opinion"). Only the static type's abstract
        modifier is consulted; no value is involved. */
    function Create<V, C>(gson: Runtime<V, C>, rawType: C): (r: Option<TypeAwareTypeAdapter<V, C>>)
      ensures r.Some? <==> gson.isAbstract(rawType)
      ensures r.Some? ==> r.value.gson == gson
      ensures r.Some? ==> r.value.typePropertyName == typePropertyName
      ensures r.Some? ==> r.value.valuePropertyName == valuePropertyName
    {
      if gson.isAbstract(rawType) then Some(TypeAwareTypeAdapter(gson, typePropertyName, valuePropertyName)) else None
    }

    /** Two requested types get the same answer when they agree on being abstract. */
    lemma CreateDependsOnlyOnAbstractness<V, C>(gson: Runtime<V, C>, t1: C, t2: C)
      requires gson.isAbstract(t1) == gson.isAbstract(t2)
      ensures Create(gson, t1) == Create(gson, t2)
    {
    }

    /** Whatever the adapter handed out for an abstract type writes at `pos`, it
        reads back under the conditions of `RoundTrip`, with a non-null envelope
        keyed by this factory's property names. As written, a null comes back
        with the cursor left on its NULL token; the null-consuming read of the
        finding consumes exactly the written tokens, null included. */
    lemma CreatedAdapterRoundTrips<V, C>(gson: Runtime<V, C>, rawType: C, ts: seq<Token>, pos: nat, value: Option<V>)
      requires gson.isAbstract(rawType)
      requires value.Some? ==> ResolvesOwnName(gson, gson.classOf(value.value)) && InnerRoundTrip(gson, value.value)
      requires var w := Create(gson, rawType).value.Encode(value);
               pos + |w| <= |ts| && ts[pos..pos + |w|] == w
      ensures var a := Create(gson, rawType).value;
              && (value.Some? ==> a.Encode(value)[1] == Name(typePropertyName) && a.Encode(value)[3] == Name(valuePropertyName))
              && a.ReadAt(ts, pos) == Done(value, if value.None? then pos else pos + |a.Encode(value)|)
              && a.ReadConsumingNullAt(ts, pos) == Done(value, pos + |a.Encode(value)|)
    {
      var a := Create(gson, rawType).value;
      a.RoundTrip(ts, pos, value);
      a.CorrectedRoundTrip(ts, pos, value);
    }
  }
}
