/** DynamicSerializedNameFieldNamingStrategy: the JSON name of a field comes
    from a resolver fed with the field's @DynamicSerializedName value, and from
    a fallback strategy when there is no annotation or the resolver has no
    answer. */
module Naming {
  import opened Wrappers

  /** A declared field: its Java name and the value of its
      @DynamicSerializedName annotation, if it carries one. */
  datatype Field = Field(name: string, dynamicSerializedName: Option<string>)

  /** FieldNamingPolicy.IDENTITY: the field's own name. */
  function Identity(f: Field): string {
    f.name
  }

  datatype DynamicSerializedNameFieldNamingStrategy = Strategy(
    fieldNamingResolver: string -> Option<string>,   // IFieldNamingResolver.resolveName; None is null
    fallback: Field -> string)                       // the fallback strategy's translateName
  {
    /** FieldNamingStrategy.translateName for this strategy. */
    function TranslateName(f: Field): (r: string)
      ensures f.dynamicSerializedName.None? ==> r == fallback(f)
      ensures f.dynamicSerializedName.Some? && fieldNamingResolver(f.dynamicSerializedName.value).None? ==>
                r == fallback(f)
      ensures f.dynamicSerializedName.Some? && fieldNamingResolver(f.dynamicSerializedName.value).Some? ==>
                r == fieldNamingResolver(f.dynamicSerializedName.value).value
    {
      match f.dynamicSerializedName
      case None => fallback(f)
      case Some(annotationValue) =>
        match fieldNamingResolver(annotationValue)
        case None => fallback(f)
        case Some(resolvedName) => resolvedName
    }
  }

  /** The one-argument factory: IDENTITY is the fallback. */
  function GetDynamicSerializedNameFieldNamingStrategy(resolver: string -> Option<string>): (s: DynamicSerializedNameFieldNamingStrategy)
    ensures s.fieldNamingResolver == resolver
    ensures forall f :: s.fallback(f) == f.name
  {
    Strategy(resolver, Identity)
  }

  /** The two-argument factory: the given fallback, unchanged. */
  function GetDynamicSerializedNameFieldNamingStrategyWithFallback(
    resolver: string -> Option<string>, fallback: Field -> string): (s: DynamicSerializedNameFieldNamingStrategy)
    ensures s.fieldNamingResolver == resolver && s.fallback == fallback
  {
    Strategy(resolver, fallback)
  }

  /** The name is always either the fallback's or the resolver's answer for
      the annotation value. */
  lemma NameComesFromResolverOrFallback(s: DynamicSerializedNameFieldNamingStrategy, f: Field)
    ensures var r := s.TranslateName(f);
            r == s.fallback(f) || (f.dynamicSerializedName.Some? && s.fieldNamingResolver(f.dynamicSerializedName.value) == Some(r))
  {
  }

  /** The resolver is consulted only through its answer for the annotation
      value: two resolvers that agree there (or a field without the annotation)
      give the same name. */
  lemma ResolverSeesOnlyAnnotationValue(r1: string -> Option<string>, r2: string -> Option<string>,
                                        fallback: Field -> string, f: Field)
    requires f.dynamicSerializedName.Some? ==> r1(f.dynamicSerializedName.value) == r2(f.dynamicSerializedName.value)
    ensures Strategy(r1, fallback).TranslateName(f) == Strategy(r2, fallback).TranslateName(f)
  {
  }

  /** With the one-argument factory, a field the resolver gives no name to keeps
      its Java name. */
  lemma IdentityFallbackKeepsFieldName(resolver: string -> Option<string>, f: Field)
    requires f.dynamicSerializedName.None? || resolver(f.dynamicSerializedName.value).None?
    ensures GetDynamicSerializedNameFieldNamingStrategy(resolver).TranslateName(f) == f.name
  {
  }
}
