/**
 * The `Text` primitive's choice of HTML element: an explicit `as` wins, then
 * the variant's default tag, and `p` when neither gives one.
 */
module TextPrimitive {
  import opened Wrappers

  /** `defaultTagMap`. */
  const DefaultTagMap: map<string, string> := map[
    "h1" := "h1", "h2" := "h2", "h3" := "h3", "h4" := "h4", "h5" := "h5", "h6" := "h6",
    "heading-xl" := "h1", "heading-lg" := "h2", "heading-md" := "h6", "heading-sm" := "h4",
    "body-lg" := "p", "body-md" := "p", "body-sm" := "p",
    "caption" := "span"]

  const DefaultVariant := "body-md"

  predicate IsDefaultTag(tag: string)
  {
    tag in {"h1", "h2", "h3", "h4", "h5", "h6", "p", "span"}
  }

  /** `as ?? defaultTagMap[variant ?? "body-md"] ?? "p"`; `asTag` is the `as` prop. */
  function ResolveTag(asTag: Option<string>, variant: Option<string>): (tag: string)
    ensures asTag.Some? ==> tag == asTag.value
    ensures asTag.None? ==> IsDefaultTag(tag)
    ensures asTag.None? && variant.None? ==> tag == "p"
    ensures asTag.None? && variant.Some? && variant.value !in DefaultTagMap ==> tag == "p"
  {
    match asTag
    case Some(t) => t
    case None =>
      var key := match variant case Some(v) => v case None => DefaultVariant;
      if key in DefaultTagMap then DefaultTagMap[key] else "p"
  }

  /** The heading variants render as the heading element of the same name. */
  lemma HeadingVariants()
    ensures forall v :: v in ["h1", "h2", "h3", "h4", "h5", "h6"] ==> ResolveTag(None, Some(v)) == v
  {
  }

  /** The legacy heading variants and their elements. */
  lemma LegacyVariants()
    ensures ResolveTag(None, Some("heading-xl")) == "h1"
    ensures ResolveTag(None, Some("heading-lg")) == "h2"
    ensures ResolveTag(None, Some("heading-md")) == "h6"
    ensures ResolveTag(None, Some("heading-sm")) == "h4"
  {
  }

  /** Body variants render as paragraphs, captions as spans. */
  lemma BodyVariants()
    ensures forall v :: v in ["body-lg", "body-md", "body-sm"] ==> ResolveTag(None, Some(v)) == "p"
    ensures ResolveTag(None, Some("caption")) == "span"
  {
  }

  /** A missing variant behaves as `body-md`. */
  lemma MissingVariantIsBody()
    ensures ResolveTag(None, None) == ResolveTag(None, Some(DefaultVariant))
  {
  }
}
