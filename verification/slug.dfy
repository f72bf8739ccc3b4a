/** The reusable `slug` text field (src/fields/slug/slug.ts): its declaration
    and its `beforeDuplicate` hook. `generateId` is a parameter: the hook is
    given the id it returned. */
module Slug {
  import opened Outcomes
  import opened Text

  const DefaultSourceField: string := "title"

  /** The declared field, with no overrides. */
  datatype SlugField = SlugField(name: string, fieldType: string, index: bool, unique: bool,
                                 position: string, sourceField: string)

  /** `slug(fieldToUse?)`: a unique, indexed text field named `slug` in the
      sidebar, formatted from `fieldToUse`, which defaults to `title` only when
      the argument is left out. */
  function Field(fieldToUse: Option<string>): (f: SlugField)
    ensures f.name == "slug" && f.fieldType == "text" && f.position == "sidebar"
    ensures f.unique && f.index
    ensures f.sourceField == fieldToUse.GetOr(DefaultSourceField)
    ensures fieldToUse.None? ==> f.sourceField == "title"
  {
    SlugField("slug", "text", true, true, "sidebar", fieldToUse.GetOr(DefaultSourceField))
  }

  /** The hook's effect: the new slug value and the request context. */
  datatype Duplicated = Duplicated(slug: string, context: map<string, bool>)

  /** `beforeDuplicate`: marks the context as a duplicate, then gives the root
      slug `/` a bare fresh id and any other value (an unset one prints as
      `undefined`) the suffix `-<fresh id>`. */
  function BeforeDuplicate(value: Option<string>, context: map<string, bool>, freshId: string): (r: Duplicated)
    ensures "duplicate" in r.context && r.context["duplicate"]
    ensures r.context.Keys == context.Keys + {"duplicate"}
    ensures forall k :: k in context && k != "duplicate" ==> r.context[k] == context[k]
    ensures value == Some("/") ==> r.slug == freshId
    ensures value != Some("/") ==> StartsWith(r.slug, Interpolate(value) + "-")
    ensures value != Some("/") ==> r.slug[|Interpolate(value)| + 1..] == freshId
  {
    var ctx := context["duplicate" := true];
    if value == Some("/") then Duplicated(freshId, ctx)
    else
      var slug := Interpolate(value) + "-" + freshId;
      assert slug[..|Interpolate(value)| + 1] == Interpolate(value) + "-";
      Duplicated(slug, ctx)
  }

  /** The duplicate of a non-root slug extends the original, so it is never the
      original itself; and different fresh ids give different duplicates. */
  lemma DuplicateIsProperExtension(value: string, context: map<string, bool>, id1: string, id2: string)
    requires value != "/"
    ensures StartsWith(BeforeDuplicate(Some(value), context, id1).slug, value)
    ensures |BeforeDuplicate(Some(value), context, id1).slug| > |value|
    ensures id1 != id2 ==> BeforeDuplicate(Some(value), context, id1).slug != BeforeDuplicate(Some(value), context, id2).slug
  {
  }

  /** The root slug's duplicate is the fresh id, so it differs from `/` unless
      the generator returned `/`. */
  lemma RootDuplicateIsFreshId(context: map<string, bool>, id: string)
    ensures BeforeDuplicate(Some("/"), context, id).slug == id
    ensures BeforeDuplicate(Some("/"), context, id).slug != "/" <==> id != "/"
  {
  }
}
