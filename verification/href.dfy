/** Resolution of an internal link (a rich-text link node or a plain relation)
    to the site path it points at (src/utils/internalDocToHref.ts). */
module Href {
  import opened Outcomes
  import opened Text

  /** A linked document, with the fields the resolution may read. */
  datatype Doc = Doc(id: string, slug: Option<string>, pathname: Option<string>)

  /** A relation's value: a bare id string, or the populated document. */
  datatype Value = IdValue(id: string) | DocValue(doc: Doc)

  /** `{ relationTo, value }`, either part possibly undefined. */
  datatype DocLink = DocLink(relationTo: Option<string>, value: Option<Value>)

  /** The `fields` of a rich-text link node. */
  datatype LinkFields = LinkFields(doc: Option<DocLink>)

  /** What the resolver is given: a rich-text link node (it has a `fields` key,
      possibly undefined) or a plain relation object (it has none). */
  datatype LinkNode = RichTextLink(fields: Option<LinkFields>) | Relation(relationTo: string, value: Option<Value>)

  /** `relationTo` and `value`, read from `fields.doc` with optional chaining
      when the node has a `fields` key and from the top level otherwise. */
  function Target(node: LinkNode): (t: DocLink)
    ensures node.Relation? ==> t == DocLink(Some(node.relationTo), node.value)
    ensures node.RichTextLink? && node.fields.Some? && node.fields.value.doc.Some? ==> t == node.fields.value.doc.value
    ensures node.RichTextLink? && (node.fields.None? || node.fields.value.doc.None?) ==> t == DocLink(None, None)
  {
    match node
    case Relation(rel, v) => DocLink(Some(rel), v)
    case RichTextLink(fields) =>
      match fields
      case None => DocLink(None, None)
      case Some(f) => f.doc.GetOr(DocLink(None, None))
  }

  const FarmsPrefix: string := "/farms/"
  const ProductsPrefix: string := "/products/"

  /** The path a link resolves to. */
  function ToHref(node: LinkNode): (r: string)
    ensures var t := Target(node);
            (t.value.None? || t.value.value.IdValue?) ==> r == "/"
    ensures var t := Target(node);
            t.relationTo !in {Some("pages"), Some("farms"), Some("products")} ==> r == "/"
    ensures var t := Target(node);
            t.relationTo != Some("pages") ==> StartsWith(r, "/")
    ensures |r| > 0
  {
    var t := Target(node);
    match t.value
    case None => "/"
    case Some(IdValue(_)) => "/"
    case Some(DocValue(doc)) =>
      if t.relationTo == Some("pages") then Or(doc.pathname, "/")
      else if t.relationTo == Some("farms") then FarmsPrefix + Or(doc.slug, doc.id)
      else if t.relationTo == Some("products") then ProductsPrefix + doc.id
      else "/"
  }

  /** The site's routes, as a path selects them. */
  datatype Route = Home | FarmRoute(key: string) | ProductRoute(id: string) | PageRoute(path: string)

  function ParseHref(h: string): Route {
    if h == "/" then Home
    else if StartsWith(h, FarmsPrefix) then FarmRoute(h[|FarmsPrefix|..])
    else if StartsWith(h, ProductsPrefix) then ProductRoute(h[|ProductsPrefix|..])
    else PageRoute(h)
  }

  /** Every resolved link selects the route of the document it names: a farm's
      page by its slug or, when the slug is empty, its id; a product's page by
      its id alone, whatever its slug; a page by its pathname; and the home page
      when there is no populated document or the relation is unknown. */
  lemma HrefSelectsTarget(node: LinkNode)
    ensures var t := Target(node);
            match t.value
            case Some(DocValue(doc)) =>
              if t.relationTo == Some("pages") then
                ToHref(node) == Or(doc.pathname, "/")
              else if t.relationTo == Some("farms") then
                ParseHref(ToHref(node)) == FarmRoute(Or(doc.slug, doc.id))
              else if t.relationTo == Some("products") then
                ParseHref(ToHref(node)) == ProductRoute(doc.id)
              else ParseHref(ToHref(node)) == Home
            case _ => ParseHref(ToHref(node)) == Home
  {
    var t := Target(node);
    var r := ToHref(node);
    match t.value
    case Some(DocValue(doc)) =>
      if t.relationTo == Some("farms") {
        assert r == FarmsPrefix + Or(doc.slug, doc.id);
        assert r[..|FarmsPrefix|] == FarmsPrefix;
        assert r[|FarmsPrefix|..] == Or(doc.slug, doc.id);
      } else if t.relationTo == Some("products") {
        assert r == ProductsPrefix + doc.id;
        assert r[..|ProductsPrefix|] == ProductsPrefix;
        assert r[|ProductsPrefix|..] == doc.id;
        assert !StartsWith(r, FarmsPrefix) by {
          assert r[1] == 'p';
        }
      }
    case _ =>
  }

  /** Two populated farms linked through the same kind of node reach the same
      href exactly when their slug-or-id keys agree. */
  lemma FarmHrefInjective(a: Doc, b: Doc)
    ensures ToHref(Relation("farms", Some(DocValue(a)))) == ToHref(Relation("farms", Some(DocValue(b))))
            <==> Or(a.slug, a.id) == Or(b.slug, b.id)
  {
    var ha := ToHref(Relation("farms", Some(DocValue(a))));
    var hb := ToHref(Relation("farms", Some(DocValue(b))));
    if ha == hb {
      assert ha[|FarmsPrefix|..] == Or(a.slug, a.id);
      assert hb[|FarmsPrefix|..] == Or(b.slug, b.id);
    }
  }
}
