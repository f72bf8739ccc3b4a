# Farm marketplace: access rules and URL helpers, modelled in Dafny

This project models two parts of a farm-marketplace site built on a headless CMS.
Farmers list farms and products there, and customers keep per-farm carts.

1. **Access-control decision tables** for the `carts`, `farms` and `products` collections.
   - A rule takes an optional caller (`Access.Principal`) and, for update and delete, the incoming document.
   - It answers `Deny`, `Allow`, `AllowWhere(userId)` (the cart read rule returns a query filter, not a boolean) or `Throw` (the rule reads a property of `undefined`).
   - The fields' `required`, `min`, `defaultValue` and select options are modelled as create-time checks. Their results carry the data invariants: cart items, cart status, farm product entries, the farm owner and the product type.
2. **URL and path string helpers.**
   - Link-to-href resolution.
   - Site-URL trailing-slash trimming.
   - The nested-docs breadcrumb URL fold and label.
   - Sitemap entry assembly.
   - robots.txt line building.
   - The slug field's duplicate hook.

JavaScript semantics that matter here are written out in `Text` and `Access`:
- string truthiness and `a || b`;
- `${undefined}` printing as `undefined`;
- `===` between an id string and a populated relationship document being false (`Access.Ref`);
- reading a property of `undefined` throwing.

Numbers are `real`.

Inputs that the source reads from outside become parameters:
- the environment variables of `getSiteURL`;
- the fetched page and farm documents, the current time and `encodeURIComponent` in the sitemap;
- the id returned by `generateId` in the slug hook.

Modules: `Outcomes` (Option/Result), `Text` (string helpers, join/split round trip), `Access` (roles, callers, decisions), `Fields` (field checks), `Carts`, `Farms`, `Products`, `Policy` (properties across the three collections), `Href`, `SiteUrl`, `NestedDocs`, `Sitemap`, `Robots`, `Slug`.

src/collections/Farms.ts declares no hooks, no administrator exception and no `stock` field. Farm update and delete look only at the caller's role and id and the incoming `data.owner` (src/collections/Farms.ts:13-15), and a product entry has only product, quantity, unit and price.

## Model

| member | source | states |
|---|---|---|
| Access.ParseRole | src/collections/Users.ts:15-32 | a stored role value is recognised exactly when it is one of `admin`, `farmer`, `customer`, and it reads back as the role stored under it |
| Access.RoleRoundTrip | src/collections/Users.ts:15-32 | every role reads back unchanged, and distinct roles are stored as distinct values |
| Carts.Read | src/collections/Carts.ts:10-14 | anonymous callers are refused; the admins collection gets every cart; any other caller gets a filter on its own id, never a blanket allow |
| Carts.ReadVisibility | src/collections/Carts.ts:13 | the read filter admits a stored cart exactly when the caller is from the admins collection or the cart's `user` is the caller |
| Carts.Create | src/collections/Carts.ts:15-19 | granted exactly to the admins collection and to users-collection customers; a plain allow/deny |
| Carts.OnlyCustomersCreate | src/collections/Carts.ts:18 | a users-collection farmer or admin-role user is refused cart creation |
| Carts.Update | src/collections/Carts.ts:20-24 | granted exactly to the admins collection or when `data.user` is the caller's id as a bare id; absent data refuses; never throws |
| Carts.Delete | src/collections/Carts.ts:25-29 | the same grant condition as update |
| Carts.UpdateDeleteAgree | src/collections/Carts.ts:20-29 | update and delete give the same decision on every caller and document |
| Carts.OnlyTheNamedOwnerMutates | src/collections/Carts.ts:23 | a users-collection caller is refused when `data.user` names someone else or is a populated document |
| Carts.ParseStatus | src/collections/Carts.ts:76-86 | a status value is recognised exactly when it is `active`, `ordered` or `cancelled` |
| Carts.StatusRoundTrip | src/collections/Carts.ts:81-85 | each status reads back unchanged and distinct statuses have distinct values |
| Carts.CheckItem | src/collections/Carts.ts:48-74 | a row is accepted exactly when it has a product, a quantity at least 1 (an omitted one counts as 1), a non-empty unit and a price snapshot at least 0; the accepted item takes product, unit and snapshot from the row and quantity 1 when omitted |
| Carts.QuantityDefaultsToOne | src/collections/Carts.ts:55-61 | a row without a quantity but with product, non-empty unit and non-negative snapshot is stored with quantity 1 |
| Carts.CheckItemAcceptsValid | src/collections/Carts.ts:48-74 | a stored item passes the checks unchanged exactly when it satisfies the item invariant |
| Carts.CheckItems | src/collections/Carts.ts:44-75 | the items array is accepted exactly when every row is, and then row i of the result is the checked row i |
| Carts.CheckCart | src/collections/Carts.ts:31-87 | a cart is accepted exactly when user and farm are present, every item row passes, and the status (active when omitted) is one of the options; its items are then the checked rows in order, each valid, and user, farm and status come from the input |
| Farms.Create | src/collections/Farms.ts:11 | granted exactly to callers whose role is farmer, whatever their collection |
| Farms.Read | src/collections/Farms.ts:12 | everyone may read, anonymous callers included |
| Farms.Update | src/collections/Farms.ts:13-14 | granted exactly to a farmer whose id is `data.owner` as a bare id; a farmer with absent data makes the rule throw; no admin exception |
| Farms.Delete | src/collections/Farms.ts:15 | the same decision condition as update |
| Farms.UpdateDeleteAgree | src/collections/Farms.ts:13-15 | update and delete give the same decision on every caller and document |
| Farms.AdminRoleHasNoFarmRights | src/collections/Farms.ts:11-15 | a caller with role admin is refused create, update and delete |
| Farms.ParseUnit | src/collections/Farms.ts:72-84 | a unit value is recognised exactly when it is `kg`, `pcs`, `liters` or `boxes` |
| Farms.UnitRoundTrip | src/collections/Farms.ts:72-84 | each unit reads back unchanged and distinct units have distinct values |
| Farms.CheckOffer | src/collections/Farms.ts:57-92 | a product entry is accepted exactly when the product is present, quantity and price (defaulting to 0) are at least 0 and the unit (defaulting to kg) is an option |
| Farms.OfferDefaults | src/collections/Farms.ts:64-92 | an entry with only a product becomes 0 kg at price 0 |
| Farms.CheckOffers | src/collections/Farms.ts:48-94 | the products array is accepted exactly when every entry is, row by row |
| Farms.CheckFarm | src/collections/Farms.ts:17-106 | a farm is accepted exactly when name, image and owner are present and every entry passes its checks; the stored name, image and owner are the submitted ones, and the stored entries are the submitted rows with their defaults applied, in order |
| Products.Create | src/collections/Products.ts:10 | granted exactly to callers whose role is farmer |
| Products.Read | src/collections/Products.ts:11 | everyone may read |
| Products.FarmOwnerIs | src/collections/Products.ts:12-15 | `data.farm.owner === id` holds exactly for a populated farm whose owner is the bare id; absent data or farm throws |
| Products.FarmOwnerRule | src/collections/Products.ts:12-15 | only farmers can be granted, and then as a plain allow; the rule throws exactly for a farmer when data or `data.farm` is absent |
| Products.Update | src/collections/Products.ts:12-13 | granted exactly to a farmer who is the owner of the populated `data.farm`; any other role is refused |
| Products.Delete | src/collections/Products.ts:14-15 | the same grant condition as update |
| Products.SchemaProductNeverMutable | src/collections/Products.ts:12-48 | for a document shaped by the collection's schema (no `farm` field), update and delete are never granted, and a farmer makes both rules throw |
| Products.UpdateDeleteAgree | src/collections/Products.ts:12-15 | update and delete give the same decision on every caller and document, throws included |
| Products.UpdateByFarmOwner | src/collections/Products.ts:12-13 | corrected rule: with the farm relation present, granted exactly to the farmer who owns the farm, never throwing |
| Products.FarmOwnerCanUpdate | src/collections/Products.ts:12-13 | under the corrected rule a farm's farmer owner can always update, and it agrees with the source's rule on documents with a populated farm |
| Products.ParseProductType | src/collections/Products.ts:24-35 | a product type is recognised exactly when it is `produce`, `dairy`, `meat` or `poultry` |
| Products.ProductTypeRoundTrip | src/collections/Products.ts:24-35 | each product type reads back unchanged and distinct types have distinct values |
| Products.CheckProduct | src/collections/Products.ts:17-48 | a product is accepted exactly when name and image are present and the type, which has no default, is one of the four options |
| Policy.AnonymousNeverWrites | src/collections/Carts.ts:11-28 | an anonymous caller is granted no create, update or delete on carts, farms or products, cannot read carts, and can read farms and products |
| Policy.OnlyFarmersWriteCatalogue | src/collections/Products.ts:10-15 | any granted write on farms or products implies the caller's role is farmer |
| Policy.AdminsCollectionRights | src/collections/Carts.ts:12-27 | a caller from the admins collection (no role) has every cart right and no write right on farms or products |
| Policy.DeleteWithoutData | src/collections/Carts.ts:26-28 | with no incoming document, a cart delete is granted exactly to the admins collection, a farmer's farm or product delete throws, and anyone else is refused |
| Policy.OnlyCartReadFilters | src/collections/Carts.ts:13 | only the cart read rule answers with a filter, exactly for users-collection callers; the cart rules never throw |
| Href.Target | src/utils/internalDocToHref.ts:9-10 | `relationTo` and `value` come from `fields.doc` when the node has `fields`, from the top level otherwise, and are undefined when the chain breaks |
| Href.ToHref | src/utils/internalDocToHref.ts:12-26 | an absent value or a bare id gives `/`; an unknown relation gives `/`; every non-page result begins with `/` |
| Href.HrefSelectsTarget | src/utils/internalDocToHref.ts:14-26 | a page link gives its pathname or `/`; a farm link selects the farm route keyed by slug, or id when the slug is empty; a product link selects the product route by id, whatever its slug; everything else selects home |
| Href.FarmHrefInjective | src/utils/internalDocToHref.ts:18-20 | two farm links give the same href exactly when their slug-or-id keys agree |
| SiteUrl.Chosen | src/utils/siteUrl.ts:2 | `NEXT_PUBLIC_SITE_URL` when non-empty, else `SITE_URL` when non-empty, else the empty string |
| SiteUrl.TrimOneSlash | src/utils/siteUrl.ts:3-4 | the result is a prefix of the value at most one character shorter; it is shorter exactly when the value ends with `/`, and then adding `/` back restores it |
| SiteUrl.GetSiteUrl | src/utils/siteUrl.ts:1-5 | empty when both variables are empty; otherwise the chosen value with exactly one trailing `/` removed if present |
| SiteUrl.OnlyOneSlashRemoved | src/utils/siteUrl.ts:4 | `x//` gives `x/`, which still ends in a slash, so the trimming is not idempotent |
| SiteUrl.TrimFixedPoint | src/utils/siteUrl.ts:4 | a result without a trailing slash is unchanged by trimming it again |
| NestedDocs.Label | src/payload.config.ts:65 | the label is the document's name, undefined when there is no document |
| NestedDocs.Step | src/payload.config.ts:68 | a step from the empty URL or a URL beginning with `/` yields a URL starting with exactly one slash |
| NestedDocs.Fold | src/payload.config.ts:67-68 | the fold returns the seed for no documents, and otherwise a URL starting with exactly one slash when the seed is empty or rooted |
| NestedDocs.GenerateUrl | src/payload.config.ts:67-68 | the empty chain gives the empty string; any other chain gives a URL starting with exactly one slash |
| NestedDocs.FoldLast | src/payload.config.ts:68 | the URL of a chain plus one document is one step applied to the chain's URL |
| NestedDocs.FoldAppends | src/payload.config.ts:68 | once the URL is `/x…`, each step appends `/slug` verbatim, so inner double slashes are preserved |
| NestedDocs.ConcatenatesWhenFirstSlugPlain | src/payload.config.ts:67-68 | when the first slug is non-empty and does not start with `/`, the URL is the concatenation of `/` + slug over the chain |
| NestedDocs.StepAfterRoot | src/payload.config.ts:68 | a step after the root URL `/` gives the same as the first step from the empty URL |
| NestedDocs.StepRoot | src/payload.config.ts:66-68 | the root slug `/` alone gives `/` |
| NestedDocs.RootAbsorbed | src/payload.config.ts:66-68 | a root page in front of a non-empty chain leaves the chain's URL unchanged |
| NestedDocs.RootExamples | src/payload.config.ts:66-68 | `['/']` gives `/` and `['/', 'a']` gives `/a` |
| NestedDocs.InnerSlashKept | src/payload.config.ts:68 | `['a//b']` gives `/a//b` |
| NestedDocs.LaterLeadingSlashKept | src/payload.config.ts:68 | `['a', '/b']` gives `/a//b` |
| NestedDocs.DropAppend | src/payload.config.ts:68 | dropping the leading slashes of a concatenation stays inside the first part when it holds more than slashes, and otherwise continues into the second |
| NestedDocs.FoldAfterRoot | src/payload.config.ts:66-68 | folding a non-empty chain from `/` gives the same URL as folding it from `''` |
| NestedDocs.FirstSlugSettles | src/payload.config.ts:67-68 | when the first slug holds more than slashes, the URL is the `/slug` concatenation with its leading slashes collapsed |
| NestedDocs.GenerateUrlCollapsesJoined | src/payload.config.ts:66-68 | for every non-empty chain the URL is the concatenation of `/slug` over the chain with its leading run of slashes collapsed to one |
| NestedDocs.UnsetSlugExample | src/payload.config.ts:68 | an unset slug is interpolated as `undefined`, giving `/undefined` |
| Sitemap.ListedPages | src/app/sitemap.ts:31 | the result holds only listed pages (status empty, absent or `published`) drawn from the input, and every listed input page is in it |
| Sitemap.ListedPagesAppend | src/app/sitemap.ts:30-31 | listing a concatenation lists each part, so input order is kept |
| Sitemap.AllListedKept | src/app/sitemap.ts:31 | when every page is listed, the listing is the input itself |
| Sitemap.ListingExamples | src/app/sitemap.ts:31 | a draft page is dropped; a page with no, empty or `published` status is kept |
| Sitemap.PageEntry | src/app/sitemap.ts:32-35 | a page's URL is the site followed by its pathname, or the site alone when the pathname is missing or empty, and carries the page's `updatedAt` |
| Sitemap.FarmEntry | src/app/sitemap.ts:38-41 | a farm's URL is the site plus `/farms/`, followed by the encoded slug, or id when the slug is empty |
| Sitemap.Sitemap | src/app/sitemap.ts:24-49 | no site gives no entries; otherwise `site/` and `site/farms` come first, then the listed pages and then every farm, each in input order, so the length is 2 + listed + farms; every URL begins with the site |
| Sitemap.FarmUrlsDistinct | src/app/sitemap.ts:39 | farms whose encoded keys differ get different URLs |
| Robots.NonEmpty | src/app/robots.txt/route.ts:14 | `filter(Boolean)` keeps no empty line and is the identity on lists without empty strings |
| Robots.NonEmptyAppend | src/app/robots.txt/route.ts:14 | the filter distributes over concatenation, so it keeps order |
| Robots.Lines | src/app/robots.txt/route.ts:9-14 | the first three lines are `User-agent: *`, `Allow: /`, `Disallow: /admin/`; there are 3 lines without a site and 4 with one, the fourth being `Sitemap: <site>/sitemap.xml` |
| Robots.Body | src/app/robots.txt/route.ts:15 | the body begins with the user-agent line and does not end with a newline |
| Robots.BodySplitsIntoLines | src/app/robots.txt/route.ts:9-15 | for a site without a newline, splitting the body at newlines gives back exactly the lines, 3 or 4 of them |
| Robots.BodyWithoutSite | src/app/robots.txt/route.ts:9-15 | without a site the body is the three fixed lines joined by newlines |
| Slug.Field | src/fields/slug/slug.ts:8-19 | the field is a unique, indexed text field named `slug` whose source field defaults to `title` only when the argument is omitted |
| Slug.BeforeDuplicate | src/fields/slug/slug.ts:20-28 | the context gains `duplicate = true` and keeps every other key; a root slug becomes the fresh id; any other slug becomes itself, `-` and the fresh id |
| Slug.DuplicateIsProperExtension | src/fields/slug/slug.ts:26 | a non-root slug is a proper prefix of its duplicate, and distinct fresh ids give distinct duplicates |
| Slug.RootDuplicateIsFreshId | src/fields/slug/slug.ts:23-24 | the root slug's duplicate is the fresh id, which differs from `/` exactly when the id does |

## Left out

- Cart actions (`addToCart`, `decrementCartItem`, `clearAllCarts`, cart serialisation, in src/app/(frontend)/cart/actions/cartActions.ts) are not part of this model; Farms.ts declares no hooks. Only the collections' declared rules and fields are modelled.
- The `carts` and `admins` collections are not registered in the collections list (src/payload.config.ts:34). Their rules are modelled in isolation, as they would act if registered.
- How the CMS applies a decision is modelled only by `Access.Admits`: `Allow` admits every document, `AllowWhere(id)` admits those whose `user` is `id`. A thrown rule is kept as `Throw`; the request failing in that case is not modelled.
- Field checks report the first failing field only; the CMS collects every field error. Fields with no per-document constraint are not checked: tagline, location, description. The slug field's `unique` index spans documents and is not checked by `Farms.CheckFarm`.
- Numbers are `real`: NaN, infinities and floating-point rounding are not modelled.
- `formatSlug` (the `beforeValidate` hook), `deepMerge` and `generateId` are not part of this model. Slug overrides are not modelled (the only caller, src/collections/Farms.ts:25, passes none), and `generateId` becomes the fresh-id parameter.
- `null` is not modelled separately from `undefined`: it reads as absent, which is right for `||`, `?.` and property reads. It is wrong for `${}`, which prints `null` rather than `undefined` (Slug.BeforeDuplicate, NestedDocs.Step), and for default parameters, which `null` does not trigger (Slug.Field). Whether the CMS gives a `null` field its `defaultValue` (Fields.WithDefault) is not visible in this code.
- The rules are modelled for whatever incoming document the CMS passes. The CMS's delete operation may pass no `data` at all; Policy.DeleteWithoutData states what the rules then decide: only the admins collection deletes carts, and a farmer's farm or product delete throws.
- The hook context holds only boolean flags in the model; the source's context can hold any value.
- Slug.Field: states the field with no overrides; with overrides, `deepMerge` could change `unique` or `index`.
- Sitemap.Sitemap: both fixed entries carry the same timestamp `now`. The source calls `new Date()` twice, so the two timestamps can differ by the time between the calls.
- The sitemap's database fetches (`payload.find` with a limit of 500 documents) are inputs. Truncation at 500 and the fetch itself are not modelled. `encodeURIComponent` is an uninterpreted parameter.
- The robots.txt response object and its `Content-Type` header are HTTP plumbing and are not modelled. So are the static-generation exports (`dynamic`, `revalidate`).
- The nested-docs plugin's own breadcrumb construction is not part of this model; only its `generateURL` and `generateLabel` callbacks are modelled.
- Declarative schema without logic is left out: Home, Pages, Admins, Users (beyond the role select), the Header, Footer and HomeConfig globals, the MongoDB, S3 and email adapters, and all UI and rendering code. The auth settings in src/collections/Users.ts:9-13 are also left out; their comment says "24 hours" but the lock time is 10 minutes.
- Concurrency, transactions and stock reservation do not appear in the modelled code.

## Findings

| source | as written | input that shows it | evidently intended | confidence | as-written member | corrected member |
|---|---|---|---|---|---|---|
| src/collections/Products.ts:12-15 | update and delete compare the caller with `data.farm.owner`, but the collection declares no `farm` field (lines 17-48) | a farmer updating a product whose incoming `data` has no `farm` key, which is every document the schema allows: `data.farm` is undefined, so reading `.owner` throws, and every other caller is refused. Only a request that itself supplies a populated `farm` whose `owner` is the farmer's id is granted | products carry a relation to their farm, and the farmer who owns that farm may update or delete them | not executed; medium | Products.SchemaProductNeverMutable | Products.UpdateByFarmOwner |
