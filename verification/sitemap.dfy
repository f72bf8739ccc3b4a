/** Assembly of the sitemap entries (src/app/sitemap.ts) from the site URL and
    the fetched page and farm documents. The fetches, the clock and
    `encodeURIComponent` are parameters. */
module Sitemap {
  import opened Outcomes
  import opened Text

  datatype PageDoc = PageDoc(pathname: Option<string>, updatedAt: Option<string>, status: Option<string>)
  datatype FarmDoc = FarmDoc(id: string, slug: Option<string>, updatedAt: Option<string>)
  datatype Entry = Entry(url: string, lastModified: Option<string>)

  /** `!p._status || p._status === 'published'`: drafts are left out. */
  predicate Listed(p: PageDoc) {
    !Truthy(p.status) || p.status == Some("published")
  }

  /** The listed pages, in input order. */
  function ListedPages(pages: seq<PageDoc>): (r: seq<PageDoc>)
    ensures |r| <= |pages|
    ensures forall i :: 0 <= i < |r| ==> Listed(r[i]) && r[i] in pages
    ensures forall i :: 0 <= i < |pages| && Listed(pages[i]) ==> pages[i] in r
  {
    if |pages| == 0 then []
    else
      var rest := ListedPages(pages[1..]);
      assert forall i :: 1 <= i < |pages| ==> pages[i] == pages[1..][i - 1];
      if Listed(pages[0]) then [pages[0]] + rest else rest
  }

  /** Listing is done page by page, so it keeps the input order: listing a
      concatenation lists each part. */
  lemma {:induction false} ListedPagesAppend(a: seq<PageDoc>, b: seq<PageDoc>)
    ensures ListedPages(a + b) == ListedPages(a) + ListedPages(b)
    decreases |a|
  {
    if |a| == 0 {
      assert a + b == b;
    } else {
      assert (a + b)[0] == a[0];
      assert (a + b)[1..] == a[1..] + b;
      ListedPagesAppend(a[1..], b);
    }
  }

  /** When every page is listed, all are kept. */
  lemma {:induction false} AllListedKept(pages: seq<PageDoc>)
    requires forall i :: 0 <= i < |pages| ==> Listed(pages[i])
    ensures ListedPages(pages) == pages
  {
    if |pages| > 0 {
      AllListedKept(pages[1..]);
      assert [pages[0]] + pages[1..] == pages;
    }
  }

  /** `${site}${p.pathname || ''}`, stamped with the page's `updatedAt`. */
  function PageEntry(site: string, p: PageDoc): (e: Entry)
    ensures StartsWith(e.url, site) && e.lastModified == p.updatedAt
    ensures e.url[|site|..] == Or(p.pathname, "")
    ensures !Truthy(p.pathname) ==> e.url == site
  {
    var e := Entry(site + Or(p.pathname, ""), p.updatedAt);
    assert e.url[..|site|] == site;
    e
  }

  /** `${site}/farms/${encode(f.slug || f.id)}`, stamped with the farm's `updatedAt`. */
  function FarmEntry(site: string, f: FarmDoc, encode: string -> string): (e: Entry)
    ensures StartsWith(e.url, site + "/farms/")
    ensures e.url[|site + "/farms/"|..] == encode(Or(f.slug, f.id))
    ensures e.lastModified == f.updatedAt
  {
    var e := Entry(site + "/farms/" + encode(Or(f.slug, f.id)), f.updatedAt);
    assert e.url[..|site + "/farms/"|] == site + "/farms/";
    e
  }

  /** The two fixed entries, stamped with the current time. */
  function StaticEntries(site: string, now: string): seq<Entry> {
    [Entry(site + "/", Some(now)), Entry(site + "/farms", Some(now))]
  }

  /** `sitemap()`: nothing without a site; otherwise the two fixed entries,
      then the listed pages, then every farm, each group in input order. */
  function Sitemap(site: string, pages: seq<PageDoc>, farms: seq<FarmDoc>, now: string,
                   encode: string -> string): (r: seq<Entry>)
    ensures |site| == 0 ==> r == []
    ensures |site| > 0 ==> |r| == 2 + |ListedPages(pages)| + |farms|
    ensures |site| > 0 ==> r[..2] == StaticEntries(site, now)
    ensures |site| > 0 ==> forall i :: 0 <= i < |ListedPages(pages)| ==>
              r[2 + i] == PageEntry(site, ListedPages(pages)[i])
    ensures |site| > 0 ==> forall i :: 0 <= i < |farms| ==>
              r[2 + |ListedPages(pages)| + i] == FarmEntry(site, farms[i], encode)
    ensures forall i :: 0 <= i < |r| ==> StartsWith(r[i].url, site)
  {
    if |site| == 0 then []
    else
      var listed := ListedPages(pages);
      var pageUrls := seq(|listed|, i requires 0 <= i < |listed| => PageEntry(site, listed[i]));
      var farmUrls := seq(|farms|, i requires 0 <= i < |farms| => FarmEntry(site, farms[i], encode));
      var r := StaticEntries(site, now) + pageUrls + farmUrls;
      assert r[0].url[..|site|] == site;
      assert r[1].url[..|site|] == site;
      assert forall i :: 0 <= i < |farms| ==> StartsWith(farmUrls[i].url, site) by {
        forall i | 0 <= i < |farms|
          ensures StartsWith(farmUrls[i].url, site)
        {
          var u := farmUrls[i].url;
          assert u[..|site + "/farms/"|] == site + "/farms/";
          assert u[..|site|] == (site + "/farms/")[..|site|];
        }
      }
      r
  }

  /** A farm's entry names it by slug, or by id when the slug is empty, and two
      farms with different keys get different URLs whenever `encode` keeps
      different keys apart. */
  lemma FarmUrlsDistinct(site: string, f: FarmDoc, g: FarmDoc, encode: string -> string)
    requires encode(Or(f.slug, f.id)) != encode(Or(g.slug, g.id))
    ensures FarmEntry(site, f, encode).url != FarmEntry(site, g, encode).url
  {
  }

  /** A draft is left out and a published page or one with no status is kept. */
  lemma ListingExamples(p: PageDoc)
    ensures p.status == Some("draft") ==> ListedPages([p]) == []
    ensures p.status in {None, Some(""), Some("published")} ==> ListedPages([p]) == [p]
  {
  }
}
