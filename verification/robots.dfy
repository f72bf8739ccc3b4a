/** The body of robots.txt (src/app/robots.txt/route.ts): three fixed lines,
    a sitemap line when a site URL is configured, joined by newlines. */
module Robots {
  import opened Text

  const UserAgentLine: string := "User-agent: *"
  const AllowLine: string := "Allow: /"
  const DisallowLine: string := "Disallow: /admin/"

  function SitemapLine(site: string): string {
    "Sitemap: " + site + "/sitemap.xml"
  }

  /** `.filter(Boolean)` on strings: drops the empty ones, keeping order. */
  function NonEmpty(xs: seq<string>): (r: seq<string>)
    ensures |r| <= |xs|
    ensures forall i :: 0 <= i < |r| ==> |r[i]| > 0
    ensures (forall i :: 0 <= i < |xs| ==> |xs[i]| > 0) ==> r == xs
  {
    if |xs| == 0 then []
    else
      var rest := NonEmpty(xs[1..]);
      assert (forall i :: 0 <= i < |xs| ==> |xs[i]| > 0) ==> rest == xs[1..] by {
        if forall i :: 0 <= i < |xs| ==> |xs[i]| > 0 {
          assert forall i :: 0 <= i < |xs[1..]| ==> xs[1..][i] == xs[i + 1];
        }
      }
      if |xs[0]| > 0 then [xs[0]] + rest else rest
  }

  /** Filtering is done element by element, so it distributes over `+`. */
  lemma {:induction false} NonEmptyAppend(a: seq<string>, b: seq<string>)
    ensures NonEmpty(a + b) == NonEmpty(a) + NonEmpty(b)
    decreases |a|
  {
    if |a| == 0 {
      assert a + b == b;
    } else {
      assert (a + b)[0] == a[0];
      assert (a + b)[1..] == a[1..] + b;
      NonEmptyAppend(a[1..], b);
    }
  }

  /** The lines: the three fixed ones in order, then the sitemap line exactly
      when the site URL is non-empty. */
  function Lines(site: string): (lines: seq<string>)
    ensures |lines| >= 3 && lines[..3] == [UserAgentLine, AllowLine, DisallowLine]
    ensures |site| == 0 <==> |lines| == 3
    ensures |site| > 0 ==> |lines| == 4 && lines[3] == SitemapLine(site)
    ensures forall i :: 0 <= i < |lines| ==> |lines[i]| > 0
  {
    var fixed := [UserAgentLine, AllowLine, DisallowLine];
    var last := if |site| > 0 then SitemapLine(site) else "";
    var all := fixed + [last];
    if |site| > 0 then
      assert forall i :: 0 <= i < |all| ==> |all[i]| > 0;
      NonEmpty(all)
    else
      NonEmptyAppend(fixed, [last]);
      assert NonEmpty([last]) == [];
      NonEmpty(all)
  }

  /** The response body: the lines joined by newlines. */
  function Body(site: string): (body: string)
    ensures StartsWith(body, UserAgentLine)
    ensures |body| > 0 && body[|body| - 1] != '\n'
  {
    var lines := Lines(site);
    JoinStartsWithFirst(lines, '\n');
    JoinEndsWithLast(lines, '\n');
    var last := lines[|lines| - 1];
    assert last == DisallowLine || last == SitemapLine(site);
    assert last[|last| - 1] == (if |site| > 0 then 'l' else '/');
    Join(lines, '\n')
  }

  /** A site URL without a newline gives a body that splits back into exactly
      its lines: 3 of them without a site, 4 with one, the sitemap line present
      exactly when the site is. */
  lemma BodySplitsIntoLines(site: string)
    requires '\n' !in site
    ensures Split(Body(site), '\n') == Lines(site)
    ensures |Split(Body(site), '\n')| == (if |site| == 0 then 3 else 4)
  {
    var lines := Lines(site);
    forall i | 0 <= i < |lines|
      ensures '\n' !in lines[i]
    {
      if i == 3 {
        assert lines[3] == "Sitemap: " + site + "/sitemap.xml";
      } else {
        assert lines[i] == [UserAgentLine, AllowLine, DisallowLine][i];
      }
    }
    SplitJoin(lines, '\n');
  }

  /** Without a site URL the body is the three fixed lines and nothing else. */
  lemma BodyWithoutSite()
    ensures Body("") == UserAgentLine + "\n" + AllowLine + "\n" + DisallowLine
  {
    assert Lines("") == [UserAgentLine, AllowLine, DisallowLine];
  }
}
