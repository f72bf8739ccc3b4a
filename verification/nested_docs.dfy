/** The breadcrumb URL and label of the nested-docs plugin for pages
    (src/payload.config.ts, `generateLabel` and `generateURL`). The URL is a
    left fold over the chain of ancestor documents, root first. */
module NestedDocs {
  import opened Outcomes
  import opened Text

  /** A page in the ancestor chain; `slug` and `name` may be unset. */
  datatype Doc = Doc(slug: Option<string>, name: Option<string>)

  /** `generateLabel`: the document's name (undefined for no document). */
  function Label(doc: Option<Doc>): (r: Option<string>)
    ensures doc.None? ==> r.None?
    ensures doc.Some? ==> r == doc.value.name
  {
    match doc
    case None => None
    case Some(d) => d.name
  }

  /** The string with its leading run of slashes removed. */
  function DropLeadingSlashes(s: string): (r: string)
    ensures |r| <= |s| && r == s[|s| - |r|..]
    ensures |r| == 0 || r[0] != '/'
    ensures forall i :: 0 <= i < |s| - |r| ==> s[i] == '/'
  {
    if |s| > 0 && s[0] == '/' then DropLeadingSlashes(s[1..]) else s
  }

  /** `s.replace(/^\/+/, '/')`: a leading run of slashes becomes one slash. */
  function CollapseLeadingSlashes(s: string): (r: string)
    ensures |s| > 0 && s[0] == '/' ==> r == "/" + DropLeadingSlashes(s)
    ensures !(|s| > 0 && s[0] == '/') ==> r == s
  {
    if |s| > 0 && s[0] == '/' then "/" + DropLeadingSlashes(s) else s
  }

  /** Starts with exactly one slash. */
  predicate SingleLeadingSlash(s: string) {
    |s| > 0 && s[0] == '/' && (|s| == 1 || s[1] != '/')
  }

  /** One step of the fold: `${url}/${doc.slug}` with the leading run collapsed. */
  function Step(url: string, doc: Doc): (r: string)
    ensures url == "" || url[0] == '/' ==> SingleLeadingSlash(r)
  {
    CollapseLeadingSlashes(url + "/" + Interpolate(doc.slug))
  }

  /** `docs.reduce(Step, acc)`. */
  function Fold(acc: string, docs: seq<Doc>): (r: string)
    ensures |docs| == 0 ==> r == acc
    ensures |docs| > 0 && (acc == "" || acc[0] == '/') ==> SingleLeadingSlash(r)
    decreases |docs|
  {
    if |docs| == 0 then acc else Fold(Step(acc, docs[0]), docs[1..])
  }

  /** `generateURL`: the empty chain gives `''`, any other chain a URL that
      starts with exactly one slash. */
  function GenerateUrl(docs: seq<Doc>): (url: string)
    ensures |docs| == 0 ==> url == ""
    ensures |docs| > 0 ==> SingleLeadingSlash(url)
  {
    Fold("", docs)
  }

  /** Each document contributes `/slug`, as the reference reading of the URL. */
  function Joined(docs: seq<Doc>): string
  {
    if |docs| == 0 then "" else "/" + Interpolate(docs[0].slug) + Joined(docs[1..])
  }

  /** The fold is the last step applied to the fold of the chain before it. */
  lemma {:induction false} FoldLast(acc: string, docs: seq<Doc>, d: Doc)
    ensures Fold(acc, docs + [d]) == Step(Fold(acc, docs), d)
    decreases |docs|
  {
    if |docs| == 0 {
      assert docs + [d] == [d];
    } else {
      assert (docs + [d])[1..] == docs[1..] + [d];
      FoldLast(Step(acc, docs[0]), docs[1..], d);
    }
  }

  /** Once the URL starts with exactly one slash followed by something, every
      further step only appends `/slug`: later slashes are kept as written. */
  lemma {:induction false} FoldAppends(acc: string, docs: seq<Doc>)
    requires |acc| >= 2 && SingleLeadingSlash(acc)
    ensures Fold(acc, docs) == acc + Joined(docs)
    decreases |docs|
  {
    if |docs| == 0 {
      assert acc + Joined(docs) == acc + "" == acc;
    } else {
      var s := StepAppends(acc, docs[0]);
      var t, rest := Interpolate(docs[0].slug), Joined(docs[1..]);
      calc {
        Fold(acc, docs);
        Fold(s, docs[1..]);
        { FoldAppends(s, docs[1..]); }
        s + rest;
        { AppendRegroup(acc, t, rest); }
        acc + ("/" + t + rest);
        acc + Joined(docs);
      }
    }
  }

  /** Regrouping a concatenation. */
  lemma ConcatAssoc(a: string, b: string, c: string)
    ensures a + b + c == a + (b + c)
  {
  }

  /** Regrouping `a/t` followed by the rest. */
  lemma AppendRegroup(a: string, t: string, rest: string)
    ensures a + "/" + t + rest == a + ("/" + t + rest)
  {
  }

  /** A string starting with exactly one slash and more after it is left alone
      by the collapse. */
  lemma SingleSlashStep(s: string)
    requires |s| >= 2 && s[0] == '/' && s[1] != '/'
    ensures CollapseLeadingSlashes(s) == s
  {
    assert DropLeadingSlashes(s[1..]) == s[1..];
    assert "/" + s[1..] == s;
  }

  /** From a URL starting with exactly one slash and more, a step appends
      `/slug` and keeps that shape. */
  lemma StepAppends(acc: string, d: Doc) returns (s: string)
    requires |acc| >= 2 && SingleLeadingSlash(acc)
    ensures s == acc + "/" + Interpolate(d.slug)
    ensures Step(acc, d) == s
    ensures |s| >= 2 && SingleLeadingSlash(s)
  {
    s := acc + "/" + Interpolate(d.slug);
    assert s[0] == acc[0] && s[1] == acc[1];
    SingleSlashStep(s);
  }

  /** When the first slug is non-empty and does not start with a slash, the URL
      is the plain concatenation of `/slug` over the chain. */
  lemma ConcatenatesWhenFirstSlugPlain(docs: seq<Doc>)
    requires |docs| > 0
    requires var s := Interpolate(docs[0].slug); |s| > 0 && s[0] != '/'
    ensures GenerateUrl(docs) == Joined(docs)
  {
    var s := "" + "/" + Interpolate(docs[0].slug);
    assert DropLeadingSlashes(s) == s[1..];
    assert "/" + s[1..] == s;
    assert Step("", docs[0]) == s;
    FoldAppends(s, docs[1..]);
  }

  /** After a root page the next step gives what it gives at the start. */
  lemma StepAfterRoot(d: Doc)
    ensures Step("/", d) == Step("", d)
  {
    var t := Interpolate(d.slug);
    var s1 := "/" + "/" + t;
    var s2 := "" + "/" + t;
    assert s1[0] == '/' && s1[1..] == s2;
    assert s2[0] == '/';
    assert DropLeadingSlashes(s1) == DropLeadingSlashes(s2);
  }

  /** A root page alone gives `/`. */
  lemma StepRoot(root: Doc)
    requires root.slug == Some("/")
    ensures Step("", root) == "/"
  {
  }

  /** A root slug `/` is absorbed: a root page followed by a non-empty chain
      gives the chain's own URL. */
  lemma {:induction false} RootAbsorbed(root: Doc, docs: seq<Doc>)
    requires root.slug == Some("/")
    requires |docs| > 0
    ensures GenerateUrl([root] + docs) == GenerateUrl(docs)
  {
    StepRoot(root);
    StepAfterRoot(docs[0]);
    var all := [root] + docs;
    assert all[1..] == docs && all[0] == root;
    assert Fold("", all) == Fold("/", docs);
    assert Fold("/", docs) == Fold(Step("/", docs[0]), docs[1..]);
    assert Fold("", docs) == Fold(Step("", docs[0]), docs[1..]);
  }

  /** Dropping the leading run of a concatenation: if the first part has
      something besides slashes, the run lies inside it; otherwise the whole
      first part belongs to the run. */
  lemma {:induction false} DropAppend(s: string, u: string)
    ensures |DropLeadingSlashes(s)| > 0 ==> DropLeadingSlashes(s + u) == DropLeadingSlashes(s) + u
    ensures |DropLeadingSlashes(s)| == 0 ==> DropLeadingSlashes(s + u) == DropLeadingSlashes(u)
    decreases |s|
  {
    if |s| == 0 {
      assert s + u == u;
    } else if s[0] == '/' {
      assert (s + u)[0] == '/' && (s + u)[1..] == s[1..] + u;
      DropAppend(s[1..], u);
    } else {
      assert (s + u)[0] == s[0];
    }
  }

  /** A chain folded from `/` gives what it gives from `''`. */
  lemma FoldAfterRoot(docs: seq<Doc>)
    requires |docs| > 0
    ensures Fold("/", docs) == Fold("", docs)
  {
    StepAfterRoot(docs[0]);
  }

  /** The first step and the reference URL, each unfolded at the first
      document. */
  lemma UnfoldFirst(docs: seq<Doc>)
    requires |docs| > 0
    ensures var p := "/" + Interpolate(docs[0].slug);
            Step("", docs[0]) == "/" + DropLeadingSlashes(p)
            && CollapseLeadingSlashes(Joined(docs)) == "/" + DropLeadingSlashes(p + Joined(docs[1..]))
  {
    var p := "/" + Interpolate(docs[0].slug);
    assert "" + "/" + Interpolate(docs[0].slug) == p;
    assert Joined(docs) == p + Joined(docs[1..]);
    assert (p + Joined(docs[1..]))[0] == '/';
  }

  /** A first slug with more than slashes in it fixes the shape at once. */
  lemma FirstSlugSettles(docs: seq<Doc>)
    requires |docs| > 0
    requires |DropLeadingSlashes("/" + Interpolate(docs[0].slug))| > 0
    ensures GenerateUrl(docs) == CollapseLeadingSlashes(Joined(docs))
  {
    var p, rest := "/" + Interpolate(docs[0].slug), Joined(docs[1..]);
    var d := DropLeadingSlashes(p);
    var c := Step("", docs[0]);
    UnfoldFirst(docs);
    assert c == "/" + d;
    assert |c| >= 2 && c[1] == d[0] && SingleLeadingSlash(c);
    calc {
      GenerateUrl(docs);
      Fold(c, docs[1..]);
      { FoldAppends(c, docs[1..]); }
      c + rest;
      { ConcatAssoc("/", d, rest); }
      "/" + (d + rest);
      { DropAppend(p, rest); }
      "/" + DropLeadingSlashes(p + rest);
      CollapseLeadingSlashes(Joined(docs));
    }
  }

  /** The breadcrumb URL of every non-empty chain is the concatenation of
      `/slug` over the chain with its leading run of slashes collapsed to one. */
  lemma {:induction false} GenerateUrlCollapsesJoined(docs: seq<Doc>)
    requires |docs| > 0
    ensures GenerateUrl(docs) == CollapseLeadingSlashes(Joined(docs))
    decreases |docs|
  {
    var p, rest := "/" + Interpolate(docs[0].slug), Joined(docs[1..]);
    if |DropLeadingSlashes(p)| > 0 {
      FirstSlugSettles(docs);
    } else {
      UnfoldFirst(docs);
      DropAppend(p, rest);
      assert Step("", docs[0]) == "/";
      assert Fold("", docs) == Fold("/", docs[1..]);
      if |docs| == 1 {
        assert rest == "";
      } else {
        FoldAfterRoot(docs[1..]);
        GenerateUrlCollapsesJoined(docs[1..]);
        assert rest[0] == '/';
      }
    }
  }

  /** A lone root page gives `/`, and a root page with a child `a` gives `/a`. */
  lemma RootExamples()
    ensures GenerateUrl([Doc(Some("/"), None)]) == "/"
    ensures GenerateUrl([Doc(Some("/"), None), Doc(Some("a"), None)]) == "/a"
  {
    StepRoot(Doc(Some("/"), None));
    RootAbsorbed(Doc(Some("/"), None), [Doc(Some("a"), None)]);
    ConcatenatesWhenFirstSlugPlain([Doc(Some("a"), None)]);
  }

  /** An inner `//` in a slug survives. */
  lemma InnerSlashKept()
    ensures GenerateUrl([Doc(Some("a//b"), None)]) == "/a//b"
  {
    var one := [Doc(Some("a//b"), None)];
    ConcatenatesWhenFirstSlugPlain(one);
    assert Joined(one) == "/" + "a//b" + Joined([]);
  }

  /** A later slug with a leading slash yields `//` inside the URL. */
  lemma LaterLeadingSlashKept()
    ensures GenerateUrl([Doc(Some("a"), None), Doc(Some("/b"), None)]) == "/a//b"
  {
    var two := [Doc(Some("a"), None), Doc(Some("/b"), None)];
    ConcatenatesWhenFirstSlugPlain(two);
    assert two[1..] == [Doc(Some("/b"), None)];
    assert Joined(two[1..]) == "/" + "/b" + Joined([]);
    assert Joined(two) == "/" + "a" + Joined(two[1..]);
  }

  /** An unset slug is interpolated as the text `undefined`. */
  lemma UnsetSlugExample()
    ensures GenerateUrl([Doc(None, None)]) == "/undefined"
  {
    ConcatenatesWhenFirstSlugPlain([Doc(None, None)]);
  }
}
