/**
 * The SEO helpers: meta-tag and schema.org records built from page data with
 * the site's defaults, the breadcrumb trail of a path, and the XML sitemap in
 * the format of the sitemaps.org Sitemap protocol 0.9.
 */
module Seo {
  import opened Wrappers
  import opened Json
  import opened Text

  // The site configuration the helpers read (`SITE_CONFIG`).
  const SiteName := "Jacques Belmont"
  const SiteTitle := "Jacques Belmont - Digital Marketing Expert & AI Specialist"
  const SiteDescription := "Professional digital marketing consultant specializing in SEO, content strategy, and AI optimization. Based in João Pessoa, Brazil."
  const SiteUrl := "https://jacquesbelmont.com"
  const SiteImage := "/og-image.jpg"
  const SiteKeywords: seq<string> := ["Jacques Belmont", "Digital Marketing", "SEO Specialist", "Content Strategy",
                                      "AI Optimization", "João Pessoa Marketing", "Paraíba SEO", "Marketing Digital Brasil"]
  const SiteAuthor := "Jacques Belmont"
  const SiteRobots := "index, follow"
  const TwitterHandle := "@jacquesbelmont"
  const SchemaContext := "https://schema.org"

  // ---------------------------------------------------------------- meta tags

  /** The page data a layout passes in; None is a property left `undefined`. */
  datatype SeoData = SeoData(
    title: Option<string>, description: Option<string>, keywords: Option<seq<string>>,
    image: Option<string>, url: Option<string>, pageType: Option<string>,
    publishedTime: Option<string>, modifiedTime: Option<string>, author: Option<string>,
    section: Option<string>, tags: Option<seq<string>>)

  /** The article members, spread in only for articles. */
  datatype ArticleTags = ArticleTags(
    publishedTime: Option<string>, modifiedTime: Option<string>, author: string,
    section: Option<string>, tags: seq<string>)

  datatype SeoTags = SeoTags(
    title: string, description: string, keywords: string, author: string, robots: string, canonical: string,
    ogType: string, ogTitle: string, ogDescription: string, ogImage: string, ogUrl: string, ogSiteName: string,
    twitterCard: string, twitterSite: string, twitterCreator: string,
    twitterTitle: string, twitterDescription: string, twitterImage: string,
    article: Option<ArticleTags>)

  /** The open-graph and twitter copies agree with the basic tags, and the site-wide members are fixed. */
  predicate Coherent(t: SeoTags) {
    && t.ogTitle == t.title && t.twitterTitle == t.title
    && t.ogDescription == t.description && t.twitterDescription == t.description
    && t.ogImage == t.twitterImage && t.ogUrl == t.canonical
    && t.robots == SiteRobots && t.ogSiteName == SiteName && t.twitterCard == "summary_large_image"
    && t.twitterSite == TwitterHandle && t.twitterCreator == TwitterHandle
    && (t.article.Some? ==> t.article.value.author == t.author && t.ogType == "article")
  }

  function GenerateSEOTags(data: SeoData): (t: SeoTags)
    ensures Coherent(t)
    ensures t.title == data.title.GetOr(SiteTitle) && t.description == data.description.GetOr(SiteDescription)
    ensures t.ogImage == data.image.GetOr(SiteImage) && t.canonical == data.url.GetOr(SiteUrl)
    ensures t.author == data.author.GetOr(SiteAuthor) && t.ogType == data.pageType.GetOr("website")
    ensures t.keywords == Join(data.keywords.GetOr(SiteKeywords), ", ")
    ensures t.article.Some? <==> data.pageType == Some("article")
    ensures t.article.Some? ==> t.article.value == ArticleTags(data.publishedTime, data.modifiedTime, t.author,
                                                              data.section, data.tags.GetOr([]))
  {
    var title := data.title.GetOr(SiteTitle);
    var description := data.description.GetOr(SiteDescription);
    var keywords := data.keywords.GetOr(SiteKeywords);
    var image := data.image.GetOr(SiteImage);
    var url := data.url.GetOr(SiteUrl);
    var pageType := data.pageType.GetOr("website");
    var author := data.author.GetOr(SiteAuthor);
    var tags := data.tags.GetOr([]);
    SeoTags(
      title, description, Join(keywords, ", "), author, SiteRobots, url,
      pageType, title, description, image, url, SiteName,
      "summary_large_image", TwitterHandle, TwitterHandle, title, description, image,
      if pageType == "article" then Some(ArticleTags(data.publishedTime, data.modifiedTime, author, data.section, tags))
      else None)
  }

  const NoData := SeoData(None, None, None, None, None, None, None, None, None, None, None)

  /** A page that passes nothing gets the site's own title, description, image, url and author, as a website. */
  lemma SEOTagsOfEmptyData()
    ensures GenerateSEOTags(NoData).title == SiteTitle && GenerateSEOTags(NoData).description == SiteDescription
    ensures GenerateSEOTags(NoData).canonical == SiteUrl && GenerateSEOTags(NoData).ogImage == SiteImage
    ensures GenerateSEOTags(NoData).ogType == "website" && GenerateSEOTags(NoData).article == None
  {
  }

  // ---------------------------------------------------------- structured data

  /** The schema.org type for each structured-data kind. */
  function SchemaType(kind: string): string {
    if kind == "article" then "BlogPosting"
    else if kind == "website" then "WebSite"
    else if kind == "person" then "Person"
    else "Organization"
  }

  function TypeOnly(t: string): Body { map["@type" := JStr(t)] }

  function BaseSchema(kind: string): Body {
    map["@context" := JStr(SchemaContext), "@type" := JStr(SchemaType(kind))]
  }

  /** `SITE_CONFIG.schema`. */
  const PersonSchema: Json := JObj(map[
    "@context" := JStr(SchemaContext),
    "@type" := JStr("Person"),
    "name" := JStr(SiteName),
    "jobTitle" := JStr("Digital Marketing Expert & AI Specialist"),
    "description" := JStr("Professional digital marketing consultant specializing in SEO, content strategy, and AI optimization."),
    "url" := JStr(SiteUrl),
    "sameAs" := JArr([JStr("https://linkedin.com/in/jacquesbelmont"), JStr("https://youtube.com/@jacquesbelmont"),
                      JStr("https://github.com/jacquesbelmont"), JStr("https://twitter.com/jacquesbelmont")]),
    "address" := JObj(map["@type" := JStr("PostalAddress"), "addressLocality" := JStr("João Pessoa"),
                          "addressRegion" := JStr("Paraíba"), "addressCountry" := JStr("BR")]),
    "email" := JStr("contact@jacquesbelmont.com"),
    "telephone" := JStr("+55 (83) 9 9999-9999")])

  /** The JSON-LD object for a page of the given kind; `data` is read only for articles. */
  function GenerateStructuredData(kind: string, data: Body): (r: Json)
    ensures r.JObj? && "@context" in r.fields && "@type" in r.fields
    ensures kind == "person" ==> r == PersonSchema
    ensures kind !in {"article", "website", "person"} ==> r == JObj(BaseSchema(kind))
  {
    var base := BaseSchema(kind);
    if kind == "article" then
      var author := Or(Get(data, "author"), Some(JStr(SiteAuthor))).value;
      var page := Put(TypeOnly("WebPage"), "@id", Get(data, "url"));
      var fields := Put(Put(Put(base, "headline", Get(data, "title")), "description", Get(data, "description")),
                        "image", Get(data, "image"));
      var fields := fields["author" := JObj(TypeOnly("Person")["name" := author])]
        ["publisher" := ArticlePublisher];
      var fields := Put(Put(fields, "datePublished", Get(data, "publishedTime")), "dateModified", Get(data, "modifiedTime"));
      JObj(fields["mainEntityOfPage" := JObj(page)])
    else if kind == "website" then
      JObj(base["name" := JStr(SiteName)]["url" := JStr(SiteUrl)]["description" := JStr(SiteDescription)]
           ["potentialAction" := JObj(TypeOnly("SearchAction")
              ["target" := JStr(SiteUrl + "/search?q={search_term_string}")]
              ["query-input" := JStr("required name=search_term_string")])])
    else if kind == "person" then PersonSchema
    else JObj(base)
  }

  /** Every kind yields the schema.org context and the type SchemaType names; an article's author falls back to the site author. */
  lemma StructuredDataTypes(kind: string, data: Body)
    ensures GenerateStructuredData(kind, data).fields["@context"] == JStr(SchemaContext)
    ensures GenerateStructuredData(kind, data).fields["@type"] == JStr(SchemaType(kind))
    ensures kind == "article" && !Truthy(Get(data, "author")) ==>
      GenerateStructuredData(kind, data).fields["author"] == JObj(map["@type" := JStr("Person"), "name" := JStr(SiteAuthor)])
  {
    if kind == "article" {
      ArticleSchema(data);
    } else if kind == "website" {
      WebsiteSchema();
    } else if kind == "person" {
      assert PersonSchema.fields["@type"] == JStr("Person");
    }
  }

  /** The fixed `publisher` of every article: the site as an organisation with its logo. */
  const ArticlePublisher: Json := JObj(map[
    "@type" := JStr("Organization"), "name" := JStr(SiteName),
    "logo" := JObj(map["@type" := JStr("ImageObject"), "url" := JStr(SiteUrl + "/logo.png")])])

  /**
   * An article's members come from the page data: the headline is its title,
   * description, image and the two dates are copied (and absent when absent),
   * the main entity is a WebPage whose `@id` is its url, the author is its
   * author or the site author, and the publisher is the fixed organisation.
   */
  lemma ArticleSchema(data: Body)
    ensures var r := GenerateStructuredData("article", data).fields;
      && r["@context"] == JStr(SchemaContext) && r["@type"] == JStr("BlogPosting")
      && (!Truthy(Get(data, "author")) ==> r["author"] == JObj(map["@type" := JStr("Person"), "name" := JStr(SiteAuthor)]))
    ensures var r := GenerateStructuredData("article", data).fields;
      && {"@context", "@type", "author", "publisher", "mainEntityOfPage"} <= r.Keys
      && r.Keys <= {"@context", "@type", "author", "publisher", "mainEntityOfPage",
                    "headline", "description", "image", "datePublished", "dateModified"}
      && Get(r, "headline") == Get(data, "title")
      && Get(r, "description") == Get(data, "description")
      && Get(r, "image") == Get(data, "image")
      && Get(r, "datePublished") == Get(data, "publishedTime")
      && Get(r, "dateModified") == Get(data, "modifiedTime")
      && (Truthy(Get(data, "author")) ==> r["author"] == JObj(map["@type" := JStr("Person"), "name" := data["author"]]))
      && r["publisher"] == ArticlePublisher
      && Field(r["mainEntityOfPage"], "@type") == Some(JStr("WebPage"))
      && Field(r["mainEntityOfPage"], "@id") == Get(data, "url")
  {
    ArticleHead(data);
    ArticleCopies(data);
    ArticleFixedMembers(data);
    ArticleKeys(data);
  }

  /** The article's fields before the dates and the main entity are added. */
  function ArticleStem(data: Body): Body {
    var fields := Put(Put(Put(BaseSchema("article"), "headline", Get(data, "title")), "description", Get(data, "description")),
                      "image", Get(data, "image"));
    fields["author" := JObj(TypeOnly("Person")["name" := Or(Get(data, "author"), Some(JStr(SiteAuthor))).value])]
      ["publisher" := ArticlePublisher]
  }

  lemma ArticleUnfold(data: Body)
    ensures GenerateStructuredData("article", data).fields ==
      Put(Put(ArticleStem(data), "datePublished", Get(data, "publishedTime")), "dateModified", Get(data, "modifiedTime"))
        ["mainEntityOfPage" := JObj(Put(TypeOnly("WebPage"), "@id", Get(data, "url")))]
  {
  }

  lemma ArticleHead(data: Body)
    ensures var r := GenerateStructuredData("article", data).fields;
      && r["@context"] == JStr(SchemaContext) && r["@type"] == JStr("BlogPosting")
      && (!Truthy(Get(data, "author")) ==> r["author"] == JObj(map["@type" := JStr("Person"), "name" := JStr(SiteAuthor)]))
  {
    ArticleUnfold(data);
    var stem := ArticleStem(data);
    assert stem["@context"] == JStr(SchemaContext) && stem["@type"] == JStr("BlogPosting");
  }

  /** Adding a member leaves every other member as it was. */
  lemma GetPastPut(obj: Body, key: string, v: Option<Json>, k: string)
    requires k != key
    ensures Get(Put(obj, key, v), k) == Get(obj, k)
  {
  }

  /** A member added to an object that lacked it reads back as the added value. */
  lemma GetOfPut(obj: Body, key: string, v: Option<Json>)
    requires key !in obj
    ensures Get(Put(obj, key, v), key) == v
  {
  }

  /** The members copied from the page data, read back from the stem. */
  lemma StemCopies(data: Body)
    ensures Get(ArticleStem(data), "headline") == Get(data, "title")
    ensures Get(ArticleStem(data), "description") == Get(data, "description")
    ensures Get(ArticleStem(data), "image") == Get(data, "image")
    ensures "datePublished" !in ArticleStem(data) && "dateModified" !in ArticleStem(data)
  {
    var f0 := BaseSchema("article");
    var f1 := Put(f0, "headline", Get(data, "title"));
    var f2 := Put(f1, "description", Get(data, "description"));
    var f3 := Put(f2, "image", Get(data, "image"));
    GetOfPut(f0, "headline", Get(data, "title"));
    GetPastPut(f1, "description", Get(data, "description"), "headline");
    GetPastPut(f2, "image", Get(data, "image"), "headline");
    GetOfPut(f1, "description", Get(data, "description"));
    GetPastPut(f2, "image", Get(data, "image"), "description");
    GetOfPut(f2, "image", Get(data, "image"));
  }

  lemma ArticleCopies(data: Body)
    ensures var r := GenerateStructuredData("article", data).fields;
      && Get(r, "headline") == Get(data, "title")
      && Get(r, "description") == Get(data, "description")
      && Get(r, "image") == Get(data, "image")
      && Get(r, "datePublished") == Get(data, "publishedTime")
      && Get(r, "dateModified") == Get(data, "modifiedTime")
  {
    ArticleUnfold(data);
    StemCopies(data);
    var stem := ArticleStem(data);
    var d1 := Put(stem, "datePublished", Get(data, "publishedTime"));
    var d2 := Put(d1, "dateModified", Get(data, "modifiedTime"));
    var r := GenerateStructuredData("article", data).fields;
    assert r == d2["mainEntityOfPage" := JObj(Put(TypeOnly("WebPage"), "@id", Get(data, "url")))];
    forall k | k in {"headline", "description", "image"}
      ensures Get(r, k) == Get(stem, k)
    {
      GetPastPut(stem, "datePublished", Get(data, "publishedTime"), k);
      GetPastPut(d1, "dateModified", Get(data, "modifiedTime"), k);
    }
    GetOfPut(stem, "datePublished", Get(data, "publishedTime"));
    GetPastPut(d1, "dateModified", Get(data, "modifiedTime"), "datePublished");
    assert "dateModified" !in d1;
    GetOfPut(d1, "dateModified", Get(data, "modifiedTime"));
  }

  lemma ArticleFixedMembers(data: Body)
    ensures var r := GenerateStructuredData("article", data).fields;
      && (Truthy(Get(data, "author")) ==> r["author"] == JObj(map["@type" := JStr("Person"), "name" := data["author"]]))
      && r["publisher"] == ArticlePublisher
      && Field(r["mainEntityOfPage"], "@type") == Some(JStr("WebPage"))
      && Field(r["mainEntityOfPage"], "@id") == Get(data, "url")
  {
    ArticleUnfold(data);
    var page := Put(TypeOnly("WebPage"), "@id", Get(data, "url"));
    assert Get(page, "@type") == Some(JStr("WebPage")) && Get(page, "@id") == Get(data, "url");
  }

  lemma ArticleKeys(data: Body)
    ensures var r := GenerateStructuredData("article", data).fields;
      && {"@context", "@type", "author", "publisher", "mainEntityOfPage"} <= r.Keys
      && r.Keys <= {"@context", "@type", "author", "publisher", "mainEntityOfPage",
                    "headline", "description", "image", "datePublished", "dateModified"}
  {
    ArticleUnfold(data);
  }

  /** The website object is the fixed site record: the page data plays no part in it. */
  lemma WebsiteSchema()
    ensures var r := GenerateStructuredData("website", map[]).fields;
      r["@context"] == JStr(SchemaContext) && r["@type"] == JStr("WebSite")
    ensures forall data: Body :: GenerateStructuredData("website", data) == GenerateStructuredData("website", map[])
    ensures var r := GenerateStructuredData("website", map[]).fields;
      && r.Keys == {"@context", "@type", "name", "url", "description", "potentialAction"}
      && r["name"] == JStr(SiteName) && r["url"] == JStr(SiteUrl) && r["description"] == JStr(SiteDescription)
      && r["potentialAction"] == JObj(map["@type" := JStr("SearchAction"),
                                          "target" := JStr(SiteUrl + "/search?q={search_term_string}"),
                                          "query-input" := JStr("required name=search_term_string")])
  {
    assert "@context" != "name" && "@context" != "url" && "@context" != "description" && "@context" != "potentialAction";
    assert "@type" != "name" && "@type" != "url" && "@type" != "description" && "@type" != "potentialAction";
  }

  // -------------------------------------------------------------- breadcrumbs

  datatype Crumb = Crumb(name: string, url: string)

  const Home := Crumb("Home", "/")

  /** `.filter(Boolean)` on strings: drops the empty ones. */
  function NonEmpty(parts: seq<string>): (r: seq<string>)
    ensures |r| <= |parts|
    ensures forall k :: 0 <= k < |r| ==> r[k] != [] && r[k] in parts
    decreases |parts|
  {
    if parts == [] then []
    else (if parts[0] == [] then [] else [parts[0]]) + NonEmpty(parts[1..])
  }

  /** `path.split('/').filter(Boolean)`. */
  function Segments(path: string): (segs: seq<string>)
    ensures forall k :: 0 <= k < |segs| ==> segs[k] != [] && '/' !in segs[k]
  {
    SplitPartsAvoidSeparator(path, '/');
    NonEmpty(Split(path, '/'))
  }

  /** The path of the first segments, each preceded by `/`. */
  function PathOf(segs: seq<string>): string
    decreases |segs|
  {
    if segs == [] then [] else "/" + segs[0] + PathOf(segs[1..])
  }

  /** The first character upper-cased and every later `-` turned into a space. */
  function CrumbName(segment: string): (name: string)
    requires segment != []
    ensures |name| == |segment|
    ensures name[0] == UpperChar(segment[0])
    ensures forall k :: 1 <= k < |segment| ==> name[k] == (if segment[k] == '-' then ' ' else segment[k])
  {
    [UpperChar(segment[0])] + seq(|segment| - 1, k requires 0 <= k < |segment| - 1 =>
                                    if segment[k + 1] == '-' then ' ' else segment[k + 1])
  }

  lemma {:induction false} PathOfSnoc(segs: seq<string>, s: string)
    ensures PathOf(segs + [s]) == PathOf(segs) + "/" + s
    decreases |segs|
  {
    if segs == [] {
      assert PathOf([s]) == "/" + s + PathOf([]);
    } else {
      assert (segs + [s])[1..] == segs[1..] + [s];
      PathOfSnoc(segs[1..], s);
    }
  }

  /** The trail: Home, then one crumb per non-empty segment, whose url is the path up to and including it. */
  method GenerateBreadcrumbs(path: string) returns (crumbs: seq<Crumb>)
    ensures |crumbs| == 1 + |Segments(path)|
    ensures crumbs[0] == Home
    ensures forall i :: 1 <= i < |crumbs| ==>
      crumbs[i] == Crumb(CrumbName(Segments(path)[i - 1]), PathOf(Segments(path)[..i]))
  {
    var segments := Segments(path);
    crumbs := [Home];
    var currentPath := "";
    for index := 0 to |segments|
      invariant |crumbs| == 1 + index
      invariant crumbs[0] == Home
      invariant currentPath == PathOf(segments[..index])
      invariant forall i :: 1 <= i <= index ==> crumbs[i] == Crumb(CrumbName(segments[i - 1]), PathOf(segments[..i]))
    {
      var segment := segments[index];
      assert segments[..index + 1] == segments[..index] + [segment];
      PathOfSnoc(segments[..index], segment);
      currentPath := currentPath + "/" + segment;
      var name := CrumbName(segment);
      crumbs := crumbs + [Crumb(name, currentPath)];
    }
  }

  /** Each crumb's url is a proper prefix of the next one's. */
  lemma CrumbUrlsGrow(segs: seq<string>, i: nat)
    requires i < |segs| && segs[i] != []
    ensures StartsWith(PathOf(segs[..i + 1]), PathOf(segs[..i]))
    ensures |PathOf(segs[..i + 1])| > |PathOf(segs[..i])|
  {
    assert segs[..i + 1] == segs[..i] + [segs[i]];
    PathOfSnoc(segs[..i], segs[i]);
  }

  lemma {:induction false} PathOfIsJoin(segs: seq<string>)
    requires |segs| >= 1
    ensures PathOf(segs) == "/" + Join(segs, "/")
    decreases |segs|
  {
    if |segs| > 1 {
      PathOfIsJoin(segs[1..]);
    }
  }

  lemma {:induction false} NonEmptyKeeps(parts: seq<string>)
    requires forall k :: 0 <= k < |parts| ==> parts[k] != []
    ensures NonEmpty(parts) == parts
    decreases |parts|
  {
    if parts != [] {
      NonEmptyKeeps(parts[1..]);
      assert parts == [parts[0]] + parts[1..];
    }
  }

  /** For a canonical path `/a/b/c` the segments come back unchanged and the last crumb links to the path itself. */
  lemma CanonicalPathSegments(segs: seq<string>)
    requires |segs| >= 1
    requires forall k :: 0 <= k < |segs| ==> segs[k] != [] && '/' !in segs[k]
    ensures Segments("/" + Join(segs, "/")) == segs
    ensures PathOf(Segments("/" + Join(segs, "/"))) == "/" + Join(segs, "/")
  {
    var j := Join(segs, "/");
    assert "/" + j == [] + ['/'] + j;
    SplitAtSeparator([], j, '/');
    SplitJoin(segs, '/');
    assert Split("/" + j, '/') == [[]] + segs;
    NonEmptyKeeps(segs);
    assert NonEmpty([[]] + segs) == NonEmpty(segs);
    PathOfIsJoin(segs);
  }

  /** `//` and a trailing `/` add no crumb: the empty pieces are dropped. */
  lemma EmptySegmentsDropped(a: string, b: string)
    ensures Segments(a + "//" + b) == Segments(a + "/" + b)
    ensures Segments(a + "/") == Segments(a)
  {
    assert a + "//" + b == a + ['/'] + ([] + ['/'] + b);
    SplitAtSeparator(a, [] + ['/'] + b, '/');
    SplitAtSeparator([], b, '/');
    assert a + "/" + b == a + ['/'] + b;
    SplitAtSeparator(a, b, '/');
    NonEmptyAppend(Split(a, '/'), [[]] + Split(b, '/'));
    NonEmptyAppend(Split(a, '/'), Split(b, '/'));
    assert NonEmpty([[]] + Split(b, '/')) == NonEmpty(Split(b, '/'));
    assert a + "/" == a + ['/'] + [];
    SplitAtSeparator(a, [], '/');
    NonEmptyAppend(Split(a, '/'), [[]]);
    assert NonEmpty([[]]) == [];
  }

  lemma {:induction false} NonEmptyAppend(p: seq<string>, q: seq<string>)
    ensures NonEmpty(p + q) == NonEmpty(p) + NonEmpty(q)
    decreases |p|
  {
    if p == [] {
      assert p + q == q;
    } else {
      assert (p + q)[1..] == p[1..] + q;
      NonEmptyAppend(p[1..], q);
    }
  }

  /** A leading `-` survives in the name; every later one becomes a space. */
  lemma CrumbNameDashes(segment: string)
    requires segment != []
    ensures segment[0] == '-' ==> CrumbName(segment)[0] == '-'
    ensures forall k :: 1 <= k < |segment| ==> CrumbName(segment)[k] != '-'
  {
  }

  // ------------------------------------------------------------------ sitemap

  /** A sitemap priority: its numeric value and the text JavaScript prints for it. */
  datatype Priority = Priority(value: real, text: string)

  datatype Page = Page(url: string, lastmod: Option<string>, changefreq: Option<string>, priority: Option<Priority>)

  const XmlDeclaration := "<?xml version=\"1.0\" encoding=\"UTF-8\"?>"
  const SitemapNamespace := "http://www.sitemaps.org/schemas/sitemap/0.9"
  const UrlsetOpen := "<urlset xmlns=\"" + SitemapNamespace + "\">"
  const UrlsetClose := "</urlset>"

  /** An optional element: present iff the value is truthy (a non-empty string). */
  function Element(tag: string, v: Option<string>): string {
    if v.Some? && v.value != [] then "<" + tag + ">" + v.value + "</" + tag + ">" else ""
  }

  /** The priority element: present iff the number is truthy (non-zero). */
  function PriorityElement(p: Option<Priority>): string {
    if p.Some? && p.value.value != 0.0 then "<priority>" + p.value.text + "</priority>" else ""
  }

  /** The six lines of one `<url>` block. */
  function BlockLines(page: Page): (b: seq<string>)
    ensures |b| == 6
  {
    ["  <url>",
     "    <loc>" + SiteUrl + page.url + "</loc>",
     "    " + Element("lastmod", page.lastmod),
     "    " + Element("changefreq", page.changefreq),
     "    " + PriorityElement(page.priority),
     "  </url>"]
  }

  /** One `<url>` block: the template's six lines separated by its line breaks. */
  function UrlBlock(page: Page): string {
    Join(BlockLines(page), "\n")
  }

  function GenerateSitemap(pages: seq<Page>): string {
    var blocks := seq(|pages|, i requires 0 <= i < |pages| => UrlBlock(pages[i]));
    XmlDeclaration + "\n" + UrlsetOpen + "\n" + Join(blocks, "\n") + "\n" + UrlsetClose
  }

  /** The blocks of the pages, in order. */
  function Blocks(pages: seq<Page>): (bs: seq<seq<string>>)
    ensures |bs| == |pages| && forall i :: 0 <= i < |pages| ==> bs[i] == BlockLines(pages[i])
  {
    seq(|pages|, i requires 0 <= i < |pages| => BlockLines(pages[i]))
  }

  /** The lines of a list of blocks, one block after another. */
  function Concat(bs: seq<seq<string>>): seq<string>
    decreases |bs|
  {
    if bs == [] then [] else bs[0] + Concat(bs[1..])
  }

  predicate SixLines(bs: seq<seq<string>>) {
    forall i :: 0 <= i < |bs| ==> |bs[i]| == 6
  }

  lemma {:induction false} ConcatLength(bs: seq<seq<string>>)
    requires SixLines(bs)
    ensures |Concat(bs)| == 6 * |bs|
    decreases |bs|
  {
    if bs != [] {
      ConcatLength(bs[1..]);
    }
  }

  /** The lines of all blocks, one page after another. */
  function PageLines(pages: seq<Page>): (lines: seq<string>)
    ensures |lines| == 6 * |pages|
  {
    ConcatLength(Blocks(pages));
    Concat(Blocks(pages))
  }

  predicate NoNewline(s: string) { '\n' !in s }

  /** No page field holds a line break. */
  predicate SingleLineFields(pages: seq<Page>) {
    forall i :: 0 <= i < |pages| ==>
      && NoNewline(pages[i].url)
      && (pages[i].lastmod.Some? ==> NoNewline(pages[i].lastmod.value))
      && (pages[i].changefreq.Some? ==> NoNewline(pages[i].changefreq.value))
      && (pages[i].priority.Some? ==> NoNewline(pages[i].priority.value.text))
  }

  lemma {:induction false} JoinAppend(a: seq<string>, b: seq<string>, sep: string)
    requires |a| >= 1 && |b| >= 1
    ensures Join(a + b, sep) == Join(a, sep) + sep + Join(b, sep)
    decreases |a|
  {
    if |a| == 1 {
      assert (a + b)[1..] == b;
    } else {
      assert (a + b)[1..] == a[1..] + b;
      JoinAppend(a[1..], b, sep);
    }
  }

  /** Joining the joined blocks is joining all their lines. */
  lemma {:induction false} ConcatJoin(bs: seq<seq<string>>, sep: string)
    requires |bs| >= 1 && SixLines(bs)
    ensures Join(seq(|bs|, i requires 0 <= i < |bs| => Join(bs[i], sep)), sep) == Join(Concat(bs), sep)
    decreases |bs|
  {
    var js := seq(|bs|, i requires 0 <= i < |bs| => Join(bs[i], sep));
    if |bs| > 1 {
      var rest := bs[1..];
      ConcatJoin(rest, sep);
      assert js[1..] == seq(|rest|, i requires 0 <= i < |rest| => Join(rest[i], sep));
      ConcatLength(rest);
      JoinAppend(bs[0], Concat(rest), sep);
    } else {
      assert js == [Join(bs[0], sep)];
      assert Concat(bs) == bs[0] + [];
      assert bs[0] + [] == bs[0];
    }
  }

  lemma BlocksJoin(pages: seq<Page>)
    requires |pages| >= 1
    ensures Join(seq(|pages|, i requires 0 <= i < |pages| => UrlBlock(pages[i])), "\n") == Join(PageLines(pages), "\n")
  {
    var bs := Blocks(pages);
    assert seq(|pages|, i requires 0 <= i < |pages| => UrlBlock(pages[i]))
        == seq(|bs|, i requires 0 <= i < |bs| => Join(bs[i], "\n"));
    ConcatJoin(bs, "\n");
  }

  lemma {:induction false} ConcatNoNewline(bs: seq<seq<string>>)
    requires forall i, k :: 0 <= i < |bs| && 0 <= k < |bs[i]| ==> NoNewline(bs[i][k])
    ensures forall k :: 0 <= k < |Concat(bs)| ==> NoNewline(Concat(bs)[k])
    decreases |bs|
  {
    if bs != [] {
      ConcatNoNewline(bs[1..]);
      assert Concat(bs) == bs[0] + Concat(bs[1..]);
    }
  }

  lemma BlockNoNewline(p: Page)
    requires NoNewline(p.url)
    requires p.lastmod.Some? ==> NoNewline(p.lastmod.value)
    requires p.changefreq.Some? ==> NoNewline(p.changefreq.value)
    requires p.priority.Some? ==> NoNewline(p.priority.value.text)
    ensures forall k :: 0 <= k < 6 ==> NoNewline(BlockLines(p)[k])
  {
    var l := BlockLines(p);
    assert forall k :: 0 <= k < 6 ==> NoNewline(l[k]);
  }

  lemma PageLinesAvoidNewline(pages: seq<Page>)
    requires SingleLineFields(pages)
    ensures forall k :: 0 <= k < |PageLines(pages)| ==> NoNewline(PageLines(pages)[k])
  {
    var bs := Blocks(pages);
    forall i, k | 0 <= i < |bs| && 0 <= k < |bs[i]| ensures NoNewline(bs[i][k]) {
      BlockNoNewline(pages[i]);
    }
    ConcatNoNewline(bs);
  }

  lemma {:induction false} ConcatAt(bs: seq<seq<string>>, k: nat, j: nat)
    requires SixLines(bs) && k < |bs| && j < 6
    ensures |Concat(bs)| == 6 * |bs| && Concat(bs)[6 * k + j] == bs[k][j]
    decreases k
  {
    ConcatLength(bs);
    if k > 0 {
      var rest := bs[1..];
      ConcatAt(rest, k - 1, j);
      AppendIndex(bs[0], Concat(rest), 6 * k + j);
    }
  }

  /** Line `j` of the block of page `k`. */
  lemma PageLinesAt(pages: seq<Page>, k: nat, j: nat)
    requires k < |pages| && j < 6
    ensures PageLines(pages)[6 * k + j] == BlockLines(pages[k])[j]
  {
    ConcatAt(Blocks(pages), k, j);
  }

  lemma AppendIndex(a: seq<string>, b: seq<string>, i: nat)
    requires |a| <= i < |a| + |b|
    ensures (a + b)[i] == b[i - |a|]
  {
  }

  /** The six lines of a block: the `<loc>` line, and each optional line blank unless its value is truthy. */
  lemma BlockShape(page: Page)
    ensures var b := BlockLines(page);
      && b[0] == "  <url>"
      && b[1] == "    <loc>" + SiteUrl + page.url + "</loc>"
      && (b[2] != "    " <==> page.lastmod.Some? && page.lastmod.value != [])
      && (b[3] != "    " <==> page.changefreq.Some? && page.changefreq.value != [])
      && (b[4] != "    " <==> page.priority.Some? && page.priority.value.value != 0.0)
      && b[5] == "  </url>"
  {
    var b := BlockLines(page);
    assert |b[2]| == 4 + |Element("lastmod", page.lastmod)|;
    assert |b[3]| == 4 + |Element("changefreq", page.changefreq)|;
    assert |b[4]| == 4 + |PriorityElement(page.priority)|;
  }

  /** Line `2 + 6k + j` of the framed sitemap is line `j` of the block of page `k`. */
  lemma FramedAt(pages: seq<Page>, k: nat, j: nat)
    requires k < |pages| && j < 6
    ensures ([XmlDeclaration, UrlsetOpen] + PageLines(pages) + [UrlsetClose])[2 + 6 * k + j] == BlockLines(pages[k])[j]
  {
    PageLinesAt(pages, k, j);
  }

  /**
   * Joining `[h1, h2] + body + [c]` with `sep` gives `h1`, `h2`, the body's own
   * join and `c`, separated by `sep`.
   */
  lemma Enclose(h1: string, h2: string, body: seq<string>, c: string, sep: string)
    requires |body| >= 1
    ensures Join([h1, h2] + body + [c], sep) == h1 + sep + h2 + sep + Join(body, sep) + sep + c
  {
    JoinAppend([h1, h2] + body, [c], sep);
    JoinAppend([h1, h2], body, sep);
    assert Join([h1, h2], sep) == h1 + sep + h2 by {
      assert [h1, h2][1..] == [h2];
    }
  }

  lemma SitemapIsJoin(pages: seq<Page>)
    requires |pages| >= 1
    ensures GenerateSitemap(pages) == Join([XmlDeclaration, UrlsetOpen] + PageLines(pages) + [UrlsetClose], "\n")
  {
    BlocksJoin(pages);
    Enclose(XmlDeclaration, UrlsetOpen, PageLines(pages), UrlsetClose, "\n");
  }

  /**
   * Read back line by line, the sitemap is the XML declaration, the `<urlset>`
   * opening, exactly one six-line `<url>` block per page in input order, and the closing tag.
   */
  lemma SitemapLines(pages: seq<Page>)
    requires |pages| >= 1 && SingleLineFields(pages)
    ensures Split(GenerateSitemap(pages), '\n') == [XmlDeclaration, UrlsetOpen] + PageLines(pages) + [UrlsetClose]
  {
    SitemapIsJoin(pages);
    PageLinesAvoidNewline(pages);
    FramingSingleLine();
    SplitFramed(XmlDeclaration, UrlsetOpen, PageLines(pages), UrlsetClose);
  }

  lemma SplitFramed(h1: string, h2: string, body: seq<string>, c: string)
    requires NoNewline(h1) && NoNewline(h2) && NoNewline(c)
    requires forall k :: 0 <= k < |body| ==> NoNewline(body[k])
    ensures Split(Join([h1, h2] + body + [c], "\n"), '\n') == [h1, h2] + body + [c]
  {
    var lines := [h1, h2] + body + [c];
    forall k | 0 <= k < |lines| ensures '\n' !in lines[k] {
      if 2 <= k < 2 + |body| {
        assert lines[k] == body[k - 2];
      }
    }
    SplitJoin(lines, '\n');
  }

  lemma NamespaceSingleLine()
    ensures NoNewline(SitemapNamespace)
  {
  }

  lemma FramingSingleLine()
    ensures NoNewline(XmlDeclaration) && NoNewline(UrlsetOpen) && NoNewline(UrlsetClose)
  {
    NamespaceSingleLine();
  }

  /** The fixed lines of the entry of page k among the framed lines. */
  lemma FramedMarkers(pages: seq<Page>, k: nat)
    requires k < |pages|
    ensures var lines := [XmlDeclaration, UrlsetOpen] + PageLines(pages) + [UrlsetClose];
      && |lines| == 3 + 6 * |pages|
      && lines[2 + 6 * k] == "  <url>"
      && lines[3 + 6 * k] == "    <loc>" + SiteUrl + pages[k].url + "</loc>"
      && lines[7 + 6 * k] == "  </url>"
  {
    BlockShape(pages[k]);
    FramedAt(pages, k, 0);
    FramedAt(pages, k, 1);
    FramedAt(pages, k, 5);
  }

  /** The optional lines of the entry of page k among the framed lines. */
  lemma FramedOptional(pages: seq<Page>, k: nat)
    requires k < |pages|
    ensures var lines := [XmlDeclaration, UrlsetOpen] + PageLines(pages) + [UrlsetClose];
      && (lines[4 + 6 * k] != "    " <==> pages[k].lastmod.Some? && pages[k].lastmod.value != [])
      && (lines[5 + 6 * k] != "    " <==> pages[k].changefreq.Some? && pages[k].changefreq.value != [])
      && (lines[6 + 6 * k] != "    " <==> pages[k].priority.Some? && pages[k].priority.value.value != 0.0)
  {
    BlockShape(pages[k]);
    FramedAt(pages, k, 2);
    FramedAt(pages, k, 3);
    FramedAt(pages, k, 4);
  }

  /** The `<loc>` of page k is the site url followed by the page url verbatim, and each optional element is there iff its value is truthy. */
  lemma SitemapEntry(pages: seq<Page>, k: nat)
    requires k < |pages| && SingleLineFields(pages)
    ensures var lines := Split(GenerateSitemap(pages), '\n');
      && |lines| == 3 + 6 * |pages|
      && lines[2 + 6 * k] == "  <url>"
      && lines[3 + 6 * k] == "    <loc>" + SiteUrl + pages[k].url + "</loc>"
      && (lines[4 + 6 * k] != "    " <==> pages[k].lastmod.Some? && pages[k].lastmod.value != [])
      && (lines[5 + 6 * k] != "    " <==> pages[k].changefreq.Some? && pages[k].changefreq.value != [])
      && (lines[6 + 6 * k] != "    " <==> pages[k].priority.Some? && pages[k].priority.value.value != 0.0)
      && lines[7 + 6 * k] == "  </url>"
  {
    SitemapLines(pages);
    FramedMarkers(pages, k);
    FramedOptional(pages, k);
  }

  /** With no pages the url list is empty text, which leaves one blank line inside `<urlset>`. */
  lemma EmptySitemap()
    ensures GenerateSitemap([]) == XmlDeclaration + "\n" + UrlsetOpen + "\n\n" + UrlsetClose
  {
  }
}
