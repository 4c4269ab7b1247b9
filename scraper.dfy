/** The article extraction pipeline of `src/lib.rs`: a `Scraper` describes a
    news site by selectors, and `GetArticles` turns the site's listing page into
    an ordered list of `Article`s, failing as a whole if any step fails.

    The network, the HTML query engine and the URL parser are not modelled:
    they are the capabilities of an `Env`, given as total functions about which
    nothing is assumed. */
module Scraper {
  import opened Wrappers
  import opened Text

  /** A node of a parsed HTML document (an element of a `nipper` selection). */
  type Node(==)

  /** A timestamp attached to a named time zone (`DateTime<Tz>`). */
  type Date(==)

  /** A parsed URL, represented by its serialisation (`Url::as_str`). */
  type Url = string

  /** A CSS selector. */
  type Selector = string

  /** The errors the pipeline can report (`anyhow::Error`). The pipeline itself
      only builds `Context`; the other variants merely label what the
      capabilities may return, and nothing here constrains which they do. */
  datatype Error =
    | Transport(detail: string)    // connection failure or non-success status
    | InvalidUrl(detail: string)   // `Url::join` or `Url::parse` refused its input
    | DateParse(detail: string)    // a source's date parser gave up
    | Context(message: string)     // `.context(..)` on a missing attribute

  const MissingHref := "Require article link to have href"
  const MissingSrc := "Expect image to have src"

  /** What the pipeline is given from outside. A `Selection` is a sequence of
      nodes in document order; iterating over it yields one-node selections. */
  datatype Env = Env(
    fetch: Url -> Result<string, Error>,          // GET, `error_for_status`, body text
    parseUrl: string -> Result<Url, Error>,       // `Url::parse`, also `str::parse::<Url>`
    join: (Url, string) -> Result<Url, Error>,    // `Url::join`
    parseHtml: string -> Node,                    // `Document::from`: the document root
    select: (seq<Node>, Selector) -> seq<Node>,   // `Selection::select`
    text: seq<Node> -> string,                    // `Selection::text`
    attr: (seq<Node>, string) -> Option<string>,  // `Selection::attr`
    html: seq<Node> -> string                     // `Selection::html`
  )

  datatype Article = Article(
    headline: string,
    link: Url,
    body: string,
    image: Option<Url>,
    date: Date
  )

  datatype Scraper = Scraper(
    name: string,
    baseUrl: string,
    newsUrl: string,
    articleSelector: Selector,
    headlineSelector: Selector,
    imageSelector: Option<Selector>,
    dateSelector: Selector,
    parseDate: string -> Result<Date, Error>,
    linkSelector: Selector,
    bodySelector: Selector
  )

  /** `Scraper::url` panics (`expect`) unless the base URL parses; every
      configured scraper is written so that it does. */
  predicate BaseParses(s: Scraper, env: Env) {
    env.parseUrl(s.baseUrl).Ok?
  }

  /** `Scraper::url`: resolve `path` against the scraper's base URL. */
  function ResolveUrl(s: Scraper, env: Env, path: string): Result<Url, Error>
    requires BaseParses(s, env)
  {
    env.join(env.parseUrl(s.baseUrl).value, path)
  }

  /** The document parsed from a page, as the one-node selection of its root. */
  function PageDoc(env: Env, page: string): seq<Node> {
    [env.parseHtml(page)]
  }

  /** The `href` of an entry's link selection. */
  function LinkHref(s: Scraper, env: Env, entry: Node): Option<string> {
    env.attr(env.select([entry], s.linkSelector), "href")
  }

  /** The article's own URL: its `href` resolved against the base URL, or the
      missing-link error when the link selection has no `href`. */
  function ArticleLink(s: Scraper, env: Env, entry: Node): (r: Result<Url, Error>)
    requires BaseParses(s, env)
    ensures LinkHref(s, env, entry).None? ==> r == Err(Context(MissingHref))
    ensures LinkHref(s, env, entry).Some? ==>
              r == env.join(env.parseUrl(s.baseUrl).value, LinkHref(s, env, entry).value)
  {
    var href :- LinkHref(s, env, entry).OkOr(Context(MissingHref));
    ResolveUrl(s, env, href)
  }

  /** The optional image of an article page: `None` when the scraper has no
      image selector, otherwise the parsed `src` of the selection, which must
      be present and must parse. */
  function ImageOf(s: Scraper, env: Env, doc: seq<Node>): (r: Result<Option<Url>, Error>)
    ensures r.Ok? ==> (r.value.None? <==> s.imageSelector.None?)
    ensures s.imageSelector.None? ==> r == Ok(None)
    ensures s.imageSelector.Some? ==>
              match env.attr(env.select(doc, s.imageSelector.value), "src")
              case None => r == Err(Context(MissingSrc))
              case Some(src) =>
                (env.parseUrl(src).Ok? ==> r == Ok(Some(env.parseUrl(src).value)))
                && (env.parseUrl(src).Err? ==> r == Err(env.parseUrl(src).error))
  {
    match s.imageSelector
    case None => Ok(None)
    case Some(sel) =>
      var src :- env.attr(env.select(doc, sel), "src").OkOr(Context(MissingSrc));
      var url :- env.parseUrl(src);
      Ok(Some(url))
  }

  /** The rules an article read from page `doc` follows: the body is the
      body selection's markup as it is, the image is `ImageOf` the page, and
      the date is the scraper's date parser applied to the date selection's
      text. */
  predicate PageRules(s: Scraper, env: Env, doc: seq<Node>, a: Article) {
    && a.body == env.html(env.select(doc, s.bodySelector))
    && ImageOf(s, env, doc) == Ok(a.image)
    && s.parseDate(env.text(env.select(doc, s.dateSelector))) == Ok(a.date)
  }

  /** `Scraper::get_article`: read the headline and the link from a listing
      entry, fetch the linked page and read body, image and date from it.
      Each failing step ends the article with that step's error. */
  function GetArticle(s: Scraper, env: Env, entry: Node): (r: Result<Article, Error>)
    requires BaseParses(s, env)
    // what a successful article holds
    ensures r.Ok? ==>
              && r.value.headline == Trim(env.text(env.select([entry], s.headlineSelector)))
              && ArticleLink(s, env, entry) == Ok(r.value.link)
              && env.fetch(r.value.link).Ok?
              && PageRules(s, env, PageDoc(env, env.fetch(r.value.link).value), r.value)
    ensures r.Ok? ==> (r.value.image.None? <==> s.imageSelector.None?)
    // where it fails, and with which error
    ensures ArticleLink(s, env, entry).Err? ==> r == Err(ArticleLink(s, env, entry).error)
    ensures ArticleLink(s, env, entry).Ok? ==>
              var link := ArticleLink(s, env, entry).value;
              (env.fetch(link).Err? ==> r == Err(env.fetch(link).error))
              && (env.fetch(link).Ok? ==>
                    var doc := PageDoc(env, env.fetch(link).value);
                    var date := s.parseDate(env.text(env.select(doc, s.dateSelector)));
                    (ImageOf(s, env, doc).Err? ==> r == Err(ImageOf(s, env, doc).error))
                    && (ImageOf(s, env, doc).Ok? && date.Err? ==> r == Err(date.error))
                    && (ImageOf(s, env, doc).Ok? && date.Ok? ==> r.Ok?))
  {
    var headline := Trim(env.text(env.select([entry], s.headlineSelector)));
    var link :- ArticleLink(s, env, entry);
    var page :- env.fetch(link);
    var doc := PageDoc(env, page);
    var body := env.html(env.select(doc, s.bodySelector));
    var image :- ImageOf(s, env, doc);
    var date :- s.parseDate(env.text(env.select(doc, s.dateSelector)));
    Ok(Article(headline, link, body, image, date))
  }

  /** `futures::future::try_join_all`, as far as its outcome goes: every
      element is mapped, the results keep the order of the inputs, and the
      first failure (by position) is the outcome of the whole. */
  function TryJoinAll<A, B, E>(xs: seq<A>, f: A --> Result<B, E>): (r: Result<seq<B>, E>)
    requires forall i :: 0 <= i < |xs| ==> f.requires(xs[i])
    ensures r.Ok? <==> forall i :: 0 <= i < |xs| ==> f(xs[i]).Ok?
    ensures r.Ok? ==> |r.value| == |xs| && forall i :: 0 <= i < |xs| ==> f(xs[i]) == Ok(r.value[i])
    ensures r.Err? ==> exists i :: 0 <= i < |xs| && f(xs[i]) == Err(r.error)
                                   && forall j :: 0 <= j < i ==> f(xs[j]).Ok?
  {
    if xs == [] then Ok([])
    else
      var head :- f(xs[0]);
      var tail :- TryJoinAll(xs[1..], f);
      Ok([head] + tail)
  }

  /** The listing entries of a fetched listing page, in document order. */
  function ListingEntries(s: Scraper, env: Env, page: string): seq<Node> {
    env.select(PageDoc(env, page), s.articleSelector)
  }

  /** `Scraper::get_articles`: fetch the listing page and extract one article
      per listing entry. */
  function GetArticles(s: Scraper, env: Env): (r: Result<seq<Article>, Error>)
    requires BaseParses(s, env)
    // no listing page, no articles
    ensures ResolveUrl(s, env, s.newsUrl).Err? ==> r == Err(ResolveUrl(s, env, s.newsUrl).error)
    ensures ResolveUrl(s, env, s.newsUrl).Ok? && env.fetch(ResolveUrl(s, env, s.newsUrl).value).Err? ==>
              r == Err(env.fetch(ResolveUrl(s, env, s.newsUrl).value).error)
    // one article per entry, in listing order, or the first entry's error
    ensures ResolveUrl(s, env, s.newsUrl).Ok? && env.fetch(ResolveUrl(s, env, s.newsUrl).value).Ok? ==>
              var entries := ListingEntries(s, env, env.fetch(ResolveUrl(s, env, s.newsUrl).value).value);
              && (r.Ok? <==> forall i :: 0 <= i < |entries| ==> GetArticle(s, env, entries[i]).Ok?)
              && (r.Ok? ==> |r.value| == |entries|
                            && forall i :: 0 <= i < |entries| ==> GetArticle(s, env, entries[i]) == Ok(r.value[i]))
              && (r.Err? ==> exists i :: 0 <= i < |entries| && GetArticle(s, env, entries[i]) == Err(r.error))
  {
    var listing :- ResolveUrl(s, env, s.newsUrl);
    var page :- env.fetch(listing);
    TryJoinAll(ListingEntries(s, env, page), entry => GetArticle(s, env, entry))
  }

  /** A successful extraction yields the articles of the listing entries in
      order, each linked to its entry's `href` resolved against the base URL
      and carrying its entry's trimmed headline. */
  lemma ArticlesFollowListing(s: Scraper, env: Env, i: nat)
    requires BaseParses(s, env)
    requires GetArticles(s, env).Ok? && i < |GetArticles(s, env).value|
    ensures var listing := env.fetch(ResolveUrl(s, env, s.newsUrl).value);
            listing.Ok?
            && var entries := ListingEntries(s, env, listing.value);
            && |entries| == |GetArticles(s, env).value|
            && var a := GetArticles(s, env).value[i];
            && LinkHref(s, env, entries[i]).Some?
            && env.join(env.parseUrl(s.baseUrl).value, LinkHref(s, env, entries[i]).value) == Ok(a.link)
            && a.headline == Trim(env.text(env.select([entries[i]], s.headlineSelector)))
  {
    var listing := env.fetch(ResolveUrl(s, env, s.newsUrl).value);
    var entries := ListingEntries(s, env, listing.value);
    assert GetArticle(s, env, entries[i]) == Ok(GetArticles(s, env).value[i]);
  }

  /** The one scraper the program configures. Its date parser is a parameter:
      its internals (chrono formats, the Europe/Dublin zone and a wall-clock
      fallback) are not part of this model. */
  function Rte(parseDate: string -> Result<Date, Error>): Scraper {
    Scraper(
      name := "RTE",
      baseUrl := "https://www.rte.ie/",
      newsUrl := "/news/",
      articleSelector := ":not(.av-box) ~ .article-meta",
      headlineSelector := "span.underline",
      linkSelector := "a",
      bodySelector := "section.article-body",
      imageSelector := None,
      dateSelector := "span.modified-date",
      parseDate := parseDate
    )
  }

  /** The RTE scraper has no image selector, so none of its articles has an
      image, whatever the site serves. */
  lemma RteHasNoImages(parseDate: string -> Result<Date, Error>, env: Env, entry: Node)
    requires BaseParses(Rte(parseDate), env) && GetArticle(Rte(parseDate), env, entry).Ok?
    ensures GetArticle(Rte(parseDate), env, entry).value.image.None?
  {
  }
}
