/**
 * The SEO metadata helpers (lib/metadata.ts): the site-wide defaults, the
 * object spread that lets an override replace any top-level key, and the
 * per-page metadata built from a title, a description and a path.
 */
module Metadata {
  import opened Wrappers

  const SiteUrl := "https://escalapronta.com.br"
  /** `new URL(SiteUrl)` keeps its `href`, which the URL parser ends with "/". */
  const SiteHref := "https://escalapronta.com.br/"
  const OgImageUrl := "/og-image.png"

  datatype Alternates = Alternates(canonical: string)
  datatype GoogleBot = GoogleBot(index: bool, follow: bool, maxSnippet: int, maxImagePreview: string, maxVideoPreview: int)
  datatype Robots = Robots(index: bool, follow: bool, nocache: bool, googleBot: GoogleBot)
  datatype OgImage = OgImage(url: string, width: int, height: int, alt: string)
  datatype OpenGraph = OpenGraph(
    title: string, description: string, url: string, ogType: string, siteName: string, locale: string,
    images: seq<OgImage>)
  datatype Twitter = Twitter(card: string, title: string, description: string, images: seq<string>)

  /** A metadata object with the top-level keys these helpers use; None is an absent key. */
  datatype Metadata = Metadata(
    metadataBase: Option<string>, title: Option<string>, description: Option<string>,
    alternates: Option<Alternates>, robots: Option<Robots>, openGraph: Option<OpenGraph>, twitter: Option<Twitter>)

  /** The top-level keys, and the value found under one of them. */
  datatype Key = BaseKey | TitleKey | DescriptionKey | AlternatesKey | RobotsKey | OpenGraphKey | TwitterKey

  datatype Value =
    | UrlValue(href: string)
    | TextValue(text: string)
    | AlternatesValue(alternates: Alternates)
    | RobotsValue(robots: Robots)
    | OpenGraphValue(openGraph: OpenGraph)
    | TwitterValue(twitter: Twitter)

  function Get(m: Metadata, k: Key): Option<Value> {
    match k
    case BaseKey => if m.metadataBase.Some? then Some(UrlValue(m.metadataBase.value)) else None
    case TitleKey => if m.title.Some? then Some(TextValue(m.title.value)) else None
    case DescriptionKey => if m.description.Some? then Some(TextValue(m.description.value)) else None
    case AlternatesKey => if m.alternates.Some? then Some(AlternatesValue(m.alternates.value)) else None
    case RobotsKey => if m.robots.Some? then Some(RobotsValue(m.robots.value)) else None
    case OpenGraphKey => if m.openGraph.Some? then Some(OpenGraphValue(m.openGraph.value)) else None
    case TwitterKey => if m.twitter.Some? then Some(TwitterValue(m.twitter.value)) else None
  }

  /** Two metadata objects with the same value under every key are the same object. */
  lemma GetExtensional(a: Metadata, b: Metadata)
    requires forall k :: Get(a, k) == Get(b, k)
    ensures a == b
  {
    assert Get(a, BaseKey) == Get(b, BaseKey);
    assert Get(a, TitleKey) == Get(b, TitleKey);
    assert Get(a, DescriptionKey) == Get(b, DescriptionKey);
    assert Get(a, AlternatesKey) == Get(b, AlternatesKey);
    assert Get(a, RobotsKey) == Get(b, RobotsKey);
    assert Get(a, OpenGraphKey) == Get(b, OpenGraphKey);
    assert Get(a, TwitterKey) == Get(b, TwitterKey);
  }

  /** `{}`, the default override. */
  const Empty := Metadata(None, None, None, None, None, None, None)

  function Pick<T>(over: Option<T>, base: Option<T>): Option<T> {
    if over.Some? then over else base
  }

  /** `{ ...base, ...over }`: every key present in `over` replaces the one in `base` whole; the others stay. */
  function Spread(base: Metadata, over: Metadata): (r: Metadata)
    ensures forall k :: Get(r, k) == if Get(over, k).Some? then Get(over, k) else Get(base, k)
  {
    Metadata(
      Pick(over.metadataBase, base.metadataBase), Pick(over.title, base.title),
      Pick(over.description, base.description), Pick(over.alternates, base.alternates),
      Pick(over.robots, base.robots), Pick(over.openGraph, base.openGraph), Pick(over.twitter, base.twitter))
  }

  /** Spreading nothing changes nothing, and spreading is associative, so nested overrides compose. */
  lemma SpreadLaws(a: Metadata, b: Metadata, c: Metadata)
    ensures Spread(a, Empty) == a && Spread(Empty, a) == a
    ensures Spread(Spread(a, b), c) == Spread(a, Spread(b, c))
    ensures Spread(Spread(a, b), b) == Spread(a, b)
  {
    GetExtensional(Spread(a, Empty), a);
    GetExtensional(Spread(Empty, a), a);
    GetExtensional(Spread(Spread(a, b), c), Spread(a, Spread(b, c)));
    GetExtensional(Spread(Spread(a, b), b), Spread(a, b));
  }

  const DefaultRobots := Robots(true, true, false, GoogleBot(true, true, -1, "large", -1))

  /** The site-wide defaults. */
  const Defaults := Metadata(Some(SiteHref), None, None, Some(Alternates(SiteUrl)), Some(DefaultRobots), None, None)

  /** `generateMetadata(override)`. */
  function GenerateMetadata(override: Metadata): (m: Metadata)
    ensures forall k :: Get(override, k).Some? ==> Get(m, k) == Get(override, k)
    ensures forall k :: Get(override, k).None? ==> Get(m, k) == Get(Defaults, k)
  {
    Spread(Defaults, override)
  }

  /**
   * Without an override the site is indexable and followable, not cached,
   * its base is the site's URL and its canonical address the site itself.
   */
  lemma DefaultsIndexSite()
    ensures var m := GenerateMetadata(Empty);
      && m.metadataBase == Some("https://escalapronta.com.br/")
      && m.alternates == Some(Alternates("https://escalapronta.com.br"))
      && m.robots.Some? && m.robots.value.index && m.robots.value.follow && !m.robots.value.nocache
      && m.robots.value.googleBot.index && m.robots.value.googleBot.follow
      && m.title == None && m.openGraph == None && m.twitter == None
  {
    SpreadLaws(Defaults, Empty, Empty);
  }

  /** The keys a page builds from its title, description and address. */
  function PageKeys(title: string, description: string, url: string): Metadata {
    Metadata(
      None, Some(title), Some(description), Some(Alternates(url)), None,
      Some(OpenGraph(title, description, url, "website", "EscalaPronta", "pt_BR",
        [OgImage(OgImageUrl, 1200, 630, "EscalaPronta")])),
      Some(Twitter("summary_large_image", title, description, [OgImageUrl])))
  }

  /** `generatePageMetadata(title, description, path, override)`. */
  function GeneratePageMetadata(title: string, description: string, path: string, override: Metadata): (m: Metadata)
    ensures forall k :: Get(override, k).Some? ==> Get(m, k) == Get(override, k)
    ensures override.robots.None? ==> m.robots == Some(DefaultRobots)
    ensures override.metadataBase.None? ==> m.metadataBase == Some(SiteHref)
  {
    GenerateMetadata(Spread(PageKeys(title, description, SiteUrl + path), override))
  }

  /**
   * Where the override leaves them alone, the canonical address and the
   * Open Graph address are both the site's URL followed by the path.
   */
  lemma PageAddressesAgree(title: string, description: string, path: string, override: Metadata)
    requires override.alternates.None? && override.openGraph.None?
    ensures var m := GeneratePageMetadata(title, description, path, override);
      && m.alternates == Some(Alternates(SiteUrl + path))
      && m.openGraph.Some? && m.openGraph.value.url == SiteUrl + path
      && m.alternates.value.canonical == m.openGraph.value.url
  {
  }

  /** Where the override leaves them alone, title and description are the same at the top level, in Open Graph and in the Twitter card. */
  lemma PageTextsAgree(title: string, description: string, path: string, override: Metadata)
    requires override.title.None? && override.description.None? && override.openGraph.None? && override.twitter.None?
    ensures var m := GeneratePageMetadata(title, description, path, override);
      && m.title == Some(title) && m.description == Some(description)
      && m.openGraph.Some? && m.openGraph.value.title == title && m.openGraph.value.description == description
      && m.twitter.Some? && m.twitter.value.title == title && m.twitter.value.description == description
  {
  }

  /** The page's preview image is /og-image.png at 1200 by 630, shown as a large Twitter summary card. */
  lemma PageImages(title: string, description: string, path: string)
    ensures var m := GeneratePageMetadata(title, description, path, Empty);
      && m.openGraph.Some? && m.openGraph.value.images == [OgImage("/og-image.png", 1200, 630, "EscalaPronta")]
      && m.twitter.Some? && m.twitter.value.card == "summary_large_image"
      && m.twitter.value.images == ["/og-image.png"]
  {
  }

  /** A page's metadata is the defaults overridden by the page's keys, overridden in turn by the caller's. */
  lemma PageIsLayered(title: string, description: string, path: string, override: Metadata)
    ensures GeneratePageMetadata(title, description, path, override)
      == Spread(Spread(Defaults, PageKeys(title, description, SiteUrl + path)), override)
  {
    SpreadLaws(Defaults, PageKeys(title, description, SiteUrl + path), override);
  }
}
