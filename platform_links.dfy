/**
 * The platform link table: for each of the seven platforms, the URL that a
 * search for a query opens. WhatsApp and Telegram open their app on a
 * mobile device and their web page elsewhere; the other five always open
 * their web search.
 */
module PlatformLinks {
  import opened Wrappers
  import opened Sequences
  import opened UriComponent

  datatype Platform = WhatsApp | Instagram | Facebook | Twitter | Telegram | YouTube | Spotify

  /** The platforms in the key order of the table, the order in which a search on all of them opens them. */
  const Platforms: seq<Platform> := [WhatsApp, Instagram, Facebook, Twitter, Telegram, YouTube, Spotify]

  /** The platforms whose link depends on the device. */
  predicate HasAppLink(p: Platform) {
    p == WhatsApp || p == Telegram
  }

  /** A web template: the `https` scheme, the host, then the path up to the search text. */
  function Web(host: string, path: string): string {
    "https://" + host + path
  }

  /** The fixed text before the encoded query in the link of `p`. */
  function Template(p: Platform, isMobile: bool): string {
    match p
    case WhatsApp => if isMobile then "whatsapp://send?text=" else Web("wa.me", "/?text=")
    case Instagram => Web("www.instagram.com", "/explore/tags/")
    case Facebook => Web("www.facebook.com", "/search/top?q=")
    case Twitter => Web("twitter.com", "/search?q=")
    case Telegram => if isMobile then "tg://msg?text=" else Web("t.me", "/s/")
    case YouTube => Web("www.youtube.com", "/results?search_query=")
    case Spotify => Web("open.spotify.com", "/search/")
  }

  /** The URL a search for `q` on `p` opens. */
  function Link(p: Platform, q: string, isMobile: bool): string {
    Template(p, isMobile) + Encode(q)
  }

  /** The URLs a search for `q` on all platforms opens: one per platform, in table order. */
  function AllLinks(q: string, isMobile: bool): (urls: seq<string>)
    ensures |urls| == |Platforms|
    ensures forall i :: 0 <= i < |Platforms| ==> urls[i] == Link(Platforms[i], q, isMobile)
    ensures forall p :: Link(p, q, isMobile) in urls
  {
    var urls := seq(|Platforms|, i requires 0 <= i < |Platforms| => Link(Platforms[i], q, isMobile));
    assert forall p :: urls[PlatformIndex(p)] == Link(p, q, isMobile);
    urls
  }

  /** Where `p` stands in `Platforms`. */
  function PlatformIndex(p: Platform): (i: nat)
    ensures i < |Platforms| && Platforms[i] == p
  {
    match p
    case WhatsApp => 0
    case Instagram => 1
    case Facebook => 2
    case Twitter => 3
    case Telegram => 4
    case YouTube => 5
    case Spotify => 6
  }

  // Reading a link back.

  /** What a link says: the platform, whether it is an app link, and the query. */
  datatype Target = Target(platform: Platform, appLink: bool, query: string)

  /** The platform, link form and decoded query of `url`, if it is a link of the table. */
  function ParseLink(url: string): Option<Target> {
    if Template(WhatsApp, true) <= url then ReadQuery(WhatsApp, true, url)
    else if Template(WhatsApp, false) <= url then ReadQuery(WhatsApp, false, url)
    else if Template(Instagram, false) <= url then ReadQuery(Instagram, false, url)
    else if Template(Facebook, false) <= url then ReadQuery(Facebook, false, url)
    else if Template(Twitter, false) <= url then ReadQuery(Twitter, false, url)
    else if Template(Telegram, true) <= url then ReadQuery(Telegram, true, url)
    else if Template(Telegram, false) <= url then ReadQuery(Telegram, false, url)
    else if Template(YouTube, false) <= url then ReadQuery(YouTube, false, url)
    else if Template(Spotify, false) <= url then ReadQuery(Spotify, false, url)
    else None
  }

  /** `url` read as a link of `p` in the form `appLink`. */
  function ReadQuery(p: Platform, appLink: bool, url: string): Option<Target>
    requires Template(p, appLink) <= url
  {
    match Decode(url[|Template(p, appLink)|..])
    case Some(q) => Some(Target(p, appLink, q))
    case None => None
  }

  /** A string that differs from `b` at index `k` is not a prefix of anything that starts with `b`. */
  lemma NotPrefixAt(a: string, b: string, e: string, k: nat)
    requires k < |a| && k < |b| && a[k] != b[k]
    ensures !(a <= b + e)
  {
    assert (b + e)[k] == b[k];
  }

  /** Web templates whose hosts differ at index `k` are not prefixes of each other's links. */
  lemma NotPrefixAtHost(h: string, p: string, h': string, p': string, e: string, k: nat)
    requires k < |h| && k < |h'| && h[k] != h'[k]
    ensures !(Web(h, p) <= Web(h', p') + e)
  {
    assert Web(h, p)[8 + k] == h[k];
    assert Web(h', p')[8 + k] == h'[k];
    NotPrefixAt(Web(h, p), Web(h', p'), e, 8 + k);
  }

  // For each template, `ParseLink` rejects the templates it tries first:
  // each of them differs from it at the index given.

  lemma ParsesAsWhatsApp(e: string, isMobile: bool)
    ensures ParseLink(Template(WhatsApp, isMobile) + e) == ReadQuery(WhatsApp, isMobile, Template(WhatsApp, isMobile) + e)
  {
    if !isMobile {
      NotPrefixAt(Template(WhatsApp, true), Template(WhatsApp, false), e, 0);
    }
  }

  lemma ParsesAsInstagram(e: string)
    ensures ParseLink(Template(Instagram, false) + e) == ReadQuery(Instagram, false, Template(Instagram, false) + e)
  {
    NotPrefixAt(Template(WhatsApp, true), Template(Instagram, false), e, 0);
    NotPrefixAtHost("wa.me", "/?text=", "www.instagram.com", "/explore/tags/", e, 1);
  }

  lemma ParsesAsFacebook(e: string)
    ensures ParseLink(Template(Facebook, false) + e) == ReadQuery(Facebook, false, Template(Facebook, false) + e)
  {
    NotPrefixAt(Template(WhatsApp, true), Template(Facebook, false), e, 0);
    NotPrefixAtHost("wa.me", "/?text=", "www.facebook.com", "/search/top?q=", e, 1);
    NotPrefixAtHost("www.instagram.com", "/explore/tags/", "www.facebook.com", "/search/top?q=", e, 4);
  }

  lemma ParsesAsTwitter(e: string)
    ensures ParseLink(Template(Twitter, false) + e) == ReadQuery(Twitter, false, Template(Twitter, false) + e)
  {
    NotPrefixAt(Template(WhatsApp, true), Template(Twitter, false), e, 0);
    NotPrefixAtHost("wa.me", "/?text=", "twitter.com", "/search?q=", e, 0);
    NotPrefixAtHost("www.instagram.com", "/explore/tags/", "twitter.com", "/search?q=", e, 0);
    NotPrefixAtHost("www.facebook.com", "/search/top?q=", "twitter.com", "/search?q=", e, 0);
  }

  lemma ParsesAsTelegram(e: string, isMobile: bool)
    ensures ParseLink(Template(Telegram, isMobile) + e) == ReadQuery(Telegram, isMobile, Template(Telegram, isMobile) + e)
  {
    if isMobile {
      NotPrefixAt(Template(WhatsApp, true), Template(Telegram, true), e, 0);
      NotPrefixAt(Template(WhatsApp, false), Template(Telegram, true), e, 0);
      NotPrefixAt(Template(Instagram, false), Template(Telegram, true), e, 0);
      NotPrefixAt(Template(Facebook, false), Template(Telegram, true), e, 0);
      NotPrefixAt(Template(Twitter, false), Template(Telegram, true), e, 0);
    } else {
      NotPrefixAt(Template(WhatsApp, true), Template(Telegram, false), e, 0);
      NotPrefixAtHost("wa.me", "/?text=", "t.me", "/s/", e, 0);
      NotPrefixAtHost("www.instagram.com", "/explore/tags/", "t.me", "/s/", e, 0);
      NotPrefixAtHost("www.facebook.com", "/search/top?q=", "t.me", "/s/", e, 0);
      NotPrefixAtHost("twitter.com", "/search?q=", "t.me", "/s/", e, 1);
      NotPrefixAt(Template(Telegram, true), Template(Telegram, false), e, 0);
    }
  }

  lemma ParsesAsYouTube(e: string)
    ensures ParseLink(Template(YouTube, false) + e) == ReadQuery(YouTube, false, Template(YouTube, false) + e)
  {
    NotPrefixAt(Template(WhatsApp, true), Template(YouTube, false), e, 0);
    NotPrefixAtHost("wa.me", "/?text=", "www.youtube.com", "/results?search_query=", e, 1);
    NotPrefixAtHost("www.instagram.com", "/explore/tags/", "www.youtube.com", "/results?search_query=", e, 4);
    NotPrefixAtHost("www.facebook.com", "/search/top?q=", "www.youtube.com", "/results?search_query=", e, 4);
    NotPrefixAtHost("twitter.com", "/search?q=", "www.youtube.com", "/results?search_query=", e, 0);
    NotPrefixAt(Template(Telegram, true), Template(YouTube, false), e, 0);
    NotPrefixAtHost("t.me", "/s/", "www.youtube.com", "/results?search_query=", e, 0);
  }

  lemma ParsesAsSpotify(e: string)
    ensures ParseLink(Template(Spotify, false) + e) == ReadQuery(Spotify, false, Template(Spotify, false) + e)
  {
    NotPrefixAt(Template(WhatsApp, true), Template(Spotify, false), e, 0);
    NotPrefixAtHost("wa.me", "/?text=", "open.spotify.com", "/search/", e, 0);
    NotPrefixAtHost("www.instagram.com", "/explore/tags/", "open.spotify.com", "/search/", e, 0);
    NotPrefixAtHost("www.facebook.com", "/search/top?q=", "open.spotify.com", "/search/", e, 0);
    NotPrefixAtHost("twitter.com", "/search?q=", "open.spotify.com", "/search/", e, 0);
    NotPrefixAt(Template(Telegram, true), Template(Spotify, false), e, 0);
    NotPrefixAtHost("t.me", "/s/", "open.spotify.com", "/search/", e, 0);
    NotPrefixAtHost("www.youtube.com", "/results?search_query=", "open.spotify.com", "/search/", e, 0);
  }

  /** `ParseLink` recognises the template of every link. */
  lemma ParsesAs(p: Platform, isMobile: bool, e: string)
    ensures ParseLink(Template(p, isMobile) + e) ==
      ReadQuery(p, isMobile && HasAppLink(p), Template(p, isMobile) + e)
  {
    match p
    case WhatsApp => ParsesAsWhatsApp(e, isMobile);
    case Instagram => ParsesAsInstagram(e);
    case Facebook => ParsesAsFacebook(e);
    case Twitter => ParsesAsTwitter(e);
    case Telegram => ParsesAsTelegram(e, isMobile);
    case YouTube => ParsesAsYouTube(e);
    case Spotify => ParsesAsSpotify(e);
  }

  /**
   * Every link can be read back: its platform, whether it is an app link
   * (exactly when the device is mobile and the platform has one) and the
   * query searched for.
   */
  lemma LinkRoundTrip(p: Platform, q: string, isMobile: bool)
    ensures ParseLink(Link(p, q, isMobile)) == Some(Target(p, isMobile && HasAppLink(p), q))
  {
    var t, e := Template(p, isMobile), Encode(q);
    ParsesAs(p, isMobile, e);
    assert (t + e)[|t|..] == e;
    DecodeEncode(q);
  }

  /** Different searches never produce the same URL. */
  lemma LinkInjective(p: Platform, q: string, p': Platform, q': string, isMobile: bool, isMobile': bool)
    requires Link(p, q, isMobile) == Link(p', q', isMobile')
    ensures p == p' && q == q'
    ensures isMobile && HasAppLink(p) <==> isMobile' && HasAppLink(p')
  {
    LinkRoundTrip(p, q, isMobile);
    LinkRoundTrip(p', q', isMobile');
  }

  /** The device changes the link exactly for WhatsApp and Telegram. */
  lemma LinkDependsOnDevice(p: Platform, q: string)
    ensures Link(p, q, true) == Link(p, q, false) <==> !HasAppLink(p)
  {
    LinkRoundTrip(p, q, true);
    LinkRoundTrip(p, q, false);
  }

  /** A link is a web URL unless it is the app link of a mobile device. */
  lemma LinkScheme(p: Platform, q: string, isMobile: bool)
    ensures "https://" <= Link(p, q, isMobile) <==> !(isMobile && HasAppLink(p))
  {
    var t := Template(p, isMobile);
    if isMobile && HasAppLink(p) {
      NotPrefixAt("https://", t, Encode(q), 0);
    } else {
      assert t[..8] == "https://";
    }
  }

  /** Each platform appears once in `Platforms`. */
  lemma PlatformsDistinct()
    ensures NoDup(Platforms)
  {
    forall i, j | 0 <= i < j < |Platforms| ensures Platforms[i] != Platforms[j] {
      assert PlatformIndex(Platforms[i]) == i;
    }
  }

  /** A search on all platforms opens seven different URLs. */
  lemma AllLinksDistinct(q: string, isMobile: bool)
    ensures NoDup(AllLinks(q, isMobile))
  {
    var urls := AllLinks(q, isMobile);
    PlatformsDistinct();
    forall i, j | 0 <= i < j < |urls| ensures urls[i] != urls[j] {
      if urls[i] == urls[j] {
        LinkInjective(Platforms[i], q, Platforms[j], q, isMobile, isMobile);
        assert false;
      }
    }
  }

  /** Each URL of a search on all platforms reads back as that platform's search for `q`. */
  lemma AllLinksRoundTrip(q: string, isMobile: bool)
    ensures forall i :: 0 <= i < |Platforms| ==>
      ParseLink(AllLinks(q, isMobile)[i]) == Some(Target(Platforms[i], isMobile && HasAppLink(Platforms[i]), q))
  {
    forall i | 0 <= i < |Platforms|
      ensures ParseLink(AllLinks(q, isMobile)[i]) == Some(Target(Platforms[i], isMobile && HasAppLink(Platforms[i]), q))
    {
      LinkRoundTrip(Platforms[i], q, isMobile);
    }
  }

  /** A query of plain letters is carried unchanged: searching Instagram for "cats" opens its "cats" tag page. */
  lemma InstagramCats(isMobile: bool)
    ensures Link(Instagram, "cats", isMobile) == Web("www.instagram.com", "/explore/tags/") + "cats"
  {
    forall i | 0 <= i < 4 ensures IsUnreserved("cats"[i]) {
    }
  }
}
