/** The professional asset manager: resolves an image request
    (category, width, height) to a URL through a time-boxed cache and a chain
    of image providers.

    Everything the manager does over the network, on the disk or with the
    clock is an input here. A `World` carries, for one request, the clock
    reading, the reply the search API would give, the reply to the HEAD
    check, whether the cache file can be written, and whether computing the
    cache key raises. The md5 digest and Python's `hash` are the
    uninterpreted functions of a `Config`. */
module Assets {
  import opened Wrappers
  import opened Decimal
  import opened PyText

  /** `timedelta(hours=24)`, in seconds. */
  const CacheDuration: int := 24 * 60 * 60

  /** The access key the manager is shipped with; it means "no key". */
  const PlaceholderAccessKey: string := "YOUR_UNSPLASH_ACCESS_KEY"

  /** The category table: each known category with its search keywords,
      most relevant first. */
  const BusinessCategories: map<string, seq<string>> := map[
    "business-team" := ["business", "team", "office", "professional"],
    "technology-consulting" := ["technology", "consulting", "computer", "business"],
    "business-strategy" := ["strategy", "planning", "business", "meeting"],
    "digital-transformation" := ["digital", "technology", "innovation", "business"],
    "professional-team" := ["team", "business", "professional", "office"],
    "modern-office" := ["office", "workspace", "modern", "business"],
    "team-meeting" := ["meeting", "business", "team", "conference"],
    "workspace" := ["workspace", "office", "desk", "computer"],
    "professional-woman" := ["business", "woman", "professional", "portrait"],
    "professional-man" := ["business", "man", "professional", "portrait"],
    "business-woman" := ["business", "woman", "suit", "professional"],
    "business-consulting" := ["consulting", "business", "meeting", "professional"],
    "technology-stack" := ["technology", "computer", "software", "coding"],
    "cloud-computing" := ["cloud", "technology", "server", "computing"],
    "data-analytics" := ["data", "analytics", "chart", "business"],
    "cybersecurity" := ["security", "technology", "protection", "cyber"],
    "mobile-development" := ["mobile", "app", "development", "technology"],
    "ai-machine-learning" := ["artificial intelligence", "machine learning", "technology", "future"],
    "business-meeting" := ["meeting", "business", "conference", "professional"],
    "modern-office-space" := ["office", "modern", "workspace", "interior"],
    "business-insights" := ["business", "insights", "data", "analytics"],
    "technology-trends" := ["technology", "trends", "innovation", "future"],
    "business-growth" := ["growth", "business", "success", "chart"],
    "digital-innovation" := ["digital", "innovation", "technology", "future"]
  ]

  /** `business_categories.get(category, [category])`: never empty, and an
      unknown category is its own single keyword. */
  function KeywordsFor(category: string): (keywords: seq<string>)
    ensures |keywords| >= 1
    ensures category in BusinessCategories ==> keywords == BusinessCategories[category]
    ensures category !in BusinessCategories ==> keywords == [category]
  {
    if category in BusinessCategories then BusinessCategories[category] else [category]
  }

  // ---------------------------------------------------------------------
  // Configuration and the outside world

  /** The manager's configuration: its access key and the two hash
      functions it depends on (`hashlib.md5(...).hexdigest()` applied to the
      key string, and Python's per-process `hash` on strings). */
  datatype Config = Config(accessKey: string, md5: string -> string, hash: string -> int)

  /** What the search API answers: a failure of any kind (timeout,
      connection error, undecodable body, missing field), or a status code
      with the `urls.raw` field of each result, in order. */
  datatype SearchResponse = SearchFailed | SearchReplied(status: int, rawUrls: seq<string>)

  /** What the HEAD check answers: a failure of any kind, or a status. */
  datatype HeadResponse = HeadFailed | HeadStatus(status: int)

  /** Everything one `get_image` call learns from outside the process. */
  datatype World = World(
    now: int,
    search: SearchResponse,
    head: HeadResponse,
    cacheWritable: bool,
    keyFault: bool)

  /** A network request the manager sends. */
  datatype Request = SearchRequest(query: string) | HeadRequest(url: string)

  /** One cache file: a URL with the time it was fetched, or a file that
      cannot be read or decoded. */
  datatype CacheEntry = Entry(url: string, timestamp: int) | Unreadable

  // ---------------------------------------------------------------------
  // Cache key and cache store

  /** `f"{category}_{width}_{height}"`. */
  function KeyString(category: string, width: int, height: int): string {
    category + "_" + IntToString(width) + "_" + IntToString(height)
  }

  /** `_generate_cache_key`: the digest of the key string. */
  function CacheKey(md5: string -> string, category: string, width: int, height: int): string {
    md5(KeyString(category, width, height))
  }

  /** `_get_cached_image`: the cached URL for `key` if its file can be read
      and its age is strictly less than the cache duration. */
  function CachedUrl(cache: map<string, CacheEntry>, key: string, now: int): (r: Option<string>)
    ensures r.Some? <==> key in cache && cache[key].Entry? && now - cache[key].timestamp < CacheDuration
    ensures r.Some? ==> r.value == cache[key].url
  {
    if key in cache && cache[key].Entry? && now - cache[key].timestamp < CacheDuration then
      Some(cache[key].url)
    else
      None
  }

  /** `_cache_image_url`: the cache after writing `url` under `key` at time
      `now`; a write that fails leaves the cache as it was. */
  function CacheWrite(cache: map<string, CacheEntry>, key: string, url: string, now: int, writable: bool):
    (r: map<string, CacheEntry>)
    ensures writable ==> key in r && r[key] == Entry(url, now)
    ensures forall k :: k != key ==> (k in r <==> k in cache)
    ensures forall k :: k in cache && k != key ==> r[k] == cache[k]
    ensures !writable ==> r == cache
  {
    if writable then cache[key := Entry(url, now)] else cache
  }

  // ---------------------------------------------------------------------
  // Providers

  /** The search provider needs a key that is neither empty nor the shipped
      placeholder. */
  predicate HasAccessKey(key: string) {
    key != "" && key != PlaceholderAccessKey
  }

  /** `" ".join(keywords)`: the search query for a category. */
  function SearchQuery(category: string): string {
    Join(" ", KeywordsFor(category))
  }

  /** The sizing and cropping parameters appended to the raw photo URL. */
  function CropSuffix(width: int, height: int): string {
    "&w=" + IntToString(width) + "&h=" + IntToString(height) + "&fit=crop&crop=center"
  }

  /** `_fetch_from_unsplash`: nothing without a usable key; otherwise the
      first result's raw URL with the crop suffix when the search answers
      200 with at least one result; nothing on any other answer. */
  function UnsplashUrl(key: string, width: int, height: int, reply: SearchResponse): (r: Option<string>)
    ensures r.Some? <==> HasAccessKey(key) && reply.SearchReplied? && reply.status == 200 && |reply.rawUrls| > 0
    ensures r.Some? ==> r.value == reply.rawUrls[0] + CropSuffix(width, height) && r.value != ""
  {
    if !HasAccessKey(key) then None
    else match reply
      case SearchReplied(status, raws) =>
        if status == 200 && |raws| > 0 then Some(raws[0] + CropSuffix(width, height)) else None
      case SearchFailed => None
  }

  /** The request `_fetch_from_unsplash` sends: one search, or none when the
      key is missing. */
  function UnsplashRequests(key: string, category: string): (rs: seq<Request>)
    ensures HasAccessKey(key) <==> rs != []
  {
    if HasAccessKey(key) then [SearchRequest(SearchQuery(category))] else []
  }

  /** `https://source.unsplash.com/{w}x{h}/?{keyword}`. */
  function KeywordUrl(width: int, height: int, keyword: string): string {
    "https://source.unsplash.com/" + IntToString(width) + "x" + IntToString(height) + "/?" + keyword
  }

  /** The keyword the redirect service is asked for: the category's first
      keyword with spaces replaced by hyphens. */
  function FallbackKeyword(category: string): (kw: string)
    ensures ' ' !in kw
    ensures |kw| == |KeywordsFor(category)[0]|
    ensures forall k :: 0 <= k < |kw| ==>
              kw[k] == (if KeywordsFor(category)[0][k] == ' ' then '-' else KeywordsFor(category)[0][k])
  {
    ReplaceChar(KeywordsFor(category)[0], ' ', '-')
  }

  /** `hash(category) % 1000` with Python's floored remainder; for the
      positive divisor 1000 it agrees with Dafny's Euclidean `%`. */
  function PicsumSeed(hashValue: int): (seed: int)
    ensures 0 <= seed < 1000
    ensures (hashValue - seed) % 1000 == 0
  {
    hashValue % 1000
  }

  /** `https://picsum.photos/{w}/{h}?random={seed}`. */
  function PicsumUrl(width: int, height: int, seed: int): string {
    "https://picsum.photos/" + IntToString(width) + "/" + IntToString(height) + "?random=" + IntToString(seed)
  }

  /** `_fetch_fallback_image`: the keyword URL when its HEAD check answers
      200, and the Lorem Picsum URL otherwise, including when the check
      fails. It never yields nothing. */
  function FallbackUrl(hash: string -> int, category: string, width: int, height: int, head: HeadResponse):
    (r: string)
    ensures r != ""
    ensures r == KeywordUrl(width, height, FallbackKeyword(category)) <==> head == HeadStatus(200)
    ensures head != HeadStatus(200) ==> r == PicsumUrl(width, height, PicsumSeed(hash(category)))
  {
    var keywords := KeywordsFor(category);
    var picsum := PicsumUrl(width, height, PicsumSeed(hash(category)));
    if |keywords| > 0 then
      var url := KeywordUrl(width, height, ReplaceChar(keywords[0], ' ', '-'));
      if head.HeadStatus? && head.status == 200 then url
      else
        assert picsum[8] == 'p' && url[8] == 's';
        picsum
    else picsum
  }

  /** The request `_fetch_fallback_image` sends: the HEAD check of the
      keyword URL. */
  function FallbackRequests(category: string, width: int, height: int): seq<Request> {
    var keywords := KeywordsFor(category);
    if |keywords| > 0 then [HeadRequest(KeywordUrl(width, height, ReplaceChar(keywords[0], ' ', '-')))] else []
  }

  /** `_get_local_placeholder`: a path to an SVG file served by the site
      itself, not a URL of any provider. */
  function LocalPlaceholder(width: int, height: int): (path: string)
    ensures |path| > |"/static/images/placeholder-"| + |".svg"|
    ensures path[..|"/static/images/placeholder-"|] == "/static/images/placeholder-"
    ensures path[|path| - |".svg"|..] == ".svg"
  {
    "/static/images/placeholder-" + IntToString(width) + "x" + IntToString(height) + ".svg"
  }

  /** `create_placeholder_svg`: a bordered grey rectangle of the requested
      size with the label centred; the label is inserted without escaping. */
  function PlaceholderSvg(width: int, height: int, text: string): (svg: string)
    ensures |svg| == |SvgHead(width, height)| + |text| + |SvgTail|
    ensures svg[..|SvgHead(width, height)|] == SvgHead(width, height)
    ensures svg[|svg| - |SvgTail|..] == SvgTail
    ensures svg[|SvgHead(width, height)|..|svg| - |SvgTail|] == text
  {
    SvgHead(width, height) + text + SvgTail
  }

  /** The markup before the label: the outer element of the requested size,
      the background and the border, inset by 2 on each side. */
  function SvgHead(width: int, height: int): string {
    SvgOpen + IntToString(width) + SvgHeightAttr + IntToString(height) + SvgHeadRest(width, height)
  }

  /** The opening of the outer element, up to its width. */
  const SvgOpen: string := "\n        <svg width=\""

  /** Between the outer element's width and its height. */
  const SvgHeightAttr: string := "\" height=\""

  /** The head after the outer element's height: the background, the border
      inset by 2, and the opening of the label. */
  function SvgHeadRest(width: int, height: int): string {
    "\" xmlns=\"http://www.w3.org/2000/svg\">\n" + SvgBackgroundAndBorder(width, height)
  }

  /** The background, the border inset by 2, and the opening of the label. */
  function SvgBackgroundAndBorder(width: int, height: int): string {
    "            <rect width=\"100%\" height=\"100%\" fill=\"#f8f9fa\"/>\n"
    + "            <rect x=\"2\" y=\"2\" width=\"" + IntToString(width - 4) + "\" height=\""
    + IntToString(height - 4) + "\" fill=\"none\" stroke=\"#dee2e6\" stroke-width=\"2\"/>\n"
    + "            <text x=\"50%\" y=\"50%\" font-family=\"Arial, sans-serif\" font-size=\"16\""
    + " fill=\"#6c757d\" text-anchor=\"middle\" dy=\".3em\">"
  }

  /** The markup after the label. */
  const SvgTail: string := "</text>\n        </svg>\n        "

  /** The prefix of s before the first occurrence of c (all of s when c does
      not occur). */
  function TakeUntil(s: string, c: char): (r: string)
    ensures |r| <= |s| && r == s[..|r|] && c !in r
  {
    if s == [] || s[0] == c then [] else [s[0]] + TakeUntil(s[1..], c)
  }

  /** How a reader of the markup finds the width the outer element declares:
      the attribute value that follows the opening. */
  function DeclaredWidth(svg: string): string {
    if |svg| < |SvgOpen| then "" else TakeUntil(svg[|SvgOpen|..], '"')
  }

  /** The height the outer element declares: the attribute value that
      follows the width. */
  function DeclaredHeight(svg: string): string {
    var start := |SvgOpen| + |DeclaredWidth(svg)| + |SvgHeightAttr|;
    if |svg| < start then "" else TakeUntil(svg[start..], '"')
  }

  // ---------------------------------------------------------------------
  // The resolver, as a function of the cache and the world

  /** The outcome of one `get_image` call: the URL returned, the cache
      afterwards and the requests sent, in order. */
  datatype Resolution = Resolution(url: string, cache: map<string, CacheEntry>, requests: seq<Request>)

  /** The cache answers the request: the key can be computed and its entry
      is readable, fresh and non-empty. */
  predicate IsHit(cfg: Config, cache: map<string, CacheEntry>, category: string, width: int, height: int, world: World) {
    var cached := CachedUrl(cache, CacheKey(cfg.md5, category, width, height), world.now);
    !world.keyFault && cached.Some? && cached.value != ""
  }

  /** `get_image`: the cache first; on a miss the search provider, then the
      fallback provider only if the search gave nothing; a URL obtained is
      written to the cache and returned; the placeholder is the answer when
      the key cannot be computed. */
  function Resolve(cfg: Config, cache: map<string, CacheEntry>, category: string, width: int, height: int, world: World):
    (r: Resolution)
    ensures r.url != ""
  {
    if world.keyFault then
      Resolution(LocalPlaceholder(width, height), cache, [])
    else
      var key := CacheKey(cfg.md5, category, width, height);
      var cached := CachedUrl(cache, key, world.now);
      if cached.Some? && cached.value != "" then
        Resolution(cached.value, cache, [])
      else
        var primary := UnsplashUrl(cfg.accessKey, width, height, world.search);
        var sent := UnsplashRequests(cfg.accessKey, category);
        var fallsThrough := primary.None? || primary.value == "";
        var imageUrl :=
          if fallsThrough then FallbackUrl(cfg.hash, category, width, height, world.head) else primary.value;
        var requests := if fallsThrough then sent + FallbackRequests(category, width, height) else sent;
        if imageUrl != "" then
          Resolution(imageUrl, CacheWrite(cache, key, imageUrl, world.now, world.cacheWritable), requests)
        else
          Resolution(LocalPlaceholder(width, height), cache, requests)
  }

  /** The outcome of a gallery: one URL per category, the final cache and
      all requests sent. */
  datatype Batch = Batch(urls: seq<string>, cache: map<string, CacheEntry>, requests: seq<Request>)

  /** One resolution per category, in order, each seeing the cache the
      previous one left. */
  function ResolveAll(cfg: Config, cache: map<string, CacheEntry>, categories: seq<string>, width: int, height: int,
                      worlds: seq<World>): (b: Batch)
    requires |worlds| == |categories|
    ensures |b.urls| == |categories|
    ensures forall k :: 0 <= k < |b.urls| ==> b.urls[k] != ""
    decreases |categories|
  {
    if categories == [] then Batch([], cache, [])
    else
      var first := Resolve(cfg, cache, categories[0], width, height, worlds[0]);
      var rest := ResolveAll(cfg, first.cache, categories[1..], width, height, worlds[1..]);
      Batch([first.url] + rest.urls, rest.cache, first.requests + rest.requests)
  }

  /** One step of a gallery: the first category is resolved against the
      given cache, the rest against the cache it leaves. */
  lemma ResolveAllStep(cfg: Config, cache: map<string, CacheEntry>, categories: seq<string>, width: int, height: int,
                       worlds: seq<World>)
    requires |worlds| == |categories| > 0
    ensures var first := Resolve(cfg, cache, categories[0], width, height, worlds[0]);
            var rest := ResolveAll(cfg, first.cache, categories[1..], width, height, worlds[1..]);
            ResolveAll(cfg, cache, categories, width, height, worlds)
            == Batch([first.url] + rest.urls, rest.cache, first.requests + rest.requests)
  {
  }

  /** Sequence concatenation is associative. A hint for the solver, stated
      separately to keep the gallery loop's proof small; not a property of
      the model. */
  lemma ConcatAssociative<T>(a: seq<T>, b: seq<T>, c: seq<T>)
    ensures (a + b) + c == a + (b + c)
  {
  }

  /** `[img for img in results if isinstance(img, str) and img]`. */
  function KeepNonEmpty(results: seq<string>): (images: seq<string>)
    ensures |images| <= |results|
    ensures forall u :: u in images <==> u in results && u != ""
    ensures (forall k :: 0 <= k < |results| ==> results[k] != "") ==> images == results
  {
    if results == [] then []
    else (if results[0] != "" then [results[0]] else []) + KeepNonEmpty(results[1..])
  }

  // ---------------------------------------------------------------------
  // The manager object

  class AssetManager {
    const cfg: Config
    /** The cache directory: one entry per key file. */
    var cache: map<string, CacheEntry>
    /** Every network request sent so far, in order. */
    var sent: seq<Request>

    /** A manager over an existing cache directory (which outlives the
        process). */
    constructor (cfg: Config, existing: map<string, CacheEntry>)
      ensures this.cfg == cfg && cache == existing && sent == []
    {
      this.cfg := cfg;
      cache := existing;
      sent := [];
    }

    /** `_get_cached_image`. */
    method GetCachedImage(key: string, now: int) returns (r: Option<string>)
      ensures r == CachedUrl(cache, key, now)
    {
      r := None;
      if key in cache {
        match cache[key]
        case Entry(url, timestamp) =>
          if now - timestamp < CacheDuration {
            r := Some(url);
          }
        case Unreadable =>
      }
    }

    /** `_cache_image_url`. */
    method CacheImageUrl(key: string, url: string, now: int, writable: bool)
      modifies this`cache
      ensures cache == CacheWrite(old(cache), key, url, now, writable)
    {
      if writable {
        cache := cache[key := Entry(url, now)];
      }
    }

    /** `_fetch_from_unsplash`. */
    method FetchFromUnsplash(category: string, width: int, height: int, reply: SearchResponse)
      returns (r: Option<string>)
      modifies this`sent
      ensures r == UnsplashUrl(cfg.accessKey, width, height, reply)
      ensures sent == old(sent) + UnsplashRequests(cfg.accessKey, category)
    {
      if cfg.accessKey == "" || cfg.accessKey == PlaceholderAccessKey {
        return None;
      }
      var query := Join(" ", KeywordsFor(category));
      sent := sent + [SearchRequest(query)];
      r := None;
      if reply.SearchReplied? && reply.status == 200 && |reply.rawUrls| > 0 {
        r := Some(reply.rawUrls[0] + CropSuffix(width, height));
      }
    }

    /** `_fetch_fallback_image`. */
    method FetchFallbackImage(category: string, width: int, height: int, head: HeadResponse)
      returns (r: string)
      modifies this`sent
      ensures r == FallbackUrl(cfg.hash, category, width, height, head)
      ensures sent == old(sent) + FallbackRequests(category, width, height)
    {
      var keywords := KeywordsFor(category);
      if |keywords| > 0 {
        var keyword := ReplaceChar(keywords[0], ' ', '-');
        var url := KeywordUrl(width, height, keyword);
        sent := sent + [HeadRequest(url)];
        if head.HeadStatus? && head.status == 200 {
          return url;
        }
      }
      r := PicsumUrl(width, height, PicsumSeed(cfg.hash(category)));
    }

    /** `get_image`. */
    method GetImage(category: string, width: int, height: int, world: World) returns (url: string)
      modifies this`cache, this`sent
      ensures var r := Resolve(cfg, old(cache), category, width, height, world);
              url == r.url && cache == r.cache && sent == old(sent) + r.requests
    {
      if world.keyFault {
        // the exception handler of get_image
        return LocalPlaceholder(width, height);
      }
      var key := CacheKey(cfg.md5, category, width, height);
      var cached := GetCachedImage(key, world.now);
      if cached.Some? && cached.value != "" {
        return cached.value;
      }
      var imageUrl := FetchFromUnsplash(category, width, height, world.search);
      if imageUrl.None? || imageUrl.value == "" {
        var fallback := FetchFallbackImage(category, width, height, world.head);
        imageUrl := Some(fallback);
      }
      if imageUrl.value != "" {
        CacheImageUrl(key, imageUrl.value, world.now, world.cacheWritable);
        return imageUrl.value;
      }
      url := LocalPlaceholder(width, height);
    }

    /** `get_image_gallery`: the calls are made one after another, in the
        order of `categories`, and the results are filtered. */
    method GetImageGallery(categories: seq<string>, width: int, height: int, worlds: seq<World>)
      returns (images: seq<string>)
      requires |worlds| == |categories|
      modifies this`cache, this`sent
      ensures var b := ResolveAll(cfg, old(cache), categories, width, height, worlds);
              images == KeepNonEmpty(b.urls) && cache == b.cache && sent == old(sent) + b.requests
    {
      ghost var whole := ResolveAll(cfg, cache, categories, width, height, worlds);
      var results: seq<string> := [];
      var i := 0;
      while i < |categories|
        invariant 0 <= i <= |categories|
        invariant results + ResolveAll(cfg, cache, categories[i..], width, height, worlds[i..]).urls == whole.urls
        invariant ResolveAll(cfg, cache, categories[i..], width, height, worlds[i..]).cache == whole.cache
        invariant sent + ResolveAll(cfg, cache, categories[i..], width, height, worlds[i..]).requests
                  == old(sent) + whole.requests
      {
        ghost var first := Resolve(cfg, cache, categories[i], width, height, worlds[i]);
        ghost var rest := ResolveAll(cfg, first.cache, categories[i + 1..], width, height, worlds[i + 1..]);
        ResolveAllStep(cfg, cache, categories[i..], width, height, worlds[i..]);
        assert categories[i..][0] == categories[i] && worlds[i..][0] == worlds[i];
        assert categories[i..][1..] == categories[i + 1..] && worlds[i..][1..] == worlds[i + 1..];
        assert ResolveAll(cfg, cache, categories[i..], width, height, worlds[i..])
               == Batch([first.url] + rest.urls, rest.cache, first.requests + rest.requests);
        ghost var sentBefore := sent;
        var url := GetImage(categories[i], width, height, worlds[i]);
        assert url == first.url && cache == first.cache && sent == sentBefore + first.requests;
        ConcatAssociative(sentBefore, first.requests, rest.requests);
        assert (results + [url]) + rest.urls == results + ([first.url] + rest.urls);
        results := results + [url];
        i := i + 1;
      }
      assert categories[i..] == [] && worlds[i..] == [];
      assert ResolveAll(cfg, cache, [], width, height, []) == Batch([], cache, []);
      assert results == whole.urls && cache == whole.cache && sent == old(sent) + whole.requests;
      images := KeepNonEmpty(results);
    }
  }
}
