/** What the asset manager promises, proved about the resolver of module
    Assets: the cache key, the cache's time box, the order of the provider
    chain, the write after a successful fetch, the placeholder, and the
    gallery. */
module AssetProperties {
  import opened Wrappers
  import opened Decimal
  import opened PyText
  import opened Assets

  // ---------------------------------------------------------------------
  // Cache key

  /** The key string determines the request: no two different
      (category, width, height) triples render to the same string, because
      the rendered integers never contain the '_' separator. */
  lemma KeyStringInjective(c1: string, w1: int, h1: int, c2: string, w2: int, h2: int)
    requires KeyString(c1, w1, h1) == KeyString(c2, w2, h2)
    ensures c1 == c2 && w1 == w2 && h1 == h2
  {
    var sw1, sh1, sw2, sh2 := IntToString(w1), IntToString(h1), IntToString(w2), IntToString(h2);
    IntToStringAvoids(w1, '_');
    IntToStringAvoids(h1, '_');
    IntToStringAvoids(w2, '_');
    IntToStringAvoids(h2, '_');
    assert KeyString(c1, w1, h1) == (c1 + ['_'] + sw1) + ['_'] + sh1;
    assert KeyString(c2, w2, h2) == (c2 + ['_'] + sw2) + ['_'] + sh2;
    SplitAtLastSeparator(c1 + ['_'] + sw1, sh1, c2 + ['_'] + sw2, sh2, '_');
    SplitAtLastSeparator(c1, sw1, c2, sw2, '_');
    IntToStringInjective(w1, w2);
    IntToStringInjective(h1, h2);
  }

  /** With a collision-free digest, two requests share a cache key exactly
      when they are the same request. */
  lemma CacheKeyCollisionFree(md5: string -> string, c1: string, w1: int, h1: int, c2: string, w2: int, h2: int)
    requires forall s, t :: md5(s) == md5(t) ==> s == t
    ensures CacheKey(md5, c1, w1, h1) == CacheKey(md5, c2, w2, h2) <==> c1 == c2 && w1 == w2 && h1 == h2
  {
    if CacheKey(md5, c1, w1, h1) == CacheKey(md5, c2, w2, h2) {
      KeyStringInjective(c1, w1, h1, c2, w2, h2);
    }
  }

  // ---------------------------------------------------------------------
  // Placeholder

  /** The part of a placeholder path between its fixed prefix and suffix
      is the size, written `{width}x{height}`. */
  lemma PlaceholderSize(width: int, height: int)
    ensures var p := LocalPlaceholder(width, height);
            p[|"/static/images/placeholder-"|..|p| - |".svg"|] == IntToString(width) + ['x'] + IntToString(height)
  {
    var m := IntToString(width) + ['x'] + IntToString(height);
    assert LocalPlaceholder(width, height) == "/static/images/placeholder-" + m + ".svg";
  }

  /** Distinct sizes have distinct placeholder paths. */
  lemma LocalPlaceholderInjective(w1: int, h1: int, w2: int, h2: int)
    requires LocalPlaceholder(w1, h1) == LocalPlaceholder(w2, h2)
    ensures w1 == w2 && h1 == h2
  {
    PlaceholderSize(w1, h1);
    PlaceholderSize(w2, h2);
    IntToStringAvoids(h1, 'x');
    IntToStringAvoids(h2, 'x');
    SplitAtLastSeparator(IntToString(w1), IntToString(h1), IntToString(w2), IntToString(h2), 'x');
    IntToStringInjective(w1, w2);
    IntToStringInjective(h1, h2);
  }

  /** A placeholder path starts with '/' and ends with 'g'. */
  lemma PlaceholderEnds(width: int, height: int)
    ensures var p := LocalPlaceholder(width, height);
            p[0] == '/' && p[|p| - 1] == 'g'
  {
    var p := LocalPlaceholder(width, height);
    assert p[|p| - 1] == p[|p| - 4..][3];
  }

  /** A search URL ends with the crop directive, so with 'r'. */
  lemma SearchUrlEnd(key: string, width: int, height: int, reply: SearchResponse)
    ensures var primary := UnsplashUrl(key, width, height, reply);
            primary.Some? ==> primary.value != [] && primary.value[|primary.value| - 1] == 'r'
  {
    var primary := UnsplashUrl(key, width, height, reply);
    if primary.Some? {
      var u := primary.value;
      assert u == (reply.rawUrls[0] + "&w=" + IntToString(width) + "&h=" + IntToString(height))
                  + "&fit=crop&crop=center";
    }
  }

  /** No provider ever yields a placeholder path: a search URL ends with
      the crop directive, a fallback URL starts with "https". */
  lemma ProviderUrlIsNotPlaceholder(cfg: Config, category: string, width: int, height: int, world: World,
                                    pw: int, ph: int)
    ensures var primary := UnsplashUrl(cfg.accessKey, width, height, world.search);
            primary.Some? ==> primary.value != LocalPlaceholder(pw, ph)
    ensures FallbackUrl(cfg.hash, category, width, height, world.head) != LocalPlaceholder(pw, ph)
  {
    PlaceholderEnds(pw, ph);
    SearchUrlEnd(cfg.accessKey, width, height, world.search);
    assert FallbackUrl(cfg.hash, category, width, height, world.head)[0] == 'h';
  }

  /** Reading up to a separator recovers a field the separator does not
      occur in. */
  lemma {:induction false} TakeUntilField(x: string, c: char, rest: string)
    requires c !in x
    ensures TakeUntil(x + [c] + rest, c) == x
  {
    if x != [] {
      assert (x + [c] + rest)[1..] == x[1..] + [c] + rest;
      TakeUntilField(x[1..], c, rest);
    }
  }

  /** Markup that opens with a width and a height free of quotes, followed
      by a closing quote, reads back as that width and height. */
  lemma OuterSizeReadsBack(w: string, h: string, after: string)
    requires '"' !in w && '"' !in h
    requires after != [] && after[0] == '"'
    ensures DeclaredWidth(SvgOpen + w + SvgHeightAttr + h + after) == w
    ensures DeclaredHeight(SvgOpen + w + SvgHeightAttr + h + after) == h
  {
    var svg := SvgOpen + w + SvgHeightAttr + h + after;
    var attr := SvgHeightAttr[1..];
    assert SvgHeightAttr == ['"'] + attr;
    assert svg[|SvgOpen|..] == w + ['"'] + (attr + h + after);
    TakeUntilField(w, '"', attr + h + after);
    var start := |SvgOpen| + |w| + |SvgHeightAttr|;
    assert after == ['"'] + after[1..];
    assert svg[start..] == h + ['"'] + after[1..];
    TakeUntilField(h, '"', after[1..]);
  }

  /** The placeholder markup declares the requested size: its outer width
      and height attributes read back as the rendered width and height,
      whatever the label. */
  lemma PlaceholderSvgDeclaresSize(width: int, height: int, text: string)
    ensures DeclaredWidth(PlaceholderSvg(width, height, text)) == IntToString(width)
    ensures DeclaredHeight(PlaceholderSvg(width, height, text)) == IntToString(height)
  {
    var w, h := IntToString(width), IntToString(height);
    var opening := SvgOpen + w + SvgHeightAttr + h;
    var after := SvgHeadRest(width, height) + text + SvgTail;
    assert SvgHead(width, height) == opening + SvgHeadRest(width, height);
    ConcatAssociative(opening, SvgHeadRest(width, height), text);
    ConcatAssociative(opening, SvgHeadRest(width, height) + text, SvgTail);
    assert PlaceholderSvg(width, height, text) == opening + after;
    assert after[0] == SvgHeadRest(width, height)[0] == '"';
    IntToStringAvoids(width, '"');
    IntToStringAvoids(height, '"');
    OuterSizeReadsBack(w, h, after);
  }

  /** The placeholder markup determines the request: two placeholders are
      equal only for the same size and the same label. */
  lemma PlaceholderSvgInjective(w1: int, h1: int, t1: string, w2: int, h2: int, t2: string)
    requires PlaceholderSvg(w1, h1, t1) == PlaceholderSvg(w2, h2, t2)
    ensures w1 == w2 && h1 == h2 && t1 == t2
  {
    PlaceholderSvgDeclaresSize(w1, h1, t1);
    PlaceholderSvgDeclaresSize(w2, h2, t2);
    IntToStringInjective(w1, w2);
    IntToStringInjective(h1, h2);
  }

  // ---------------------------------------------------------------------
  // Cache hits and the time box

  /** The time box: an entry written at time t answers at time `now`
      exactly when `now - t` is below 24 hours; at 24 hours it is stale. */
  lemma TtlBoundary(cache: map<string, CacheEntry>, key: string, url: string, t: int)
    requires key in cache && cache[key] == Entry(url, t)
    ensures CachedUrl(cache, key, t + CacheDuration - 1) == Some(url)
    ensures CachedUrl(cache, key, t + CacheDuration) == None
    ensures forall now :: CachedUrl(cache, key, now).Some? <==> now < t + CacheDuration
  {
  }

  /** A fresh, readable, non-empty entry answers the request: its URL comes
      back, the cache is untouched and no provider is consulted, whatever the
      providers would have answered. */
  lemma FreshEntryConsultsNoProvider(cfg: Config, cache: map<string, CacheEntry>, category: string, width: int,
                                     height: int, world: World)
    requires !world.keyFault
    requires var key := CacheKey(cfg.md5, category, width, height);
             key in cache && cache[key].Entry? && cache[key].url != ""
             && world.now - cache[key].timestamp < CacheDuration
    ensures IsHit(cfg, cache, category, width, height, world)
    ensures Resolve(cfg, cache, category, width, height, world)
            == Resolution(cache[CacheKey(cfg.md5, category, width, height)].url, cache, [])
  {
  }

  /** An entry 24 hours old or older, or one that cannot be read, counts
      for nothing: the call returns what it would return with no entry, sends
      the same requests, consults at least one provider, and afterwards the
      cache agrees with the one it would have left. */
  lemma UnusableEntryIsMiss(cfg: Config, cache: map<string, CacheEntry>, category: string, width: int,
                            height: int, world: World)
    requires !world.keyFault
    requires var key := CacheKey(cfg.md5, category, width, height);
             key in cache && (cache[key].Unreadable? || world.now - cache[key].timestamp >= CacheDuration)
    ensures var key := CacheKey(cfg.md5, category, width, height);
            var r := Resolve(cfg, cache, category, width, height, world);
            var r0 := Resolve(cfg, cache - {key}, category, width, height, world);
            && !IsHit(cfg, cache, category, width, height, world)
            && r.url == r0.url && r.requests == r0.requests && r.requests != []
            && r.cache - {key} == r0.cache - {key}
            && (world.cacheWritable ==> r.cache == r0.cache)
  {
    var key := CacheKey(cfg.md5, category, width, height);
    assert CachedUrl(cache - {key}, key, world.now) == None;
    var r := Resolve(cfg, cache, category, width, height, world);
    var r0 := Resolve(cfg, cache - {key}, category, width, height, world);
    if world.cacheWritable {
      assert (cache - {key})[key := Entry(r.url, world.now)] == cache[key := Entry(r.url, world.now)];
    } else {
      assert r.cache - {key} == cache - {key};
    }
  }

  // ---------------------------------------------------------------------
  // The provider chain on a miss

  /** On a miss the search provider comes first and the fallback provider
      is asked only when the search gave nothing; the URL obtained is
      returned unchanged and written under the request's key, every other key
      keeping its entry. */
  lemma MissWalksChainInOrder(cfg: Config, cache: map<string, CacheEntry>, category: string, width: int,
                              height: int, world: World)
    requires !world.keyFault && !IsHit(cfg, cache, category, width, height, world)
    ensures var r := Resolve(cfg, cache, category, width, height, world);
            var primary := UnsplashUrl(cfg.accessKey, width, height, world.search);
            var key := CacheKey(cfg.md5, category, width, height);
            && r.url == (if primary.Some? then primary.value
                         else FallbackUrl(cfg.hash, category, width, height, world.head))
            && r.requests == UnsplashRequests(cfg.accessKey, category)
                             + (if primary.Some? then [] else FallbackRequests(category, width, height))
            && (world.cacheWritable ==> r.cache == cache[key := Entry(r.url, world.now)])
            && (!world.cacheWritable ==> r.cache == cache)
  {
  }

  /** The first provider wins: with a usable key and a search that answers
      200 with results, the URL is the first raw URL plus the crop suffix and
      the HEAD check is never sent. */
  lemma SearchHitSkipsFallback(cfg: Config, cache: map<string, CacheEntry>, category: string, width: int,
                               height: int, world: World)
    requires !world.keyFault && !IsHit(cfg, cache, category, width, height, world)
    requires HasAccessKey(cfg.accessKey)
    requires world.search.SearchReplied? && world.search.status == 200 && |world.search.rawUrls| > 0
    ensures var r := Resolve(cfg, cache, category, width, height, world);
            && r.url == world.search.rawUrls[0] + CropSuffix(width, height)
            && r.requests == [SearchRequest(SearchQuery(category))]
  {
  }

  /** The second provider wins when the first gives nothing and the HEAD
      check answers 200: the URL is the keyword URL, the HEAD check is the
      last request sent, and the random-image service is not used. */
  lemma RedirectWinsAfterSearchMiss(cfg: Config, cache: map<string, CacheEntry>, category: string, width: int,
                                    height: int, world: World)
    requires !world.keyFault && !IsHit(cfg, cache, category, width, height, world)
    requires UnsplashUrl(cfg.accessKey, width, height, world.search).None?
    requires world.head == HeadStatus(200)
    ensures var r := Resolve(cfg, cache, category, width, height, world);
            var url := KeywordUrl(width, height, FallbackKeyword(category));
            && r.url == url
            && r.url != PicsumUrl(width, height, PicsumSeed(cfg.hash(category)))
            && r.requests == UnsplashRequests(cfg.accessKey, category) + [HeadRequest(url)]
  {
    var url := KeywordUrl(width, height, FallbackKeyword(category));
    assert url[8] != PicsumUrl(width, height, PicsumSeed(cfg.hash(category)))[8];
  }

  /** When both the search and the HEAD check give nothing, the Lorem
      Picsum URL with seed `hash(category) % 1000` is returned, and it is
      cached like any other URL. */
  lemma PicsumWhenOthersFail(cfg: Config, cache: map<string, CacheEntry>, category: string, width: int,
                             height: int, world: World)
    requires !world.keyFault && !IsHit(cfg, cache, category, width, height, world)
    requires UnsplashUrl(cfg.accessKey, width, height, world.search).None?
    requires world.head != HeadStatus(200)
    ensures var r := Resolve(cfg, cache, category, width, height, world);
            var seed := PicsumSeed(cfg.hash(category));
            && r.url == PicsumUrl(width, height, seed) && 0 <= seed < 1000
            && (world.cacheWritable ==>
                  r.cache == cache[CacheKey(cfg.md5, category, width, height) := Entry(r.url, world.now)])
  {
  }

  /** Whatever happens, the only cache key a call may change is its own. */
  lemma ResolveTouchesOnlyItsKey(cfg: Config, cache: map<string, CacheEntry>, category: string, width: int,
                                 height: int, world: World, k: string)
    requires k != CacheKey(cfg.md5, category, width, height)
    ensures var r := Resolve(cfg, cache, category, width, height, world);
            (k in r.cache <==> k in cache) && (k in cache ==> r.cache[k] == cache[k])
  {
  }

  // ---------------------------------------------------------------------
  // The placeholder

  /** When computing the key raises, the placeholder path is returned,
      nothing is written and nothing is sent. */
  lemma FaultGivesPlaceholder(cfg: Config, cache: map<string, CacheEntry>, category: string, width: int,
                              height: int, world: World)
    requires world.keyFault
    ensures Resolve(cfg, cache, category, width, height, world)
            == Resolution(LocalPlaceholder(width, height), cache, [])
  {
  }

  /** The placeholder comes back from a miss only through the exception
      path: since the fallback provider always yields a URL, the
      placeholder return after the provider chain is never reached. */
  lemma PlaceholderOnlyFromFault(cfg: Config, cache: map<string, CacheEntry>, category: string, width: int,
                                 height: int, world: World)
    requires !IsHit(cfg, cache, category, width, height, world)
    requires Resolve(cfg, cache, category, width, height, world).url == LocalPlaceholder(width, height)
    ensures world.keyFault
  {
    if !world.keyFault {
      ProviderUrlIsNotPlaceholder(cfg, category, width, height, world, width, height);
    }
  }

  /** A placeholder is never written to the cache: every entry a call
      writes holds a provider URL. */
  lemma PlaceholderNeverCached(cfg: Config, cache: map<string, CacheEntry>, category: string, width: int,
                               height: int, world: World, pw: int, ph: int)
    ensures var r := Resolve(cfg, cache, category, width, height, world);
            forall k :: k in r.cache ==>
              (k in cache && r.cache[k] == cache[k]) || (r.cache[k].Entry? && r.cache[k].url != LocalPlaceholder(pw, ph))
  {
    ProviderUrlIsNotPlaceholder(cfg, category, width, height, world, pw, ph);
  }

  // ---------------------------------------------------------------------
  // Repeated requests

  /** A second request for the same image less than 24 hours after a
      first one that fetched and cached a URL returns the same URL, sends no
      request and leaves the cache as it is. */
  lemma RepeatWithinTtlIsHit(cfg: Config, cache: map<string, CacheEntry>, category: string, width: int,
                             height: int, first: World, second: World)
    requires !first.keyFault && !IsHit(cfg, cache, category, width, height, first) && first.cacheWritable
    requires !second.keyFault && second.now - first.now < CacheDuration
    ensures var r1 := Resolve(cfg, cache, category, width, height, first);
            Resolve(cfg, r1.cache, category, width, height, second) == Resolution(r1.url, r1.cache, [])
  {
    var key := CacheKey(cfg.md5, category, width, height);
    var r1 := Resolve(cfg, cache, category, width, height, first);
    MissWalksChainInOrder(cfg, cache, category, width, height, first);
    assert r1.cache[key] == Entry(r1.url, first.now);
    assert CachedUrl(r1.cache, key, second.now) == Some(r1.url);
  }

  // ---------------------------------------------------------------------
  // Fallback provider and search provider, on their own

  /** The fallback provider yields one of exactly two URLs: the keyword
      URL, whose keyword is the category's first keyword with hyphens for
      spaces, or the Lorem Picsum URL with a seed in [0, 1000). */
  lemma FallbackIsKeywordOrPicsum(hash: string -> int, category: string, width: int, height: int, head: HeadResponse)
    ensures var r := FallbackUrl(hash, category, width, height, head);
            var kw := FallbackKeyword(category);
            || (r == KeywordUrl(width, height, kw) && kw == ReplaceChar(KeywordsFor(category)[0], ' ', '-'))
            || (exists seed :: 0 <= seed < 1000 && r == PicsumUrl(width, height, seed))
  {
    var r := FallbackUrl(hash, category, width, height, head);
    if head != HeadStatus(200) {
      var seed := PicsumSeed(hash(category));
      assert 0 <= seed < 1000 && r == PicsumUrl(width, height, seed);
    }
  }

  /** The shipped access key disables the search provider: it sends no
      request and yields nothing. */
  lemma ShippedKeySkipsSearch(category: string, width: int, height: int, reply: SearchResponse)
    ensures UnsplashUrl(PlaceholderAccessKey, width, height, reply) == None
    ensures UnsplashRequests(PlaceholderAccessKey, category) == []
    ensures UnsplashUrl("", width, height, reply) == None
    ensures UnsplashRequests("", category) == []
  {
  }

  /** An unknown category is its own search query, and the redirect
      service is asked for it with hyphens in place of spaces. */
  lemma UnknownCategoryIsOwnKeyword(category: string)
    requires category !in BusinessCategories
    ensures KeywordsFor(category) == [category]
    ensures SearchQuery(category) == category
    ensures FallbackKeyword(category) == ReplaceChar(category, ' ', '-')
  {
  }

  /** The numerals of the hero image's size. */
  lemma HeroSizeNumerals()
    ensures IntToString(1920) == "1920" && IntToString(1080) == "1080"
  {
    assert NatToString(1) == "1";
    assert NatToString(19) == "19";
    assert NatToString(192) == "192";
    assert NatToString(1920) == "1920";
    assert NatToString(10) == "10";
    assert NatToString(108) == "108";
    assert NatToString(1080) == "1080";
  }

  /** The key string of the hero image. */
  lemma HeroKey()
    ensures KeyString("business-team", 1920, 1080) == "business-team_1920_1080"
  {
    HeroSizeNumerals();
    assert KeyString("business-team", 1920, 1080) == "business-team" + "_" + "1920" + "_" + "1080";
  }

  /** The crop suffix of the hero image's size. */
  lemma HeroCrop()
    ensures CropSuffix(1920, 1080) == "&w=1920&h=1080&fit=crop&crop=center"
  {
    HeroSizeNumerals();
    assert CropSuffix(1920, 1080) == "&w=" + "1920" + "&h=" + "1080" + "&fit=crop&crop=center";
  }

  /** The search query of a known category joins its keywords with spaces. */
  lemma BusinessTeamQuery()
    ensures SearchQuery("business-team") == "business team office professional"
  {
    var keywords := ["business", "team", "office", "professional"];
    assert "business-team" in BusinessCategories && BusinessCategories["business-team"] == keywords;
    assert Join(" ", keywords) == "business team office professional";
  }

  /** The worked example: the hero image of the home page, with a usable
      key and a search that answers 200 with one photo whose raw URL is
      `raw`, on an empty cache: the crop parameters are appended, the result
      is cached under the digest of "business-team_1920_1080", and the only
      request sent is the search for the category's keywords. */
  lemma HeroImageExample(md5: string -> string, hash: string -> int, now: int, raw: string)
    ensures var cfg := Config("live-key", md5, hash);
            var world := World(now, SearchReplied(200, [raw]), HeadFailed, true, false);
            var r := Resolve(cfg, map[], "business-team", 1920, 1080, world);
            && r.url == raw + "&w=1920&h=1080&fit=crop&crop=center"
            && r.cache == map[md5("business-team_1920_1080") := Entry(r.url, now)]
            && r.requests == [SearchRequest("business team office professional")]
  {
    HeroKey();
    HeroCrop();
    BusinessTeamQuery();
    var cfg := Config("live-key", md5, hash);
    var world := World(now, SearchReplied(200, [raw]), HeadFailed, true, false);
    assert HasAccessKey("live-key") by {
      assert "live-key"[0] != PlaceholderAccessKey[0];
    }
    SearchHitSkipsFallback(cfg, map[], "business-team", 1920, 1080, world);
    MissWalksChainInOrder(cfg, map[], "business-team", 1920, 1080, world);
  }

  // ---------------------------------------------------------------------
  // The gallery

  /** The filter keeps order: filtering a concatenation is concatenating
      the filtered parts. */
  lemma {:induction false} KeepNonEmptyAppend(a: seq<string>, b: seq<string>)
    ensures KeepNonEmpty(a + b) == KeepNonEmpty(a) + KeepNonEmpty(b)
  {
    if a == [] {
      assert a + b == b;
    } else {
      assert (a + b)[1..] == a[1..] + b;
      KeepNonEmptyAppend(a[1..], b);
    }
  }

  /** A gallery splits at any point: the first part is resolved against
      the starting cache, the rest against the cache the first part left. */
  lemma {:induction false} ResolveAllSplit(cfg: Config, cache: map<string, CacheEntry>, categories: seq<string>,
                                           width: int, height: int, worlds: seq<World>, n: nat)
    requires |worlds| == |categories| && n <= |categories|
    ensures var whole := ResolveAll(cfg, cache, categories, width, height, worlds);
            var front := ResolveAll(cfg, cache, categories[..n], width, height, worlds[..n]);
            var back := ResolveAll(cfg, front.cache, categories[n..], width, height, worlds[n..]);
            whole == Batch(front.urls + back.urls, back.cache, front.requests + back.requests)
    decreases n
  {
    if n == 0 {
      assert categories[..0] == [] && worlds[..0] == [];
      assert categories[0..] == categories && worlds[0..] == worlds;
    } else {
      var first := Resolve(cfg, cache, categories[0], width, height, worlds[0]);
      ResolveAllSplit(cfg, first.cache, categories[1..], width, height, worlds[1..], n - 1);
      assert categories[..n][0] == categories[0] && worlds[..n][0] == worlds[0];
      assert categories[..n][1..] == categories[1..][..n - 1] && worlds[..n][1..] == worlds[1..][..n - 1];
      assert categories[1..][n - 1..] == categories[n..] && worlds[1..][n - 1..] == worlds[n..];
      var front' := ResolveAll(cfg, first.cache, categories[1..][..n - 1], width, height, worlds[1..][..n - 1]);
      var back := ResolveAll(cfg, front'.cache, categories[n..], width, height, worlds[n..]);
      ConcatAssociative([first.url], front'.urls, back.urls);
      ConcatAssociative(first.requests, front'.requests, back.requests);
    }
  }

  /** Every call of a gallery yields a non-empty URL, so the filter drops
      nothing: the gallery has one image per category, in input order, and
      the i-th image is what resolving the i-th category yields against the
      cache the earlier ones left. */
  lemma GalleryKeepsEveryImage(cfg: Config, cache: map<string, CacheEntry>, categories: seq<string>,
                               width: int, height: int, worlds: seq<World>, i: nat)
    requires |worlds| == |categories| && i < |categories|
    ensures var b := ResolveAll(cfg, cache, categories, width, height, worlds);
            var before := ResolveAll(cfg, cache, categories[..i], width, height, worlds[..i]);
            && KeepNonEmpty(b.urls) == b.urls && |b.urls| == |categories|
            && b.urls[i] == Resolve(cfg, before.cache, categories[i], width, height, worlds[i]).url
  {
    ResolveAllSplit(cfg, cache, categories, width, height, worlds, i);
    var before := ResolveAll(cfg, cache, categories[..i], width, height, worlds[..i]);
    ResolveAllStep(cfg, before.cache, categories[i..], width, height, worlds[i..]);
    assert categories[i..][0] == categories[i] && worlds[i..][0] == worlds[i];
  }
}
