# Professional asset manager and contact form, modelled in Dafny

This project models two parts of a consulting firm's marketing website.

- **The image resolver** (`ProfessionalAssetManager` in `app/core/assets.py`).
  `get_image(category, width, height)` turns a request into an image URL.
  It first looks in a cache directory with a 24-hour time box. On a miss it
  walks a provider chain:
  1. the Unsplash search API;
  2. a `source.unsplash.com` keyword URL, checked with a HEAD request;
  3. a Lorem Picsum URL seeded by `hash(category) % 1000`.

  A URL obtained from a provider is written to the cache and returned. The
  local placeholder path is the answer when an exception escapes.
  `get_image_gallery` resolves a list of categories and keeps the non-empty
  results.
- **The contact form's validation rules** (`ContactForm` in
  `app/models/contact.py`). These are the length bounds, the stripping and
  blank checks on `name` and `message`, and the digit count on `phone`.

Modules:

- `Wrappers` (wrappers.dfy): `Option` and `Result`.
- `Decimal` (decimal.dfy): Python's `str(int)` as used inside f-strings, and
  the proof that it is injective.
- `PyText` (pytext.dfy): `strip()`, `replace`, `" ".join` and the digit
  filter `''.join(filter(str.isdigit, v))`.
- `Assets` (assets.dfy): the category table, the cache key, the cache store
  and the providers as functions. It also holds `Resolve`, the resolver as
  a function of (cache, world), and the `AssetManager` class. The class has
  a `cache` map and a `sent` log of network requests. Its methods follow the
  source step by step, and each is proved equal to the specification
  functions.
- `AssetProperties` (asset_properties.dfy): the resolver's promises, proved
  about `Resolve`, `ResolveAll` and the providers.
- `Contact` (contact.dfy): the validators as functions, with lemmas.

The outside world is an input. A `World` value holds, for one `get_image`
call:

- the clock reading, in seconds;
- the search API's reply: a failure, or a status with the raw URLs of the results;
- the HEAD check's reply: a failure, or a status;
- whether the cache file can be written;
- whether computing the cache key raises.

A `Config` holds the access key, the md5 hex digest and Python's string
`hash`. The two hash functions are uninterpreted.

Two consequences of the code that the model makes explicit:

- `get_image` never reaches the placeholder after the provider chain
  (assets.py:88). `_fetch_fallback_image` always yields a URL: both its
  success path and its exception path end in a Picsum URL, and that URL is
  cached like any other (`PlaceholderOnlyFromFault`). The placeholder comes
  back only from the exception handler (assets.py:90-92).
- `get_image_gallery` drops nothing. Every `get_image` result is non-empty,
  so the filter keeps them all, and a gallery has exactly one image per
  category (`GalleryKeepsEveryImage`).

Validation follows pydantic v1's order. A field's declared length bounds
are checked on the raw value before its validator strips it. So a name
accepted at the minimum length can be stored shorter than the minimum
(`PaddedNameStoredBelowMinimum`). Validating the stored name again then
rejects it (`RevalidateName`).

## Model

| member | source | states |
|---|---|---|
| `Assets.KeywordsFor` | app/core/assets.py:141 | the keyword list is never empty; a known category gets its table entry; an unknown category is its own single keyword |
| `Assets.CacheKey` | app/core/assets.py:161-164 | the key is the digest of `{category}_{width}_{height}`; with a collision-free digest, two requests share a key exactly when they are the same request (`AssetProperties.CacheKeyCollisionFree`) |
| `Assets.CachedUrl` | app/core/assets.py:166-180 | a cached URL comes back exactly when the entry exists, is readable and is strictly less than 24 hours old |
| `Assets.CacheWrite` | app/core/assets.py:182-193 | a successful write stores (url, now) under the key; no other key changes; a failed write changes nothing |
| `Assets.UnsplashUrl` | app/core/assets.py:103-136 | yields a URL exactly when the key is usable and the search answers 200 with a result; the URL is the first raw URL plus `&w=..&h=..&fit=crop&crop=center` |
| `Assets.UnsplashRequests` | app/core/assets.py:106-126 | a search request is sent exactly when the access key is usable |
| `Assets.FallbackKeyword` | app/core/assets.py:141-145 | the redirect keyword is the category's first keyword, character for character, with every space replaced by a hyphen; it therefore has no spaces and the same length |
| `Assets.PicsumSeed` | app/core/assets.py:155 | the Picsum seed lies in [0, 1000) and is congruent to the hash modulo 1000 |
| `Assets.FallbackUrl` | app/core/assets.py:138-159 | never empty; it is the keyword URL exactly when the HEAD check answers 200, and the Picsum URL otherwise (also on failure) |
| `Assets.LocalPlaceholder` | app/core/assets.py:195-198 | a path under `/static/images/placeholder-` ending in `.svg`; distinct sizes give distinct paths (`AssetProperties.LocalPlaceholderInjective`) |
| `Assets.PlaceholderSvg` | app/core/assets.py:200-208 | the label appears verbatim between the fixed markup before and after it (what the markup declares is stated by `PlaceholderSvgDeclaresSize` and `PlaceholderSvgInjective`) |
| `Assets.Resolve` | app/core/assets.py:63-92 | the URL returned is never empty |
| `Assets.ResolveAll` | app/core/assets.py:94-97 | one non-empty URL per category, in input order |
| `Assets.KeepNonEmpty` | app/core/assets.py:99-101 | keeps exactly the non-empty results, is no longer than its input, and is the identity when all results are non-empty |
| `Assets.AssetManager.constructor` | app/core/assets.py:20-61 | a manager starts from the existing cache directory with no request sent |
| `Assets.AssetManager.GetCachedImage` | app/core/assets.py:166-180 | reads the cache without changing it, returning what `CachedUrl` specifies |
| `Assets.AssetManager.CacheImageUrl` | app/core/assets.py:182-193 | the new cache is the write of (url, now) under the key, or the old cache when the write fails |
| `Assets.AssetManager.FetchFromUnsplash` | app/core/assets.py:103-136 | returns `UnsplashUrl`'s answer and logs the search request only when a usable key exists |
| `Assets.AssetManager.FetchFallbackImage` | app/core/assets.py:138-159 | returns `FallbackUrl`'s answer after logging the HEAD check of the keyword URL |
| `Assets.AssetManager.GetImage` | app/core/assets.py:63-92 | URL, new cache and requests sent are exactly those of `Resolve` on the old cache |
| `Assets.AssetManager.GetImageGallery` | app/core/assets.py:94-101 | the images are the filtered results of resolving each category in order; cache and request log are those of `ResolveAll` |
| `Decimal.IntToStringInjective` | app/core/assets.py:163 | distinct integers render to distinct decimal strings |
| `PyText.StripIsTrimmedInfix` | app/models/contact.py:19-21 | `strip()` yields the infix left after removing leading and trailing whitespace; it does not start or end with whitespace |
| `PyText.StripEmptyIffBlank` | app/models/contact.py:19 | `not v.strip()` holds exactly for whitespace-only strings |
| `PyText.StripIdempotent` | app/models/contact.py:21 | stripping a stripped value changes nothing |
| `PyText.Digits` | app/models/contact.py:33 | the digit filter keeps only digits and is never longer than its input (that it keeps every digit is `PyText.DigitsKeepsEveryDigit`) |
| `PyText.DigitsKeepsEveryDigit` | app/models/contact.py:33 | the filter keeps each digit exactly as often as it occurs and no other character, so the phone rule counts all digits |
| `AssetProperties.KeyStringInjective` | app/core/assets.py:161-164 | the key string `category_width_height` determines the triple, because rendered integers contain no `_` |
| `AssetProperties.CacheKeyCollisionFree` | app/core/assets.py:161-164 | with a collision-free digest, two requests share a cache key exactly when category, width and height are all equal |
| `AssetProperties.LocalPlaceholderInjective` | app/core/assets.py:195-198 | distinct sizes have distinct placeholder paths |
| `AssetProperties.ProviderUrlIsNotPlaceholder` | app/core/assets.py:195-198 | no provider URL equals a placeholder path |
| `AssetProperties.PlaceholderSvgDeclaresSize` | app/core/assets.py:200-203 | the outer element's width and height attributes read back as the requested width and height, whatever the label |
| `AssetProperties.PlaceholderSvgInjective` | app/core/assets.py:200-208 | two placeholder images are equal only for the same width, height and label |
| `AssetProperties.TtlBoundary` | app/core/assets.py:174-176 | an entry written at t is served at any time before t + 24h, not at t + 24h, and never after |
| `AssetProperties.FreshEntryConsultsNoProvider` | app/core/assets.py:70-74 | a fresh non-empty entry is returned with the cache unchanged and no request sent, whatever the providers would answer |
| `AssetProperties.UnusableEntryIsMiss` | app/core/assets.py:168-180 | a stale or unreadable entry behaves as no entry: same URL, same requests, at least one request, same cache after a successful write |
| `AssetProperties.MissWalksChainInOrder` | app/core/assets.py:76-85 | on a miss the search comes first and the fallback only when the search gave nothing; the URL is cached under the request's key and returned unchanged |
| `AssetProperties.SearchHitSkipsFallback` | app/core/assets.py:77-81 | when the search succeeds its URL is returned and the HEAD check is never sent |
| `AssetProperties.RedirectWinsAfterSearchMiss` | app/core/assets.py:143-152 | when the search gives nothing and HEAD answers 200, the keyword URL is returned, not the Picsum URL, and the HEAD check is the last request |
| `AssetProperties.PicsumWhenOthersFail` | app/core/assets.py:79-85 | when both earlier providers give nothing, the Picsum URL (seed in [0, 1000)) is returned and cached |
| `AssetProperties.ResolveTouchesOnlyItsKey` | app/core/assets.py:182-191 | a call never changes any cache key other than its own |
| `AssetProperties.FaultGivesPlaceholder` | app/core/assets.py:90-92 | when the key computation raises, the placeholder path is returned with no write and no request |
| `AssetProperties.PlaceholderOnlyFromFault` | app/core/assets.py:83-88 | outside a cache hit, the placeholder is returned only when an exception escaped |
| `AssetProperties.PlaceholderNeverCached` | app/core/assets.py:83-92 | every entry a call writes holds a provider URL, never a placeholder path |
| `AssetProperties.RepeatWithinTtlIsHit` | app/core/assets.py:68-85 | after a fetch that was cached, the same request within 24h returns the same URL and sends nothing |
| `AssetProperties.FallbackIsKeywordOrPicsum` | app/core/assets.py:141-159 | the fallback URL is the keyword URL (first keyword, hyphens for spaces) or a Picsum URL with a seed in [0, 1000) |
| `AssetProperties.ShippedKeySkipsSearch` | app/core/assets.py:106-107 | with an empty key or the shipped placeholder key the search sends nothing and yields nothing |
| `AssetProperties.UnknownCategoryIsOwnKeyword` | app/core/assets.py:109-110 | an unknown category is its own query and its own redirect keyword |
| `AssetProperties.HeroImageExample` | app/core/assets.py:127-131 | home-page hero image: raw URL plus `&w=1920&h=1080&fit=crop&crop=center`, cached under md5 of `business-team_1920_1080`, one search request |
| `AssetProperties.KeepNonEmptyAppend` | app/core/assets.py:100 | the filter keeps input order: filtering a concatenation concatenates the filtered parts |
| `AssetProperties.ResolveAllSplit` | app/core/assets.py:96-97 | a gallery splits at any index into a prefix and the rest resolved against the prefix's cache |
| `AssetProperties.GalleryKeepsEveryImage` | app/core/assets.py:94-101 | the filter drops nothing; image i is category i resolved against the cache the earlier ones left |
| `Contact.ValidateStrippedText` | app/models/contact.py:17-27 | name/message accepted exactly when raw length is in bounds and not blank; stored value is the stripped, non-blank text; each error case named |
| `Contact.ValidateName` | app/models/contact.py:10-21 | a name is accepted exactly when it has 2 to 100 characters as submitted and is not blank; it is stored stripped, non-empty and at most 100 characters long |
| `Contact.ValidateMessage` | app/models/contact.py:15-27 | a message is accepted exactly when it has 10 to 2000 characters as submitted and is not blank; it is stored stripped, non-empty and at most 2000 characters long |
| `Contact.ValidateCompany` | app/models/contact.py:12 | company is accepted exactly when absent or at most 100 characters, and is stored as given |
| `Contact.ValidatePhone` | app/models/contact.py:29-36 | absent or blank phone accepted; non-blank phone accepted exactly with at least 7 digits; over 20 characters rejected; stored as given, then 7 to 20 characters long |
| `Contact.ValidateForm` | app/models/contact.py:7-36 | the form is built exactly when every field passes, with name and message stripped; otherwise 1 to 5 rejections are reported |
| `Contact.FormErrorsInFieldOrder` | app/models/contact.py:10-15 | rejections are reported in field order: name first, message last |
| `Contact.RevalidateName` | app/models/contact.py:10-21 | a stored name passes again exactly when it still has 2 characters, and then it is unchanged |
| `Contact.RevalidateMessage` | app/models/contact.py:15-27 | a stored message passes again exactly when it still has 10 characters |
| `Contact.PaddedNameStoredBelowMinimum` | app/models/contact.py:17-21 | the name " J" is accepted and stored as "J", below the 2-character minimum |
| `Contact.PhoneValidationIdempotent` | app/models/contact.py:29-36 | a stored phone passes again unchanged |
| `Contact.PhoneDigitsIgnoreSeparators` | app/models/contact.py:33 | spaces and hyphens do not change the digit count |
| `Contact.BlankPhoneAccepted` | app/models/contact.py:31 | a whitespace-only phone, with no digit, is accepted as typed |
| `Contact.ExamplePhoneAccepted` | app/models/contact.py:44 | the documented example number is accepted as typed |

## Left out

- Network requests (the Unsplash search and the HEAD check) are not performed. Their replies are inputs in `World`. Timeouts, connection errors, bad JSON and missing fields all collapse into one failure value. A request is modelled as a log entry in `AssetManager.sent`.
- Cache files, directory creation and JSON encoding are not modelled. The cache is a map from key to entry. A file that cannot be read or decoded is an `Unreadable` entry, and a read failure behaves as a miss. A failed write is the `cacheWritable` flag of the world, and it changes nothing.
- A cache file whose `url` field is not a string is not modelled. Every readable entry holds a string URL.
- `datetime.now()` and ISO parsing are not modelled. The clock is an integer count of seconds per call, and the time box is 86400 seconds. One clock reading serves both the cache check and the cache write of a call.
- `hashlib.md5` and Python's randomised string `hash` are uninterpreted functions in `Config`. Only their determinism, and the range of `% 1000`, matter.
- Assets.AssetManager.constructor: takes the access key as an argument. The source hard-codes `"YOUR_UNSPLASH_ACCESS_KEY"`, which disables the search provider (`ShippedKeySkipsSearch`). The argument makes the search branch reachable.
- The exception path of `get_image` is the `keyFault` flag. Every later step catches its own exceptions, so computing the key is the only step left that can raise. `BaseException`s such as task cancellation are not modelled.
- Assets.AssetManager.GetImageGallery: runs the calls one after another in input order, each seeing the cache the previous one left. `asyncio.gather` interleaves them. With the same category twice in one gallery, the real calls may both miss where the model's second call hits.
- The default arguments are not modelled: 800x600 for `get_image`, 400x300 for `get_image_gallery` and the label "Professional Image" for `create_placeholder_svg`. Every operation takes its size, and the placeholder its label, explicitly.
- `fallback_services` (never read) and logging are not modelled. A search request is recorded by its query only. Its endpoint (`unsplash_base_url` + `/search/photos`), the Authorization header and the fixed `orientation`/`per_page`/`order_by` parameters are not part of `SearchRequest`.
- PyText.Digits: counts only the ASCII digits 0-9. Python's `str.isdigit` also accepts other Unicode digits (for example Arabic-Indic digits and superscripts).
- The `EmailStr` check of `email` is a library whose rules are not part of this model. Its verdict is the `emailAccepted` input. An accepted address is stored as given: the normalisation the library applies (stripping, a lower-case domain) is not modelled.
- pydantic's coercion of non-string inputs, its error messages, and the `ContactResponse` model are not modelled. `service` is accepted as any string.
- `main.py` (routing, templates, middleware), `app/services/email_service.py` (SMTP delivery) and `app/core/config.py` (settings) are not part of this model.
