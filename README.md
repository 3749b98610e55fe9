# SmartFonts FontManager in Dafny

SmartFonts is an Android library that loads custom fonts (typefaces) from an application's bundled assets. It has one class, `FontManager`, which is a process-wide singleton. `FontManager` keeps a cache (`mFontCache`) from asset path to decoded `Typeface`:

- `getTypeface(context, path)` returns the cached typeface on a hit. On a miss it decodes the asset, caches the result and returns it.
- `getTypeface(context, pathResId)` first resolves a string resource to a path and then does the same lookup.
- `applyFont(textView, attrs)` reads the `font` attribute from a layout declaration and sets the widget's typeface to the cached one.

The model has four modules:

- `Android` holds the framework primitives that `FontManager` calls:
  - `Typeface.createFromAsset`: decodes the font only if the path is in the asset store's set of decodable fonts.
  - `Resources.getString`: a lookup in a map of string resources.
  - `obtainStyledAttributes`, `TypedArray.getString` and `recycle`.
  - `TextUtils.isEmpty`: true for a null or zero-length string.
  - `TextView.setTypeface`.

  A Java exception is the `Err` case of `Result`. A Java `Typeface` is compared by reference. So a typeface is identified by the asset store that decoded it and by the number of that store's decoder call that allocated it. Two decodes never give the same typeface, whether they go through one store or through the stores of two contexts. Each `AssetManager` counts its decoder calls, which makes "the decoder was not called" something a contract can state.
- `Decimal` models Java's `int`-to-text conversion, used when the error message is built from the resource id. It also has the parse that inverts that conversion.
- `FontCache` is the reference model:
  - `Fetch` is the memoised lookup and `FetchById` is the resource-id overload. Both are functions of the cache, the asset store and the decoder-call count.
  - `Replay` runs any sequence of requests, made through one context's store, against the one shared cache.
  - Lemmas prove memoisation, monotonicity, no insertion on failure, and distinct handles for distinct paths.
- `Fonts` holds the class `FontManager`. Its `cache` field is updated in place. `GetTypeface` and `GetTypefaceByResId` are proved equal to `Fetch` and `FetchById`; `ApplyFont` is specified case by case through `Fetch`. `FontManagerStatics` holds the static `sInstance` field, and its `GetInstance` states the lazy creation directly.

## Model

| member | source | states |
|---|---|---|
| `Android.CreateFromAsset` | smartfontslib/src/main/java/fr/arnaudguyon/smartfontslib/FontManager.java:61 | decoding succeeds exactly for paths that hold a font; the new typeface is identified by the store that decoded it and the number of the call; a failure is the exception for that path |
| `Android.AssetManager.CreateTypeface` | smartfontslib/src/main/java/fr/arnaudguyon/smartfontslib/FontManager.java:61 | one decoder call: its result is `CreateFromAsset` for the current call number, and the call count goes up by one |
| `Android.GetString` | smartfontslib/src/main/java/fr/arnaudguyon/smartfontslib/FontManager.java:76 | succeeds exactly when the id is a string resource and then returns that string; otherwise it is Resources.NotFoundException carrying the id |
| `Android.Context.ObtainStyledAttributes` | smartfontslib/src/main/java/fr/arnaudguyon/smartfontslib/FontManager.java:92 | returns a new, unrecycled TypedArray holding the attribute set's `font` value; one more array is counted as obtained |
| `Android.TypedArray.Recycle` | smartfontslib/src/main/java/fr/arnaudguyon/smartfontslib/FontManager.java:100 | marks the array recycled and counts one more recycled array for its context |
| `Android.IsEmpty` | smartfontslib/src/main/java/fr/arnaudguyon/smartfontslib/FontManager.java:94 | true exactly for a missing (null) or zero-length font value |
| `Android.TextView.SetTypeface` | smartfontslib/src/main/java/fr/arnaudguyon/smartfontslib/FontManager.java:97 | the widget's typeface becomes the given one |
| `Decimal.NatToDecimal` | smartfontslib/src/main/java/fr/arnaudguyon/smartfontslib/FontManager.java:79 | the decimal text of a number is non-empty, all digits, and has no leading zero; a number below 10 is a single digit |
| `Decimal.IntToString` | smartfontslib/src/main/java/fr/arnaudguyon/smartfontslib/FontManager.java:79 | Java's text of an int starts with a minus sign exactly when the int is negative; the rest is digits, with no leading zero unless the int is 0 |
| `Decimal.DecimalRoundTrip` | smartfontslib/src/main/java/fr/arnaudguyon/smartfontslib/FontManager.java:79 | parsing the decimal text of n gives back n |
| `Decimal.IntToStringRoundTrip` | smartfontslib/src/main/java/fr/arnaudguyon/smartfontslib/FontManager.java:79 | parsing the text of any int, negative ones included, gives back that int |
| `Decimal.IntToStringInjective` | smartfontslib/src/main/java/fr/arnaudguyon/smartfontslib/FontManager.java:79 | two ints with the same text are equal |
| `FontCache.Fetch` | smartfontslib/src/main/java/fr/arnaudguyon/smartfontslib/FontManager.java:58-65 | a hit returns the stored typeface with no decoder call and no change. A miss makes one decoder call and returns its result. A returned typeface is the one now cached under the path. A failure caches nothing. Only the entry for the path can change, and no entry is removed or replaced |
| `FontCache.ResourceNotFoundMessage` | smartfontslib/src/main/java/fr/arnaudguyon/smartfontslib/FontManager.java:79 | the message is "String resource id " + the id's text + " not found" |
| `FontCache.ResourceNotFoundMessageNamesId` | smartfontslib/src/main/java/fr/arnaudguyon/smartfontslib/FontManager.java:79-80 | the id can be read back from the message the exception carries |
| `FontCache.ResourceNotFoundMessageInjective` | smartfontslib/src/main/java/fr/arnaudguyon/smartfontslib/FontManager.java:79-80 | different ids give different messages |
| `FontCache.FetchById` | smartfontslib/src/main/java/fr/arnaudguyon/smartfontslib/FontManager.java:74-82 | an unresolvable id gives a RuntimeException with that id's message and changes nothing. A resolvable id gives exactly the result, cache and decoder calls of the path lookup on the resolved string. The catch only ever sees NotFoundException from getString |
| `FontCache.FetchIdempotent` | smartfontslib/src/main/java/fr/arnaudguyon/smartfontslib/FontManager.java:58-65 | after a successful lookup, a second lookup of the same path returns the identical typeface with no decoder call and no change |
| `FontCache.FetchKeepsWellFormed` | smartfontslib/src/main/java/fr/arnaudguyon/smartfontslib/FontManager.java:59-62 | each lookup through a store keeps every typeface that store decoded older than its next decoder call, and no typeface cached under two paths |
| `FontCache.FetchKeepsOtherStoresWellFormed` | smartfontslib/src/main/java/fr/arnaudguyon/smartfontslib/FontManager.java:59-62 | the cache is shared by all contexts: a lookup through one store keeps the cache well formed for every other store |
| `FontCache.Replay` | smartfontslib/src/main/java/fr/arnaudguyon/smartfontslib/FontManager.java:58-65 | any sequence of lookups gives one result per request, keeps every entry cached before it, and never lowers the decoder-call count |
| `FontCache.ReplayPrefix` | smartfontslib/src/main/java/fr/arnaudguyon/smartfontslib/FontManager.java:58-65 | later requests do not change the results of earlier ones |
| `FontCache.ReplayCachesResults` | smartfontslib/src/main/java/fr/arnaudguyon/smartfontslib/FontManager.java:59-64 | after any sequence, each typeface it returned is still the one cached under its path |
| `FontCache.ReplayMemoises` | smartfontslib/src/main/java/fr/arnaudguyon/smartfontslib/FontManager.java:58-65 | once a path has been served, each later request for it returns the identical typeface without a decoder call |
| `FontCache.ReplayFailureNotCached` | smartfontslib/src/main/java/fr/arnaudguyon/smartfontslib/FontManager.java:60-62 | a path whose request failed holds no font and is absent from the cache after the whole sequence |
| `FontCache.ReplayOnlyCachesFonts` | smartfontslib/src/main/java/fr/arnaudguyon/smartfontslib/FontManager.java:60-62 | a sequence caches only paths that were already cached or that hold a decodable font |
| `FontCache.ReplayKeepsWellFormed` | smartfontslib/src/main/java/fr/arnaudguyon/smartfontslib/FontManager.java:60-62 | a sequence that starts from a well-formed cache leaves it well formed |
| `FontCache.ReplayDistinctPathsDistinctTypefaces` | smartfontslib/src/main/java/fr/arnaudguyon/smartfontslib/FontManager.java:60-62 | two successful requests for different paths, through one context's store, return different typefaces |
| `Fonts.FontManager.constructor` | smartfontslib/src/main/java/fr/arnaudguyon/smartfontslib/FontManager.java:38 | a new manager's cache is empty |
| `Fonts.FontManager.GetTypeface` | smartfontslib/src/main/java/fr/arnaudguyon/smartfontslib/FontManager.java:58-65 | the result, the new cache and the decoder calls are exactly those of `Fetch` applied to the old cache |
| `Fonts.FontManager.GetTypefaceByResId` | smartfontslib/src/main/java/fr/arnaudguyon/smartfontslib/FontManager.java:74-82 | the result, the new cache and the decoder calls are exactly those of `FetchById` applied to the old cache |
| `Fonts.FontManager.ApplyFont` | smartfontslib/src/main/java/fr/arnaudguyon/smartfontslib/FontManager.java:89-102 | a null attribute set changes nothing. A missing or empty font changes neither the cache nor the widget, makes no decoder call, and recycles the array. A font path updates the cache as `Fetch` does. On success the widget gets the returned typeface and the array is recycled. On failure the exception propagates, the widget keeps its typeface, and the array is not recycled |
| `Fonts.FontManagerStatics.constructor` | smartfontslib/src/main/java/fr/arnaudguyon/smartfontslib/FontManager.java:37 | before the first getInstance there is no instance |
| `Fonts.FontManagerStatics.GetInstance` | smartfontslib/src/main/java/fr/arnaudguyon/smartfontslib/FontManager.java:44-49 | the first call creates a manager with an empty cache and stores it. Each later call returns that same object and changes nothing |
| `Fonts.SharedInstanceServesCachedTypeface` | smartfontslib/src/main/java/fr/arnaudguyon/smartfontslib/FontManager.java:44-65 | a typeface cached through one getInstance result is served by the next: same typeface, at most one decoder call in total |
| `Fonts.TwoContextsGetDistinctTypefaces` | smartfontslib/src/main/java/fr/arnaudguyon/smartfontslib/FontManager.java:58-65 | two successful lookups of different paths on one manager, through any two contexts, return different typefaces, and the cache stays well formed for both contexts' stores |

## Left out

- Font decoding, the contents of the asset store and `Context.getAssets`: the decoder is modelled only by which paths decode successfully, and a successful decode yields a new typeface. The platform's exception message for a missing asset is not modelled; it is `AssetException(path)`.
- Resource resolution: `Context.getResources()` and `Resources.getString` are a fixed map from id to string.
- Theme and attribute parsing: `getTheme()`, `R.styleable.TextView` and `TypedArray.getString(R.styleable.TextView_font)` are reduced to the `font` value an `AttributeSet` carries.
- Text rendering and every other `TextView` property: only the typeface field is modelled.
- Thread safety: calls are single-threaded. The check-then-insert race on `sInstance` and `mFontCache` is outside the model.
- Null values stored in the map are not modelled. The decoder throws instead of returning null. So the `typeface != null` test in `applyFont` always passes, and the model has no branch for it.
- Android's `TypedArray.recycle` throws when an array is recycled twice; the model instead requires an unrecycled array. `applyFont` only recycles the fresh array it has just obtained.
- Release of the styled-attribute array on failure: `recycle` at line 100 is outside any `finally` block, so a lookup that throws leaves the array unrecycled. `Fonts.FontManager.ApplyFont` states that behaviour.
- `FontCache.Replay`: the trace and its lemmas cover requests made through one asset store. Requests through the stores of several contexts are covered one call at a time, by `FontCache.FetchKeepsOtherStoresWellFormed` and `Fonts.TwoContextsGetDistinctTypefaces`.
