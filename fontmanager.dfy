/** FontManager: the process-wide typeface cache and the routine that applies
    a layout's "font" attribute to a TextView. GetTypeface and
    GetTypefaceByResId are proved equal to FontCache.Fetch and
    FontCache.FetchById; ApplyFont is specified case by case through Fetch;
    GetInstance and the constructors are specified directly. */
module Fonts {

  import opened Wrappers
  import opened Android
  import opened FontCache

  class FontManager {
    /** mFontCache: asset path to the typeface decoded from it. */
    var cache: map<string, Typeface>

    constructor ()
      ensures cache == map[]
    {
      cache := map[];
    }

    /** getTypeface(context, path). */
    method GetTypeface(context: Context, path: string) returns (r: Result<Typeface>)
      modifies this, context.assets
      ensures Lookup(r, cache, context.assets.calls)
              == Fetch(old(cache), context.assets, old(context.assets.calls), path)
    {
      if path in cache {
        return Ok(cache[path]);
      }
      var typeface := context.assets.CreateTypeface(path);
      if typeface.Err? {
        return typeface;  // thrown before the put
      }
      cache := cache[path := typeface.value];
      return typeface;
    }

    /** getTypeface(context, pathResId). */
    method GetTypefaceByResId(context: Context, pathResId: int32) returns (r: Result<Typeface>)
      modifies this, context.assets
      ensures Lookup(r, cache, context.assets.calls)
              == FetchById(old(cache), context.assets, old(context.assets.calls),
                           context.strings, pathResId)
    {
      // try
      var path := GetString(context.strings, pathResId);
      if path.Ok? {
        r := GetTypeface(context, path.value);
      } else {
        r := Err(path.error);
      }
      // catch (Resources.NotFoundException exception)
      if r.Err? && r.error.NotFoundException? {
        r := Err(RuntimeException(ResourceNotFoundMessage(pathResId)));
      }
    }

    /** applyFont(textView, attrs); `attrs` is None for a null AttributeSet.
        The result is the exception the call throws, if any. */
    method ApplyFont(textView: TextView, attrs: Option<AttributeSet>) returns (outcome: Result<()>)
      modifies this, textView, textView.context, textView.context.assets
      // no attribute set: nothing happens
      ensures attrs.None? ==>
        && outcome == Ok(())
        && cache == old(cache)
        && unchanged(textView, textView.context, textView.context.assets)
      // an attribute set: the styled attributes are obtained once
      ensures attrs.Some? ==>
        textView.context.obtained == old(textView.context.obtained) + 1
      // no font, or an empty one: no lookup, the widget keeps its typeface
      ensures attrs.Some? && IsEmpty(attrs.value.font) ==>
        && outcome == Ok(())
        && cache == old(cache)
        && textView.typeface == old(textView.typeface)
        && textView.context.assets.calls == old(textView.context.assets.calls)
        && textView.context.recycled == old(textView.context.recycled) + 1
      // a font path: the widget gets the cache's typeface for it; if the
      // lookup throws, the exception propagates, the widget is untouched and
      // the styled attributes are not recycled
      ensures attrs.Some? && !IsEmpty(attrs.value.font) ==>
        var f := Fetch(old(cache), textView.context.assets,
                       old(textView.context.assets.calls), attrs.value.font.value);
        && cache == f.cache
        && textView.context.assets.calls == f.calls
        && (f.result.Ok? ==>
              && outcome == Ok(())
              && textView.typeface == Some(f.result.value)
              && textView.context.recycled == old(textView.context.recycled) + 1)
        && (f.result.Err? ==>
              && outcome == Err(f.result.error)
              && textView.typeface == old(textView.typeface)
              && textView.context.recycled == old(textView.context.recycled))
    {
      if attrs.Some? {
        var context := textView.context;
        var styledAttributes := context.ObtainStyledAttributes(attrs.value);
        var fontPath := styledAttributes.font;
        if !IsEmpty(fontPath) {
          var typeface := GetTypeface(context, fontPath.value);
          if typeface.Err? {
            return Err(typeface.error);
          }
          // the `typeface != null` guard always holds: Ok carries a typeface
          textView.SetTypeface(typeface.value);
        }
        styledAttributes.Recycle();
      }
      outcome := Ok(());
    }
  }

  /** The static field sInstance of FontManager. Dafny has no mutable static
      fields, so the process holds it in the one object of this class. */
  class FontManagerStatics {
    var sInstance: FontManager?

    constructor ()
      ensures sInstance == null
    {
      sInstance := null;
    }

    /** getInstance(): created, with an empty cache, on the first call only. */
    method GetInstance() returns (m: FontManager)
      modifies this
      ensures old(sInstance) != null ==> m == old(sInstance)
      ensures old(sInstance) == null ==> fresh(m) && m.cache == map[]
      ensures sInstance == m
    {
      if sInstance == null {
        sInstance := new FontManager();
      }
      return sInstance;
    }
  }

  /** Two getInstance calls share one cache: a typeface cached through the
      first is served by the second without decoding it again. */
  method SharedInstanceServesCachedTypeface(statics: FontManagerStatics, context: Context, path: string)
      returns (first: Result<Typeface>, second: Result<Typeface>)
    modifies statics, statics.sInstance, context.assets
    ensures first.Ok? ==> second == first
    ensures first.Ok? ==> context.assets.calls <= old(context.assets.calls) + 1
  {
    var a := statics.GetInstance();
    first := a.GetTypeface(context, path);
    var b := statics.GetInstance();
    second := b.GetTypeface(context, path);
  }

  /** The one cache serves contexts with different asset stores: requests
      for two different paths, through any two contexts, that both succeed
      return two different typefaces, and the cache stays well formed for
      both stores. */
  method TwoContextsGetDistinctTypefaces(m: FontManager, c1: Context, c2: Context, p1: string, p2: string)
      returns (x: Result<Typeface>, y: Result<Typeface>)
    requires p1 != p2
    requires WellFormed(m.cache, c1.assets, c1.assets.calls)
    requires WellFormed(m.cache, c2.assets, c2.assets.calls)
    modifies m, c1.assets, c2.assets
    ensures x.Ok? && y.Ok? ==> x.value != y.value
    ensures WellFormed(m.cache, c1.assets, c1.assets.calls)
    ensures WellFormed(m.cache, c2.assets, c2.assets.calls)
  {
    ghost var cache0, calls1, calls2 := m.cache, c1.assets.calls, c2.assets.calls;
    x := m.GetTypeface(c1, p1);
    FetchKeepsWellFormed(cache0, c1.assets, calls1, p1);
    if c1.assets != c2.assets {
      FetchKeepsOtherStoresWellFormed(cache0, c1.assets, calls1, p1, c2.assets, calls2);
    }
    ghost var cache1, calls1', calls2' := m.cache, c1.assets.calls, c2.assets.calls;
    y := m.GetTypeface(c2, p2);
    FetchKeepsWellFormed(cache1, c2.assets, calls2', p2);
    if c1.assets != c2.assets {
      FetchKeepsOtherStoresWellFormed(cache1, c2.assets, calls2', p2, c1.assets, calls1');
    }
  }
}
