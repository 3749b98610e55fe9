/** The parts of the Android framework that FontManager calls, reduced to
    what its behaviour depends on: which asset paths hold a decodable font,
    which string resources exist, the "font" attribute of a layout
    declaration, and the typeface property of a text widget. */
module Android {

  import opened Wrappers

  /** Java `int`, the type of a resource id. */
  newtype int32 = x: int | -0x8000_0000 <= x < 0x8000_0000

  /** A decoded font. Typeface objects are compared by reference, so a
      typeface is identified by the asset store that decoded it and by
      `serial`, the number of that store's decoder call that allocated it
      (see AssetManager.calls). Two decodes, through one store or two,
      never give the same typeface. */
  datatype Typeface = Typeface(store: AssetManager, serial: nat)

  /** The exceptions on FontManager's paths. All of them are unchecked. */
  datatype Exception =
    | AssetException(path: string)    // thrown by Typeface.createFromAsset: no such asset, or not a font
    | NotFoundException(resId: int32) // Resources.NotFoundException thrown by getString
    | RuntimeException(message: string)

  /** The outcome of a Java call: a value, or the exception it throws. */
  datatype Result<+T> = Ok(value: T) | Err(error: Exception)

  /** Typeface.createFromAsset, as a function of the asset store and of the
      number of the call on it: every successful call allocates a new
      typeface. */
  function CreateFromAsset(store: AssetManager, call: nat, path: string): (r: Result<Typeface>)
    ensures r.Ok? <==> path in store.fonts
    ensures r.Ok? ==> r.value.store == store && r.value.serial == call
    ensures r.Err? ==> r.error == AssetException(path)
  {
    if path in store.fonts then Ok(Typeface(store, call)) else Err(AssetException(path))
  }

  /** Resources.getString: the string resource with id `id`, or
      Resources.NotFoundException carrying that id. */
  function GetString(strings: map<int32, string>, id: int32): (r: Result<string>)
    ensures r.Ok? <==> id in strings
    ensures r.Ok? ==> r.value == strings[id]
    ensures r.Err? ==> r.error == NotFoundException(id)
  {
    if id in strings then Ok(strings[id]) else Err(NotFoundException(id))
  }

  /** TextUtils.isEmpty: null or of length zero. */
  predicate IsEmpty(s: Option<string>): (b: bool)
    ensures b <==> s.None? || |s.value| == 0
  {
    s.None? || s.value == ""
  }

  /** An AttributeSet parsed from a layout declaration, reduced to the value
      of the library's "font" attribute (None when it is not declared). */
  datatype AttributeSet = AttributeSet(font: Option<string>)

  /** The asset store reached through Context.getAssets(). */
  class AssetManager {
    /** Asset paths that hold a decodable font file. */
    const fonts: set<string>
    /** Number of Typeface.createFromAsset calls made on this store so far. */
    var calls: nat

    constructor (fonts: set<string>)
      ensures this.fonts == fonts && calls == 0
    {
      this.fonts := fonts;
      calls := 0;
    }

    /** Typeface.createFromAsset(this, path). */
    method CreateTypeface(path: string) returns (r: Result<Typeface>)
      modifies this
      ensures r == CreateFromAsset(this, old(calls), path)
      ensures calls == old(calls) + 1
    {
      r := CreateFromAsset(this, calls, path);
      calls := calls + 1;
    }
  }

  /** A Context: its assets, its string resources, and the styled-attribute
      arrays its theme has handed out. */
  class Context {
    const assets: AssetManager
    const strings: map<int32, string>
    /** TypedArrays obtained from the theme so far. */
    var obtained: nat
    /** TypedArrays recycled so far. */
    var recycled: nat

    constructor (assets: AssetManager, strings: map<int32, string>)
      ensures this.assets == assets && this.strings == strings
      ensures obtained == 0 && recycled == 0
    {
      this.assets := assets;
      this.strings := strings;
      obtained, recycled := 0, 0;
    }

    /** getTheme().obtainStyledAttributes(attrs, R.styleable.TextView, 0, 0). */
    method ObtainStyledAttributes(attrs: AttributeSet) returns (a: TypedArray)
      modifies this
      ensures fresh(a) && a.owner == this && a.font == attrs.font && !a.recycled
      ensures obtained == old(obtained) + 1 && recycled == old(recycled)
    {
      a := new TypedArray(this, attrs.font);
      obtained := obtained + 1;
    }
  }

  /** A TypedArray holding the styled attributes of one widget. */
  class TypedArray {
    const owner: Context
    /** getString(R.styleable.TextView_font). */
    const font: Option<string>
    var recycled: bool

    constructor (owner: Context, font: Option<string>)
      ensures this.owner == owner && this.font == font && !recycled
    {
      this.owner := owner;
      this.font := font;
      recycled := false;
    }

    /** recycle(): hands the array back to the theme. */
    method Recycle()
      requires !recycled
      modifies this, owner
      ensures recycled
      ensures owner.recycled == old(owner.recycled) + 1 && owner.obtained == old(owner.obtained)
    {
      recycled := true;
      owner.recycled := owner.recycled + 1;
    }
  }

  /** A TextView, reduced to its context and its typeface (None: the
      platform default). */
  class TextView {
    const context: Context
    var typeface: Option<Typeface>

    constructor (context: Context)
      ensures this.context == context && typeface.None?
    {
      this.context := context;
      typeface := None;
    }

    /** setTypeface(t). */
    method SetTypeface(t: Typeface)
      modifies this
      ensures typeface == Some(t)
    {
      typeface := Some(t);
    }
  }
}
