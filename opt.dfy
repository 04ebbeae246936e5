/**
 * Window-local display options: Vim's 'wrap' (line-wrap) and 'linebreak'
 * (word-wrap), their builder, and the projection the viewport consumes.
 */
module Opt {

  /** Default of 'wrap': long lines continue on the next row. */
  const DEFAULT_WRAP: bool := true

  /** Default of 'linebreak': wrapping happens at any character, not only at word boundaries. */
  const DEFAULT_LINE_BREAK: bool := false

  /** The options a window owns. Getters are the two fields. */
  class WindowLocalOptions {
    var wrap: bool
    var lineBreak: bool

    /** The record with exactly these two flags. */
    constructor (wrap: bool, lineBreak: bool)
      ensures this.wrap == wrap && this.lineBreak == lineBreak
    {
      this.wrap := wrap;
      this.lineBreak := lineBreak;
    }

    /** A builder holding the default flags. */
    static method Builder() returns (b: WindowOptionsBuilder)
      ensures fresh(b)
      ensures b.wrap == DEFAULT_WRAP && b.lineBreak == DEFAULT_LINE_BREAK
    {
      b := new WindowOptionsBuilder.Default();
    }

    /** The default options, built by a default builder. */
    static method Default() returns (o: WindowLocalOptions)
      ensures fresh(o)
      ensures o.wrap && !o.lineBreak
    {
      var b := Builder();
      o := b.Build();
    }

    /** A new record with the same flags; changing one leaves the other alone. */
    method Clone() returns (c: WindowLocalOptions)
      ensures fresh(c)
      ensures c.wrap == wrap && c.lineBreak == lineBreak
    {
      c := new WindowLocalOptions(wrap, lineBreak);
    }

    method SetWrap(value: bool)
      modifies this
      ensures wrap == value
      ensures lineBreak == old(lineBreak)
    {
      wrap := value;
    }

    method SetLineBreak(value: bool)
      modifies this
      ensures lineBreak == value
      ensures wrap == old(wrap)
    {
      lineBreak := value;
    }
  }

  /** Collects the flags and then builds a `WindowLocalOptions`. */
  class WindowOptionsBuilder {
    var wrap: bool
    var lineBreak: bool

    constructor Default()
      ensures wrap == DEFAULT_WRAP && lineBreak == DEFAULT_LINE_BREAK
    {
      wrap := DEFAULT_WRAP;
      lineBreak := DEFAULT_LINE_BREAK;
    }

    /** Sets 'wrap' and hands back the same builder, for chaining. */
    method Wrap(value: bool) returns (b: WindowOptionsBuilder)
      modifies this
      ensures b == this
      ensures wrap == value && lineBreak == old(lineBreak)
    {
      wrap := value;
      b := this;
    }

    /** Sets 'linebreak' and hands back the same builder, for chaining. */
    method LineBreak(value: bool) returns (b: WindowOptionsBuilder)
      modifies this
      ensures b == this
      ensures lineBreak == value && wrap == old(wrap)
    {
      lineBreak := value;
      b := this;
    }

    /** A new record holding the builder's two flags; the builder can be reused. */
    method Build() returns (o: WindowLocalOptions)
      ensures fresh(o)
      ensures o.wrap == wrap && o.lineBreak == lineBreak
    {
      o := new WindowLocalOptions(wrap, lineBreak);
    }
  }

  /** The options a viewport lays its rows out by. */
  datatype ViewportOptions = ViewportOptions(wrap: bool, lineBreak: bool)
  {
    /** The viewport's view of a window's options, field for field. */
    static function From(o: WindowLocalOptions): (r: ViewportOptions)
      reads o
      ensures r.wrap == o.wrap && r.lineBreak == o.lineBreak
    {
      ViewportOptions(o.wrap, o.lineBreak)
    }
  }

  /**
   * The two builds of the unit test: chaining both setters to true and then
   * building gives both flags on; building a fresh builder gives the defaults.
   */
  method BuildScenario() returns (both: WindowLocalOptions, defaults: WindowLocalOptions)
    ensures both.wrap && both.lineBreak
    ensures defaults.wrap && !defaults.lineBreak
  {
    var builder := new WindowOptionsBuilder.Default();
    var b1 := builder.Wrap(true);
    var b2 := b1.LineBreak(true);
    both := b2.Build();
    var b3 := WindowLocalOptions.Builder();
    defaults := b3.Build();
  }

  /**
   * Toggling 'wrap' on and then off leaves the record equal to one built
   * with `wrap(false)` and the record's own 'linebreak': the last write wins.
   */
  method ToggleWrapLastWriteWins(o: WindowLocalOptions) returns (built: WindowLocalOptions)
    modifies o
    ensures fresh(built)
    ensures !o.wrap && o.lineBreak == old(o.lineBreak)
    ensures ViewportOptions.From(o) == ViewportOptions.From(built)
  {
    o.SetWrap(true);
    o.SetWrap(false);
    var b := WindowLocalOptions.Builder();
    var b1 := b.Wrap(false);
    var b2 := b1.LineBreak(o.lineBreak);
    built := b2.Build();
  }
}
