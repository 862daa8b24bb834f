/**
 * The render settings main.go writes into the QR symbol (lines 82-101): the
 * border flag, then the colour overrides, then the invert swap.
 */
module Render {
  import opened Wrappers
  import opened GoBytes
  import opened HexColor

  /** The default values of `-fg` and `-bg`. */
  const DefaultForeground: GoString := "000000"
  const DefaultBackground: GoString := "ffffff"

  datatype Palette = Palette(fg: RGBA, bg: RGBA)

  /**
   * The colour one `-fg`/`-bg` string leaves in place of `current`: untouched
   * when the string is the option's default literal, otherwise the decoded
   * string. None stands for the runtime panic of decoding a string shorter
   * than six bytes.
   */
  function Override(s: GoString, literal: GoString, current: RGBA): (r: Option<RGBA>)
    ensures r.None? <==> s != literal && |s| < 6
    ensures s == literal ==> r == Some(current)
    ensures s != literal && |s| >= 6 ==> r == Some(ParseColor(s))
  {
    if s == literal then Some(current)
    else if |s| < 6 then None
    else Some(ParseColor(s))
  }

  /**
   * The colours after lines 92-101, starting from `fg0` and `bg0`: both
   * overrides first, then the swap when `negative` is set.
   */
  function ConfiguredColors(fg0: RGBA, bg0: RGBA, fgStr: GoString, bgStr: GoString, negative: bool): (r: Option<Palette>)
    ensures r.None? <==> Override(fgStr, DefaultForeground, fg0).None? || Override(bgStr, DefaultBackground, bg0).None?
    ensures r.Some? ==> Some(if negative then r.value.bg else r.value.fg) == Override(fgStr, DefaultForeground, fg0)
    ensures r.Some? ==> Some(if negative then r.value.fg else r.value.bg) == Override(bgStr, DefaultBackground, bg0)
  {
    match (Override(fgStr, DefaultForeground, fg0), Override(bgStr, DefaultBackground, bg0))
    case (Some(f), Some(b)) => Some(if negative then Palette(b, f) else Palette(f, b))
    case _ => None
  }

  /** The part of go-qrcode's `QRCode` that main.go changes in place. */
  class QrCode {
    const content: GoString
    var disableBorder: bool
    var foregroundColor: RGBA
    var backgroundColor: RGBA

    /** `qrcode.New` once it has accepted `content`: border on, library default colours. */
    constructor New(content: GoString)
      ensures this.content == content
      ensures !disableBorder && foregroundColor == Black && backgroundColor == White
    {
      this.content := content;
      disableBorder := false;
      foregroundColor := Black;
      backgroundColor := White;
    }

    /** Lines 82-84: `-d` switches the border off; nothing switches it back on. */
    method ApplyBorder(disable: bool)
      modifies this
      ensures disableBorder == (old(disableBorder) || disable)
      ensures foregroundColor == old(foregroundColor) && backgroundColor == old(backgroundColor)
    {
      if disable {
        disableBorder := true;
      }
    }

    /**
     * Lines 92-101. `panicked` reports the runtime panic of a non-default
     * colour string shorter than six bytes; the fields are then of no further
     * interest, since the process dies.
     */
    method ApplyColors(fgStr: GoString, bgStr: GoString, negative: bool) returns (panicked: bool)
      modifies this
      ensures disableBorder == old(disableBorder)
      ensures panicked <==> ConfiguredColors(old(foregroundColor), old(backgroundColor), fgStr, bgStr, negative).None?
      ensures !panicked ==>
        Some(Palette(foregroundColor, backgroundColor))
          == ConfiguredColors(old(foregroundColor), old(backgroundColor), fgStr, bgStr, negative)
    {
      if fgStr != DefaultForeground {
        if |fgStr| < 6 {
          return true;
        }
        foregroundColor := ParseColor(fgStr);
      }
      if bgStr != DefaultBackground {
        if |bgStr| < 6 {
          return true;
        }
        backgroundColor := ParseColor(bgStr);
      }
      if negative {
        foregroundColor, backgroundColor := backgroundColor, foregroundColor;
      }
      return false;
    }
  }

  // ---------------------------------------------------------------------
  // Properties of the colour configuration.

  /** Decoding panics exactly when a non-default colour string is shorter than six bytes. */
  lemma PanicsIff(fg0: RGBA, bg0: RGBA, fgStr: GoString, bgStr: GoString, negative: bool)
    ensures ConfiguredColors(fg0, bg0, fgStr, bgStr, negative).None?
        <==> (fgStr != DefaultForeground && |fgStr| < 6) || (bgStr != DefaultBackground && |bgStr| < 6)
  {
  }

  /**
   * The swap comes after the overrides: with `-i` the colours are those
   * without it, exchanged, whether they are defaults or overrides.
   */
  lemma InvertSwapsAfterOverrides(fg0: RGBA, bg0: RGBA, fgStr: GoString, bgStr: GoString)
    ensures ConfiguredColors(fg0, bg0, fgStr, bgStr, true).None?
        == ConfiguredColors(fg0, bg0, fgStr, bgStr, false).None?
    ensures ConfiguredColors(fg0, bg0, fgStr, bgStr, false).Some? ==>
      var plain := ConfiguredColors(fg0, bg0, fgStr, bgStr, false).value;
      ConfiguredColors(fg0, bg0, fgStr, bgStr, true) == Some(Palette(plain.bg, plain.fg))
  {
  }

  /**
   * Skipping the decode of a default literal changes nothing: with the
   * library's black and white, the shortcut gives what decoding would.
   */
  lemma DefaultShortcutAgrees(s: GoString)
    requires |s| >= 6
    ensures Override(s, DefaultForeground, Black) == Some(ParseColor(s))
    ensures Override(s, DefaultBackground, White) == Some(ParseColor(s))
  {
    ParseColorExamples();
  }

  /** `-i` alone: white on black. */
  lemma InvertAlone()
    ensures ConfiguredColors(Black, White, DefaultForeground, DefaultBackground, true)
         == Some(Palette(White, Black))
  {
  }

  /** `-fg ff0000 -bg 00ff00 -i`: the overrides, then the swap. */
  lemma OverrideThenSwap()
    ensures ConfiguredColors(Black, White, "ff0000", "00ff00", true)
         == Some(Palette(RGBA(0, 255, 0, 255), RGBA(255, 0, 0, 255)))
  {
  }
}
