/**
 * DialogProStyles: builds the chat widget's CSS from the settings, and prints
 * it inside a <style> element, reusing the copy kept in a transient. The
 * esc_attr and esc_html escapers are abstract functions; the CSS rules keep
 * the source's declarations and their order, written on one line each.
 */
module Styling {
  import opened Php
  import opened PluginSettings

  /** The transient holding the generated CSS. */
  const CacheKey: string := "dialogpro_custom_css"
  const CacheTime: int := 3600

  const StyleOpen: string := "\n<!-- DialogPro Custom Styles -->\n<style type='text/css'>\n"
  const StyleClose: string := "\n</style>\n"

  /** What PHP raises when the sixth part is requested: no such method exists on the class. */
  const UndefinedThemeMethod: string := "Call to undefined method DialogProStyles::generate_theme_integration_css()"

  // ---------------------------------------------------------------------
  // Colours
  // ---------------------------------------------------------------------

  /** ltrim($s, '#'): drops every leading '#'. */
  function LtrimHash(s: string): (r: string)
    ensures |r| <= |s| && r == s[|s| - |r|..]
    ensures r == [] || r[0] != '#'
  {
    if s != [] && s[0] == '#' then LtrimHash(s[1..]) else s
  }

  /** substr($s, $start, $len) for a non-negative start and length (PHP 8: "" past the end). */
  function Substr(s: string, start: nat, len: nat): (r: string)
    ensures |r| <= len
  {
    if start >= |s| then "" else if start + len <= |s| then s[start..start + len] else s[start..]
  }

  /** max(min($n, 255), 0). */
  function ClampByte(n: int): (c: nat)
    ensures c <= 255
    ensures 0 <= n <= 255 ==> c == n
    ensures n < 0 ==> c == 0
    ensures n > 255 ==> c == 255
  {
    if n > 255 then 255 else if n < 0 then 0 else n
  }

  /** The channel adjust_brightness reads at `start`: hexdec of two characters of the colour, '#'s stripped. */
  function ChannelOf(hex: string, start: nat): nat
  {
    DigitsChannel(LtrimHash(hex), start)
  }

  /** hexdec of the two digits at `start`. */
  function DigitsChannel(digits: string, start: nat): nat
  {
    HexDec(Substr(digits, start, 2))
  }

  /** adjust_brightness($hex, $steps): each channel moved by `steps` and clamped to 0..255, as "#rrggbb". */
  function AdjustBrightness(hex: string, steps: int): (r: string)
    ensures |r| == 7 && r[0] == '#'
    ensures forall k :: 1 <= k < 7 ==> IsLowerHexDigit(r[k])
  {
    AdjustDigits(LtrimHash(hex), steps)
  }

  /** The colour built from the digits left once the '#'s are stripped. */
  function AdjustDigits(digits: string, steps: int): (r: string)
    ensures |r| == 7 && r[0] == '#'
    ensures forall k :: 1 <= k < 7 ==> IsLowerHexDigit(r[k])
  {
    "#" + Hex2(ClampByte(DigitsChannel(digits, 0) + steps))
        + Hex2(ClampByte(DigitsChannel(digits, 2) + steps))
        + Hex2(ClampByte(DigitsChannel(digits, 4) + steps))
  }

  /** Reading the result back channel by channel gives the clamped, shifted input channels. */
  lemma AdjustBrightnessChannels(hex: string, steps: int)
    ensures ChannelOf(AdjustBrightness(hex, steps), 0) == ClampByte(ChannelOf(hex, 0) + steps)
    ensures ChannelOf(AdjustBrightness(hex, steps), 2) == ClampByte(ChannelOf(hex, 2) + steps)
    ensures ChannelOf(AdjustBrightness(hex, steps), 4) == ClampByte(ChannelOf(hex, 4) + steps)
  {
    DigitsChannels(LtrimHash(hex), steps);
  }

  /** The channels of the colour built from some digits. */
  lemma DigitsChannels(digits: string, steps: int)
    ensures ChannelOf(AdjustDigits(digits, steps), 0) == ClampByte(DigitsChannel(digits, 0) + steps)
    ensures ChannelOf(AdjustDigits(digits, steps), 2) == ClampByte(DigitsChannel(digits, 2) + steps)
    ensures ChannelOf(AdjustDigits(digits, steps), 4) == ClampByte(DigitsChannel(digits, 4) + steps)
  {
    var c0, c1, c2 := ClampByte(DigitsChannel(digits, 0) + steps), ClampByte(DigitsChannel(digits, 2) + steps),
                      ClampByte(DigitsChannel(digits, 4) + steps);
    ChannelsOfColour(Hex2(c0), Hex2(c1), Hex2(c2));
    HexDecOfHex2(c0);
    HexDecOfHex2(c1);
    HexDecOfHex2(c2);
  }

  /** The channels of "#" + a + b + c are the values of a, b and c. */
  lemma ChannelsOfColour(a: string, b: string, c: string)
    requires |a| == 2 && |b| == 2 && |c| == 2 && a[0] != '#'
    ensures ChannelOf("#" + a + b + c, 0) == HexDec(a)
    ensures ChannelOf("#" + a + b + c, 2) == HexDec(b)
    ensures ChannelOf("#" + a + b + c, 4) == HexDec(c)
  {
    var r := "#" + a + b + c;
    var t := a + b + c;
    assert r[1..] == t;
    assert LtrimHash(r) == t by {
      assert LtrimHash(t) == t;
    }
    assert Substr(t, 0, 2) == a;
    assert Substr(t, 2, 2) == b;
    assert Substr(t, 4, 2) == c;
  }

  /** A leading '#' makes no difference. */
  lemma AdjustBrightnessHashOptional(hex: string, steps: int)
    ensures AdjustBrightness("#" + hex, steps) == AdjustBrightness(hex, steps)
  {
    LtrimHashOfHash(hex);
  }

  lemma LtrimHashOfHash(hex: string)
    ensures LtrimHash("#" + hex) == LtrimHash(hex)
  {
    assert ("#" + hex)[1..] == hex;
  }

  predicate IsLowerHexColour(s: string)
  {
    |s| == 7 && s[0] == '#' && forall k :: 1 <= k < 7 ==> IsLowerHexDigit(s[k])
  }

  /** With no steps, a lower-case "#rrggbb" colour comes back unchanged. */
  lemma AdjustBrightnessZero(hex: string)
    requires IsLowerHexColour(hex)
    ensures AdjustBrightness(hex, 0) == hex
  {
    ColourDigits(hex);
    DigitsZero(hex[1..]);
  }

  /** A "#rrggbb" colour is "#" followed by its six digits, which is what ltrim leaves. */
  lemma ColourDigits(hex: string)
    requires IsLowerHexColour(hex)
    ensures LtrimHash(hex) == hex[1..] && "#" + hex[1..] == hex
  {
    assert LtrimHash(hex[1..]) == hex[1..];
    assert "#" + hex[1..] == hex;
  }

  /** Six lower-case hex digits shifted by zero are printed back as they were. */
  lemma DigitsZero(digits: string)
    requires |digits| == 6 && forall k :: 0 <= k < 6 ==> IsLowerHexDigit(digits[k])
    ensures AdjustDigits(digits, 0) == "#" + digits
  {
    var a, b, c := digits[0..2], digits[2..4], digits[4..6];
    assert Substr(digits, 0, 2) == a && Substr(digits, 2, 2) == b && Substr(digits, 4, 2) == c;
    Hex2OfHexDec(a);
    Hex2OfHexDec(b);
    Hex2OfHexDec(c);
    assert AdjustDigits(digits, 0) == "#" + a + b + c;
    assert "#" + a + b + c == "#" + digits;
  }

  // ---------------------------------------------------------------------
  // Position
  // ---------------------------------------------------------------------

  const Positions: map<string, string> := map[
    "bottom-right" := "bottom: 20px; right: 20px;",
    "bottom-left" := "bottom: 20px; left: 20px;",
    "top-right" := "top: 20px; right: 20px;",
    "top-left" := "top: 20px; left: 20px;"
  ]

  /** get_position_css: the placement of a known corner, bottom-right's for anything else. */
  function GetPositionCss(position: string): (css: string)
    ensures position in Positions ==> css == Positions[position]
    ensures position !in Positions ==> css == Positions["bottom-right"]
  {
    if position in Positions then Positions[position] else Positions["bottom-right"]
  }

  /** Whatever the setting holds, the placement is one of the four corners'. */
  lemma PositionAlwaysKnown(position: string)
    ensures exists corner :: corner in Positions && GetPositionCss(position) == Positions[corner]
  {
    if position in Positions {
      assert GetPositionCss(position) == Positions[position];
    } else {
      assert GetPositionCss(position) == Positions["bottom-right"];
    }
  }

  // ---------------------------------------------------------------------
  // Joining the parts
  // ---------------------------------------------------------------------

  /** array_filter: drops the parts PHP treats as false ("" and "0"). */
  function KeepNonEmpty(parts: seq<string>): (r: seq<string>)
    ensures forall k :: 0 <= k < |r| ==> !EmptyString(r[k])
    ensures |r| <= |parts|
  {
    if parts == [] then []
    else if EmptyString(parts[0]) then KeepNonEmpty(parts[1..])
    else [parts[0]] + KeepNonEmpty(parts[1..])
  }

  /** implode($sep, $parts). */
  function Implode(sep: string, parts: seq<string>): string
  {
    if parts == [] then ""
    else if |parts| == 1 then parts[0]
    else parts[0] + sep + Implode(sep, parts[1..])
  }

  /** A joined list whose first part is non-empty in PHP's sense is itself non-empty. */
  lemma ImplodeNonEmpty(sep: string, parts: seq<string>)
    requires parts != [] && !EmptyString(parts[0])
    ensures !EmptyString(Implode(sep, parts))
  {
    if |parts| > 1 {
      var joined := Implode(sep, parts);
      assert joined == parts[0] + (sep + Implode(sep, parts[1..]));
      if |joined| == |parts[0]| {
        assert joined == parts[0];
      }
    }
  }

  // ---------------------------------------------------------------------
  // The styles object
  // ---------------------------------------------------------------------

  /** The transient (None is get_transient's false) and everything echoed so far. */
  datatype Printed = Printed(transient: Option<string>, output: string)

  const AnimationCss: string := "@keyframes dialogproFadeIn { from { opacity: 0; transform: translateY(20px); } to { opacity: 1; transform: translateY(0); } } .dialogpro-animate { animation: dialogproFadeIn 0.3s ease forwards; }"
  const ResponsiveCss: string := "@media screen and (max-width: 768px) { .dialogpro-chat-window { width: 90% !important; max-width: none !important; margin: 10px; } }"

  // The fixed text of the three generated rules, between the values spliced in.
  const WindowOpen: string := ".dialogpro-chat-window { position: fixed; "
  const WindowWidth: string := " width: "
  const WindowBackground: string := "%; max-width: 400px; background-color: "
  const WindowClose: string := "; border-radius: 8px; box-shadow: 0 2px 10px rgba(0,0,0,0.1); z-index: 999999; transition: all 0.3s ease; }"
  const MessageOpen: string := ".dialogpro-message { font-family: "
  const MessageSize: string := "; font-size: "
  const MessageUserOpen: string := "px; line-height: 1.5; margin: 8px 0; padding: 8px 12px; border-radius: 4px; } .dialogpro-message-user { background-color: "
  const MessageUserClose: string := "; color: #ffffff; align-self: flex-end; }"
  const MessageBot: string := " .dialogpro-message-bot { background-color: #f1f1f1; color: #333333; align-self: flex-start; }"
  const ButtonOpen: string := ".dialogpro-button { background-color: "
  const ButtonHoverOpen: string := "; color: #ffffff; border: none; border-radius: 50%; width: 50px; height: 50px; cursor: pointer; transition: all 0.3s ease; } .dialogpro-button:hover { background-color: "
  const ButtonHoverClose: string := "; transform: scale(1.1); }"

  class Styles {
    const settings: Settings
    /** esc_attr. */
    const escAttr: string -> string
    /** esc_html. */
    const escHtml: string -> string
    /** The dialogpro_custom_css transient; None is get_transient's false. */
    var transient: Option<string>
    /** What has been echoed. */
    var output: string

    constructor (settings: Settings, escAttr: string -> string, escHtml: string -> string, transient: Option<string>)
      ensures this.settings == settings && this.escAttr == escAttr && this.escHtml == escHtml
      ensures this.transient == transient && output == ""
    {
      this.settings := settings;
      this.escAttr := escAttr;
      this.escHtml := escHtml;
      this.transient := transient;
      output := "";
    }

    function PrimaryColor(): string
    {
      StrVal(settings.GetOption("primary_color"))
    }

    /** generate_chat_window_css: placement, width in percent, background colour. */
    function ChatWindowCss(): string
    {
      var position := StrVal(settings.GetOption("chat_position"));
      var width := IntVal(settings.GetOption("chat_width"));
      var background := StrVal(settings.GetOption("chat_bg_color"));
      WindowOpen + GetPositionCss(position) + WindowWidth + IntToString(width) + WindowBackground
        + escAttr(background) + WindowClose
    }

    /** generate_message_css: font, size in pixels, the user bubble in the primary colour. */
    function MessageCss(): string
    {
      var family := StrVal(settings.GetOption("font_family"));
      var size := IntVal(settings.GetOption("font_size"));
      MessageOpen + escAttr(family) + MessageSize + IntToString(size) + MessageUserOpen
        + escAttr(PrimaryColor()) + MessageUserClose + MessageBot
    }

    /** The hover colour of the button: the primary colour 20 steps darker. */
    function HoverColor(): string
    {
      AdjustBrightness(PrimaryColor(), -20)
    }

    /** generate_button_css: the primary colour, and the darker one on hover. */
    function ButtonCss(): string
    {
      ButtonOpen + escAttr(PrimaryColor()) + ButtonHoverOpen + HoverColor() + ButtonHoverClose
    }

    /** The five parts that exist, in the order generate_custom_css collects them. */
    function CssParts(): seq<string>
    {
      [ChatWindowCss(), MessageCss(), ButtonCss(), AnimationCss, ResponsiveCss]
    }

    /** The sixth part, generate_theme_integration_css, which the class does not define. */
    function ThemeIntegrationCss(): Result<string>
    {
      Err(UndefinedThemeMethod)
    }

    /** generate_custom_css as written: it fails when the sixth part is requested. */
    function GenerateCustomCssAsWritten(): Result<string>
    {
      var parts := CssParts();
      match ThemeIntegrationCss()
      case Err(e) => Err(e)
      case Ok(theme) => Ok(JoinCss(parts + [theme]))
    }

    /** Whatever the settings, generate_custom_css as written never produces CSS. */
    lemma GenerateAsWrittenAlwaysFails()
      ensures GenerateCustomCssAsWritten() == Err(UndefinedThemeMethod)
    {
    }

    /** generate_custom_css without the missing part: the non-empty parts joined by newlines. */
    function GenerateCustomCss(): string
    {
      JoinCss(CssParts())
    }

    /** The generated CSS is never empty, not even "0": the animation part is a fixed rule. */
    lemma GeneratedCssNonEmpty()
      ensures !EmptyString(GenerateCustomCss())
    {
      JoinedPartsNonEmpty(ChatWindowCss(), MessageCss(), ButtonCss());
    }

    /** The hover colour darkens each channel of the primary colour by 20, stopping at 0. */
    lemma HoverIsDarker()
      ensures ChannelOf(HoverColor(), 0) == ClampByte(ChannelOf(PrimaryColor(), 0) - 20)
      ensures ChannelOf(HoverColor(), 2) == ClampByte(ChannelOf(PrimaryColor(), 2) - 20)
      ensures ChannelOf(HoverColor(), 4) == ClampByte(ChannelOf(PrimaryColor(), 4) - 20)
    {
      AdjustBrightnessChannels(PrimaryColor(), -20);
    }

    /** output_custom_css: the cache step with this object's CSS and escaper. */
    method OutputCustomCss()
      modifies this
      ensures State() == OutputStep(old(State()), GenerateCustomCss(), escHtml)
    {
      Store(GenerateCustomCss());
    }

    /** The cache step for CSS already generated. */
    method Store(generated: string)
      modifies this
      ensures State() == OutputStep(old(State()), generated, escHtml)
    {
      var next := OutputStep(State(), generated, escHtml);
      transient := next.transient;
      output := next.output;
    }

    /** The cache and the printed output, the state output_custom_css changes. */
    function State(): Printed
      reads this
    {
      Printed(transient, output)
    }

    /** With the generated CSS, a miss always prints something. */
    lemma OutputMissPrints(s: Printed)
      requires s.transient.None?
      ensures |OutputStep(s, GenerateCustomCss(), escHtml).output| > |s.output|
    {
      GeneratedCssNonEmpty();
      OutputMissCaches(s, GenerateCustomCss(), escHtml);
    }

    /** output_custom_css as written, on a state: a hit prints the cache; a miss fails while generating. */
    function OutputStepAsWritten(s: Printed): Result<Printed>
    {
      if s.transient.Some? then Ok(Printed(s.transient, s.output + Emitted(s.transient.value, escHtml)))
      else match GenerateCustomCssAsWritten()
        case Err(e) => Err(e)
        case Ok(css) => Ok(OutputStep(s, css, escHtml))
    }

    /**
     * output_custom_css as written: on a miss the undefined method raises an
     * Error, which the handler (catching Exception only) lets through, so
     * nothing is cached and nothing printed.
     */
    method OutputCustomCssAsWritten() returns (r: Result<()>)
      modifies this
      ensures OutputStepAsWritten(old(State())).Ok? ==> r == Ok(()) && State() == OutputStepAsWritten(old(State())).value
      ensures OutputStepAsWritten(old(State())).Err? ==> r == Err(OutputStepAsWritten(old(State())).msg) && State() == old(State())
    {
      var next := OutputStepAsWritten(State());
      match next {
        case Ok(after) =>
          transient := after.transient;
          output := after.output;
          r := Ok(());
        case Err(e) =>
          r := Err(e);
      }
    }

    /** As written, every cache miss fails, and every hit behaves as the intended step does. */
    lemma AsWrittenFailsOnMiss(s: Printed, generated: string)
      ensures s.transient.None? ==> OutputStepAsWritten(s) == Err(UndefinedThemeMethod)
      ensures s.transient.Some? ==> OutputStepAsWritten(s) == Ok(OutputStep(s, generated, escHtml))
    {
      if s.transient.None? {
        GenerateAsWrittenAlwaysFails();
      } else {
        OutputHitUsesCache(s, generated, escHtml);
      }
    }

    /** clear_cache: deletes the transient. */
    method ClearCache()
      modifies this`transient
      ensures transient.None?
    {
      transient := None;
    }
  }

  /** What one call prints for the given CSS: nothing when it is empty in PHP's sense. */
  function Emitted(css: string, escHtml: string -> string): string
  {
    if EmptyString(css) then "" else StyleOpen + escHtml(css) + StyleClose
  }

  /**
   * output_custom_css on a state, given what generate_custom_css returns: a
   * cached copy is printed as it is; on a miss the generated CSS is cached
   * and printed.
   */
  function OutputStep(s: Printed, generated: string, escHtml: string -> string): Printed
  {
    var css := if s.transient.Some? then s.transient.value else generated;
    Printed(Some(css), s.output + Emitted(css, escHtml))
  }

  /** A cache hit keeps the cached copy and prints it; the generated CSS plays no part. */
  lemma OutputHitUsesCache(s: Printed, generated: string, escHtml: string -> string)
    requires s.transient.Some?
    ensures OutputStep(s, generated, escHtml) == Printed(s.transient, s.output + Emitted(s.transient.value, escHtml))
    ensures OutputStep(s, generated, escHtml) == OutputStep(s, "", escHtml)
  {
  }

  /** A miss caches the generated CSS, and prints it unless it is empty in PHP's sense. */
  lemma OutputMissCaches(s: Printed, generated: string, escHtml: string -> string)
    requires s.transient.None?
    ensures OutputStep(s, generated, escHtml).transient == Some(generated)
    ensures EmptyString(generated) ==> OutputStep(s, generated, escHtml).output == s.output
    ensures !EmptyString(generated) ==> |OutputStep(s, generated, escHtml).output| > |s.output|
  {
    if !EmptyString(generated) {
      assert |StyleClose| > 0;
    }
  }

  /** Cached CSS that PHP treats as empty prints nothing. */
  lemma OutputOfEmptyCacheIsSilent(s: Printed, generated: string, escHtml: string -> string)
    requires s.transient.Some? && EmptyString(s.transient.value)
    ensures OutputStep(s, generated, escHtml) == s
  {
  }

  /** The parts PHP treats as non-empty, joined by newlines. */
  function JoinCss(parts: seq<string>): string
  {
    Implode("\n", KeepNonEmpty(parts))
  }

  /** Whatever the three settings-dependent parts hold, the fixed animation part keeps the CSS non-empty. */
  lemma JoinedPartsNonEmpty(chatWindow: string, message: string, button: string)
    ensures !EmptyString(JoinCss([chatWindow, message, button, AnimationCss, ResponsiveCss]))
  {
    var parts := [chatWindow, message, button, AnimationCss, ResponsiveCss];
    AnimationNonEmpty();
    JoinedNonEmpty(parts, 3);
  }

  /** The animation rule is a fixed, non-empty string. */
  lemma AnimationNonEmpty()
    ensures !EmptyString(AnimationCss)
  {
    assert |AnimationCss| > 1;
  }

  /** One part that survives the filter makes the joined string non-empty. */
  lemma JoinedNonEmpty(parts: seq<string>, n: nat)
    requires n < |parts| && !EmptyString(parts[n])
    ensures !EmptyString(Implode("\n", KeepNonEmpty(parts)))
  {
    KeepNonEmptyHead(parts, n);
    ImplodeNonEmpty("\n", KeepNonEmpty(parts));
  }

  /** One part that survives the filter makes the filtered list non-empty. */
  lemma {:induction false} KeepNonEmptyHead(parts: seq<string>, n: nat)
    requires n < |parts| && !EmptyString(parts[n])
    ensures KeepNonEmpty(parts) != [] && !EmptyString(KeepNonEmpty(parts)[0])
  {
    if n > 0 && EmptyString(parts[0]) {
      assert parts[1..][n - 1] == parts[n];
      KeepNonEmptyHead(parts[1..], n - 1);
    }
  }
}
