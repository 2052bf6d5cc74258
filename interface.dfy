/**
 * DialogProInterface: decides whether the chat window appears on the current
 * request, finds its template (a theme override first, the plugin's copy
 * otherwise), decorates the rendered window with accessibility attributes,
 * and assembles the settings handed to the browser script.
 *
 * WordPress's request state (is_admin, get_post_type), the filesystem test,
 * the template include and the translation/escaping helpers are parameters.
 */
module ChatInterface {
  import opened Php
  import opened PluginSettings

  /** The opening of the chat window element the attributes are inserted after. */
  const ChatWindowMarker: string := "<div class=\"dialogpro-chat-window\""

  const ChatWindowTemplate: string := "chat-window.php"
  const TemplateMissing: string := "Chat window template not found"
  const RenderErrorPrefix: string := "DialogPro Render Error: "

  /** The post types the call site names as the default list. */
  const DefaultPostTypes: seq<string> := ["post", "page"]

  /** in_array()'s message when the haystack is not an array. */
  const InArrayTypeError: string := "in_array(): Argument #2 ($haystack) must be of type array"

  /** The three attributes, joined by single spaces; `ariaLabel` is the escaped translation of "Chat Window". */
  function AccessibilityAttributes(ariaLabel: string): string
  {
    "role=\"complementary\" aria-label=\"" + ariaLabel + "\" aria-live=\"polite\""
  }

  /** add_accessibility_attributes: every chat window opening gains a space and the attributes. */
  function AddAccessibilityAttributes(html: string, ariaLabel: string): string
  {
    StrReplace(html, ChatWindowMarker, ChatWindowMarker + " " + AccessibilityAttributes(ariaLabel))
  }

  /** Markup without a chat window opening comes back unchanged. */
  lemma AccessibilityWithoutWindow(html: string, ariaLabel: string)
    requires !Occurs(html, ChatWindowMarker)
    ensures AddAccessibilityAttributes(html, ariaLabel) == html
  {
    StrReplaceAbsent(html, ChatWindowMarker, ChatWindowMarker + " " + AccessibilityAttributes(ariaLabel));
  }

  /**
   * At the first chat window opening the attributes follow the marker; the
   * markup before it is copied and the markup after it is processed the same way.
   */
  lemma AccessibilityAtFirstWindow(before: string, after: string, ariaLabel: string)
    requires forall i :: 0 <= i < |before| ==> !OccursAt(before + ChatWindowMarker + after, ChatWindowMarker, i)
    ensures AddAccessibilityAttributes(before + ChatWindowMarker + after, ariaLabel) ==
      before + ChatWindowMarker + " " + AccessibilityAttributes(ariaLabel) + AddAccessibilityAttributes(after, ariaLabel)
  {
    StrReplaceFirst(before, ChatWindowMarker, after, ChatWindowMarker + " " + AccessibilityAttributes(ariaLabel));
  }

  /** The rendered test window gains role, label and live-region attributes right after its class. */
  lemma AccessibilityExample(ariaLabel: string)
    ensures AddAccessibilityAttributes(ChatWindowMarker + ">Test</div>", ariaLabel) ==
      ChatWindowMarker + " " + AccessibilityAttributes(ariaLabel) + ">Test</div>"
  {
    var tail := ">Test</div>";
    assert ChatWindowMarker + tail == [] + ChatWindowMarker + tail;
    AccessibilityAtFirstWindow([], tail, ariaLabel);
    assert |tail| < |ChatWindowMarker|;
    assert AddAccessibilityAttributes(tail, ariaLabel) == tail;
  }

  /**
   * in_array's loose comparison of the post type with a list entry: a post
   * type of `false` equals the strings that convert to false; a post type
   * string equals an entry by PHP 8's string ==, which compares two numeric
   * strings by value.
   */
  predicate LooseEqualsPostType(postType: Option<string>, entry: string)
  {
    match postType
    case None => EmptyString(entry)
    case Some(t) => LooseStringEquals(t, entry)
  }

  predicate InArray(postType: Option<string>, items: seq<string>)
  {
    exists i :: 0 <= i < |items| && LooseEqualsPostType(postType, items[i])
  }

  /** The default list matches exactly the post types "post" and "page": neither default is numeric. */
  lemma InDefaultPostTypes(postType: Option<string>)
    ensures InArray(postType, DefaultPostTypes) <==> postType == Some("post") || postType == Some("page")
  {
    if postType.Some? {
      var t := postType.value;
      NotNumericByFirst(DefaultPostTypes[0]);
      NotNumericByFirst(DefaultPostTypes[1]);
      LooseEqualsNonNumeric(DefaultPostTypes[0], t);
      LooseEqualsNonNumeric(DefaultPostTypes[1], t);
      LooseStringEqualsReflexiveSymmetric(t, DefaultPostTypes[0]);
      LooseStringEqualsReflexiveSymmetric(t, DefaultPostTypes[1]);
    }
    if postType == Some("post") {
      assert LooseEqualsPostType(postType, DefaultPostTypes[0]);
    } else if postType == Some("page") {
      assert LooseEqualsPostType(postType, DefaultPostTypes[1]);
    }
  }

  /** The settings block of get_localized_data. */
  datatype LocalizedSettings = LocalizedSettings(position: Value, width: Value, welcomeMessage: Value, tokenLimit: int)

  /** The outcome of render_chat_window: what it echoes and what it writes to the error log. */
  datatype Rendered = Rendered(output: string, errorLog: seq<string>)

  class Interface {
    /** The settings service taken from the container. */
    const settings: Settings
    /** get_stylesheet_directory(). */
    const stylesheetDir: string
    /** DIALOGPRO_PATH. */
    const pluginPath: string
    /** file_exists(). */
    const fileExists: string -> bool

    constructor (settings: Settings, stylesheetDir: string, pluginPath: string, fileExists: string -> bool)
      ensures this.settings == settings && this.stylesheetDir == stylesheetDir
      ensures this.pluginPath == pluginPath && this.fileExists == fileExists
    {
      this.settings := settings;
      this.stylesheetDir := stylesheetDir;
      this.pluginPath := pluginPath;
      this.fileExists := fileExists;
    }

    /**
     * should_display_chat as written: never in the admin area; otherwise
     * in_array over the stored enabled_post_types, which is null when nothing
     * is stored (the ['post', 'page'] argument is dropped), so in_array throws.
     */
    function ShouldDisplayChatAsWritten(isAdmin: bool, postType: Option<string>): Result<bool>
    {
      if isAdmin then Ok(false)
      else match settings.GetOption("enabled_post_types")
        case List(items) => Ok(InArray(postType, items))
        case _ => Err(InArrayTypeError)
    }

    /** should_display_chat with the intended default: an unset list means posts and pages. */
    function ShouldDisplayChat(isAdmin: bool, postType: Option<string>): Result<bool>
    {
      if isAdmin then Ok(false)
      else match settings.GetOption("enabled_post_types")
        case Null => Ok(InArray(postType, DefaultPostTypes))
        case List(items) => Ok(InArray(postType, items))
        case _ => Err(InArrayTypeError)
    }

    /** get_template_path: the theme's override when it exists, else the plugin's copy, unchecked. */
    function GetTemplatePath(template: string): (path: string)
      ensures fileExists(stylesheetDir + "/dialogpro/" + template) ==> path == stylesheetDir + "/dialogpro/" + template
      ensures !fileExists(stylesheetDir + "/dialogpro/" + template) ==> path == pluginPath + "templates/" + template
    {
      var themePath := stylesheetDir + "/dialogpro/" + template;
      if fileExists(themePath) then themePath else pluginPath + "templates/" + template
    }

    /** The settings block handed to the script. */
    function LocalizedData(): LocalizedSettings
    {
      LocalizedSettings(
        settings.GetOption("chat_position"),
        settings.GetOption("chat_width"),
        settings.GetOption("welcome_message"),
        IntVal(settings.GetOption("token_limit")))
    }

    /**
     * render_chat_window given should_display_chat's outcome: nothing when
     * the chat is hidden; the decorated template output when the template
     * exists; otherwise a logged error and, for users who manage options, an
     * HTML comment. An in_array error is not an Exception, so it escapes the
     * catch.
     */
    function RenderGiven(display: Result<bool>, renderTemplate: string -> string,
                         ariaLabel: string, canManage: bool, escHtml: string -> string): Result<Rendered>
    {
      match display
      case Err(e) => Err(e)
      case Ok(show) =>
        if !show then Ok(Rendered("", []))
        else
          var path := GetTemplatePath(ChatWindowTemplate);
          if fileExists(path) then Ok(Rendered(AddAccessibilityAttributes(renderTemplate(path), ariaLabel), []))
          else
            var comment := if canManage then "<!-- DialogPro Error: " + escHtml(TemplateMissing) + " -->" else "";
            Ok(Rendered(comment, [RenderErrorPrefix + TemplateMissing]))
    }

    /** render_chat_window as written, over should_display_chat as written. */
    function RenderChatWindowAsWritten(isAdmin: bool, postType: Option<string>, renderTemplate: string -> string,
                                       ariaLabel: string, canManage: bool, escHtml: string -> string): Result<Rendered>
    {
      RenderGiven(ShouldDisplayChatAsWritten(isAdmin, postType), renderTemplate, ariaLabel, canManage, escHtml)
    }

    /** render_chat_window with the intended ['post', 'page'] default for an unset list. */
    function RenderChatWindow(isAdmin: bool, postType: Option<string>, renderTemplate: string -> string,
                              ariaLabel: string, canManage: bool, escHtml: string -> string): Result<Rendered>
    {
      RenderGiven(ShouldDisplayChat(isAdmin, postType), renderTemplate, ariaLabel, canManage, escHtml)
    }

    /**
     * As written, a front-end request with nothing stored under
     * enabled_post_types fails with in_array's TypeError, which escapes the
     * catch: nothing is echoed or logged.
     */
    lemma RenderAsWrittenFailsWithoutStoredList(postType: Option<string>, renderTemplate: string -> string,
                                                ariaLabel: string, canManage: bool, escHtml: string -> string)
      requires "enabled_post_types" !in settings.options
      ensures RenderChatWindowAsWritten(false, postType, renderTemplate, ariaLabel, canManage, escHtml) == Err(InArrayTypeError)
    {
      AsWrittenFailsWithoutStoredList(postType);
    }

    /** With a stored list, or in the admin area, both versions render the same. */
    lemma RenderAgreesWithStoredList(isAdmin: bool, postType: Option<string>, items: seq<string>,
                                     renderTemplate: string -> string, ariaLabel: string, canManage: bool,
                                     escHtml: string -> string)
      requires isAdmin || settings.GetOption("enabled_post_types") == List(items)
      ensures RenderChatWindowAsWritten(isAdmin, postType, renderTemplate, ariaLabel, canManage, escHtml)
        == RenderChatWindow(isAdmin, postType, renderTemplate, ariaLabel, canManage, escHtml)
    {
    }

    /** In the admin area the chat is never displayed, in either version. */
    lemma AdminHidesChat(postType: Option<string>)
      ensures ShouldDisplayChat(true, postType) == Ok(false)
      ensures ShouldDisplayChatAsWritten(true, postType) == Ok(false)
    {
    }

    /** With a stored list, the chat shows on the front end iff the post type is listed. */
    lemma DisplayFollowsEnabledList(postType: Option<string>, items: seq<string>)
      requires settings.GetOption("enabled_post_types") == List(items)
      ensures ShouldDisplayChat(false, postType).Ok?
      ensures ShouldDisplayChat(false, postType).value <==> exists i :: 0 <= i < |items| && LooseEqualsPostType(postType, items[i])
      ensures ShouldDisplayChatAsWritten(false, postType) == ShouldDisplayChat(false, postType)
    {
    }

    /**
     * Post types are compared as in_array does: a numeric post type matches
     * a stored entry with the same value, such as "10" and "010".
     */
    lemma NumericPostTypeMatchesByValue(ds: string)
      requires ds != [] && forall k :: 0 <= k < |ds| ==> IsDigit(ds[k])
      requires settings.GetOption("enabled_post_types") == List(["0" + ds])
      ensures ShouldDisplayChat(false, Some(ds)) == Ok(true)
      ensures ShouldDisplayChatAsWritten(false, Some(ds)) == Ok(true)
    {
      LooseEqualsLeadingZero(ds);
      assert LooseEqualsPostType(Some(ds), ["0" + ds][0]);
    }

    /** As written, a front-end request with nothing stored fails in in_array. */
    lemma AsWrittenFailsWithoutStoredList(postType: Option<string>)
      requires "enabled_post_types" !in settings.options
      ensures ShouldDisplayChatAsWritten(false, postType) == Err(InArrayTypeError)
    {
    }

    /** With the intended default, nothing stored means the chat shows on posts and pages only. */
    lemma DefaultShowsOnPostsAndPages(postType: Option<string>)
      requires "enabled_post_types" !in settings.options
      ensures ShouldDisplayChat(false, postType) == Ok(postType == Some("post") || postType == Some("page"))
    {
      assert settings.GetOption("enabled_post_types") == Null;
      InDefaultPostTypes(postType);
    }

    /** The script receives the integer the stored token limit spells. */
    lemma LocalizedTokenLimit(n: int)
      requires IsInt64(n)
      requires "token_limit" in settings.options && settings.options["token_limit"] == Str(IntToString(n))
      ensures LocalizedData().tokenLimit == n
    {
      IntCastOfIntToString(n);
    }

    /** With nothing stored the script sees the defaults: bottom-right, width "20", limit 8500. */
    lemma LocalizedDefaults()
      requires settings.options == map[]
      ensures LocalizedData() == LocalizedSettings(Str("bottom-right"), Str("20"),
        Str("Hello! How can I help you today?"), 8500)
    {
      DefaultLookups(settings);
    }

    /** A shown chat window is the template's output with the accessibility attributes added. */
    lemma RenderDecoratesTemplate(postType: Option<string>, renderTemplate: string -> string, ariaLabel: string,
                                  canManage: bool, escHtml: string -> string)
      requires ShouldDisplayChat(false, postType) == Ok(true)
      requires fileExists(GetTemplatePath(ChatWindowTemplate))
      ensures RenderChatWindow(false, postType, renderTemplate, ariaLabel, canManage, escHtml) ==
        Ok(Rendered(AddAccessibilityAttributes(renderTemplate(GetTemplatePath(ChatWindowTemplate)), ariaLabel), []))
    {
    }

    /** A missing template is logged, and only users who manage options see a comment about it. */
    lemma RenderReportsMissingTemplate(postType: Option<string>, renderTemplate: string -> string, ariaLabel: string,
                                       canManage: bool, escHtml: string -> string)
      requires ShouldDisplayChat(false, postType) == Ok(true)
      requires !fileExists(GetTemplatePath(ChatWindowTemplate))
      ensures var r := RenderChatWindow(false, postType, renderTemplate, ariaLabel, canManage, escHtml);
        && r.Ok? && r.value.errorLog == [RenderErrorPrefix + TemplateMissing]
        && (r.value.output == "" <==> !canManage)
    {
    }
  }
}
