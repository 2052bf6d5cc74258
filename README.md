# DialogPro chat plugin: a verified model of its core

WP DialogPro is a WordPress plugin that puts a chat window on the front end of
a site and relays each visitor message to a configured backend. This project
models the plugin's core in Dafny and proves what that core promises:

- **Messages** (`messages.dfy`, module `MessageHandling`): validation (empty
  after trimming, at most 1000 characters, the four XSS patterns written out as
  predicates over match positions), emoticon replacement, the token estimate
  `ceil(|text| / 4)`, the `handle_message` pipeline and the per-session history
  capped at fifty entries.
- **Session** (`session.dfy`, `SessionStore`): version-4 UUID generation and
  the session-id pattern, the token count and its cookie, `update_token_count`,
  `is_valid`, `clear_session` and `initialize_session`. The token limit is an
  explicit parameter: the source reads it through a `$this->container` that
  the session class never declares or sets (see "## Left out").
- **API** (`api.dfy`, `ChatApi`): `send_message` with its object-cache
  lookup, the configuration check and the collapse of every failure into one
  user-facing error. It also covers `check_connection`, `clear_cache` and the
  `Authorization: Bearer` header, checked against the credentials grammar of
  section 2.1 of RFC 6750.
- **Container** (`container.dfy`, `ServiceContainer`): `register`, `get`
  (lazy, shared instances), `has`, `remove` and `getServices`.
- **Settings** (`settings.dfy`, `PluginSettings`): `DEFAULTS`, `get_option`,
  `validate_settings` and the `get_instance` singleton.
- **Styles** (`styles.dfy`, `Styling`): `adjust_brightness`, the position
  table, the generated CSS and `output_custom_css`, with the transient as an
  abstract cache.
- **Logger** (`logger.dfy`, `Logging`): `LOG_LEVELS`, `should_log` with PHP's
  loose comparison against null, `format_log_entry`, routing to the error log
  or to the log file, and rotation that keeps the five backups `glob()` lists
  last, in its sorted order.
- **Interface** (`interface.dfy`, `ChatInterface`): `should_display_chat`,
  `get_template_path`, `add_accessibility_attributes`, the localized settings
  block and `render_chat_window`.
- **Activator** (`activator.dfy`, `Activation`): `activate` (the version checks
  first, then the table, the options, the directories, the cleanup event and
  the rewrite flush), `set_default_options`, `schedule_tasks` and `deactivate`.
- **Bootstrap** (`bootstrap.dfy`, `Bootstrap`): the class autoloader,
  `dialogpro_check_requirements`, `run_dialogpro` and the activation hook.
- **PHP built-ins** (`php.dfy`, `Php`): the built-ins the core relies on,
  written as total functions: `empty`, `trim`, the `(int)` cast of a string
  (leading whitespace, a sign, digits, a fraction and an exponent, capped to
  the 64-bit range, and 0 when the value overflows a double), the UTF-8 byte
  count that `filesize` reports, `str_replace`, `strtolower`/`strtoupper`,
  `hexdec`/`sprintf('%02x')` and `version_compare`.

Objects whose fields the source updates in place are classes: the session,
the API's cache and logs, the container, the logger's files, the styles
transient, the activator's site and the history store. Each state-changing
method is specified by a function from the old state to the new one, and the
properties are proved as lemmas about that function. WordPress calls, the
clock, randomness, HTTP, hashing and JSON decoding are parameters or abstract
functions fixed when an object is built.

Where the code and its tests disagree, the model follows the code. The
messages test expects `'Medium length text'` to cost 4 tokens, but the string
has 18 characters, so `calculate_tokens` gives 5
(`MessageHandling.TokenExamples`). The API's `clear_cache` deletes the key
`dialogpro_api` of the default cache group, so the cached responses survive.
`ChatApi.Api.ClearCache` states exactly that.
`handle_message` does not save to the history itself: saving is a separate
call, and the model keeps it separate. When the session cookie is missing,
`initialize_session` writes a token cookie of "0" but then loads the count
from the request's token cookie, which may be stale. `SessionStore.InitialState`
keeps that order.

## Model

| member | source | states |
|---|---|---|
| MessageHandling.ValidateMessage | src/includes/class-dialogpro-messages.php:70-88 | exactly one verdict per message: "empty" iff the trimmed text is "" or "0"; "too long" iff it is non-empty and longer than 1000 characters; "invalid content" iff it is within length and an XSS pattern matches; no error iff none of these |
| MessageHandling.TrimOfLetters | src/includes/class-dialogpro-messages.php:71 | a non-empty run of letters does not trim to an empty string |
| MessageHandling.ValidateEmptyExamples | src/includes/class-dialogpro-messages.php:71-73 | "", whitespace only and "0" are refused as empty |
| MessageHandling.ValidateLengthExamples | src/includes/class-dialogpro-messages.php:75-82 | 1000 characters pass validation and 1001 are refused as too long |
| MessageHandling.TagMatchIff | src/includes/class-dialogpro-messages.php:111 | the tag pattern `<[^>]*>` matches iff some '<' has a '>' somewhere after it |
| MessageHandling.FirstCloseAfter | src/includes/class-dialogpro-messages.php:111 | a '<' with a later '>' starts a match that ends at the first '>' after it |
| MessageHandling.IMatchAtChar | src/includes/class-dialogpro-messages.php:112-114 | a case-insensitive literal match fixes each matched character up to case |
| MessageHandling.NoXssWithoutMarkers | src/includes/class-dialogpro-messages.php:109-124 | text with no '<', no '=' and no ':' after an 'a' or 't' trips none of the four patterns |
| MessageHandling.LowerCaseFixed | src/includes/class-dialogpro-messages.php:112-114 | lower-casing text without capitals leaves it unchanged |
| MessageHandling.XssExampleTag | wp-dialogpro/tests/test-class-dialogpro-messages.php:95 | the script-tag string is flagged |
| MessageHandling.XssExampleScript | wp-dialogpro/tests/test-class-dialogpro-messages.php:96 | the javascript: string is flagged |
| MessageHandling.XssExampleHandler | wp-dialogpro/tests/test-class-dialogpro-messages.php:97 | the onclick= string is flagged |
| MessageHandling.XssExampleData | wp-dialogpro/tests/test-class-dialogpro-messages.php:98 | the data: URI string is flagged |
| MessageHandling.XssExamplesPassed | wp-dialogpro/tests/test-class-dialogpro-messages.php:99-100 | plain text, and text with ":)", are not flagged |
| MessageHandling.ContainsXss | src/includes/class-dialogpro-messages.php:109-124 | defines contains_xss as "one of the four patterns matches"; TagMatchIff, IMatchAtChar and NoXssWithoutMarkers state what each pattern accepts |
| MessageHandling.ReplaceEach | src/includes/class-dialogpro-messages.php:137-141 | defines array str_replace: each search string in turn over the previous result; ReplaceEachIsOnePass relates it to one pass |
| MessageHandling.ConvertEmoticons | src/includes/class-dialogpro-messages.php:129-142 | defines convert_emoticons as str_replace with the four-entry table; ConvertEmoticonsIsOnePass states what it does |
| MessageHandling.Emote | src/includes/class-dialogpro-messages.php:129-142 | the independent reference: one left-to-right pass that writes the word for an emoticon and skips it, and otherwise copies one character |
| MessageHandling.Lookup | src/includes/class-dialogpro-messages.php:130-135 | the word found is some entry's word for exactly that search string, and a search string in the table is always found |
| MessageHandling.EmoticonsFormTable | src/includes/class-dialogpro-messages.php:130-135 | the four searches are distinct, each a marker (':' or ';') and a non-marker; the words are non-empty and hold no marker; no word starts with a search's second character |
| MessageHandling.LookupOfEntry | src/includes/class-dialogpro-messages.php:130-135 | with distinct searches, an entry's search string finds that entry's own word |
| MessageHandling.EmoteMarkerFree | src/includes/class-dialogpro-messages.php:129-142 | text with no ':' or ';' passes through the one-pass conversion unchanged, whatever follows it |
| MessageHandling.ReplaceFirstThenEmote | src/includes/class-dialogpro-messages.php:137-141 | replacing the first search string everywhere, then converting with the rest of the table, equals converting with the whole table, for every message |
| MessageHandling.ReplaceEachIsOnePass | src/includes/class-dialogpro-messages.php:137-141 | for any table of that shape, str_replace search by search equals the one-pass conversion, for every message |
| MessageHandling.ConvertEmoticonsIsOnePass | src/includes/class-dialogpro-messages.php:129-142 | for every message, convert_emoticons turns each emoticon into its word and leaves all other text, including stray ':' and ';', as it is |
| MessageHandling.ConvertEmoticonsPlain | wp-dialogpro/tests/test-class-dialogpro-messages.php:126 | text without ':' or ';' ("No emoticons") is unchanged |
| MessageHandling.ConvertEmoticonsOne | wp-dialogpro/tests/test-class-dialogpro-messages.php:121-124 | after text without ':' or ';', an emoticon becomes its word and the rest is converted in turn ("Hello :)" gives "Hello smile") |
| MessageHandling.ConvertEmoticonsTwo | wp-dialogpro/tests/test-class-dialogpro-messages.php:125 | two emoticons, each after plain text, both become their words ("Multiple :) :(" gives "Multiple smile sad") |
| MessageHandling.CalculateTokens | src/includes/class-dialogpro-messages.php:147-150 | the estimate n is the least count with 4n >= the number of characters |
| MessageHandling.TokenExamples | wp-dialogpro/tests/test-class-dialogpro-messages.php:147-150 | "Short" costs 2, "A" 1, 100 characters 25; "Medium length text" costs 5 |
| MessageHandling.AppendBounded | src/includes/class-dialogpro-messages.php:183-189 | the new entry is last; the old entries are all kept below fifty, and the oldest is dropped at fifty |
| MessageHandling.SaveAllKeepsNewest | src/includes/class-dialogpro-messages.php:181-199 | from a history of at most fifty, any run of saves leaves exactly the newest fifty entries, in order |
| MessageHandling.SixtySaves | wp-dialogpro/tests/test-class-dialogpro-messages.php:165-189 | sixty saves into an empty history leave fifty, ending with the sixtieth |
| MessageHandling.MessageHandler.constructor | src/includes/class-dialogpro-messages.php:18-22 | the handler holds the session, the API, the token limit, the WordPress hooks and the history store it is given |
| MessageHandling.MessageHandler.HandleMessage | src/includes/class-dialogpro-messages.php:31-65 | a refused message or an invalid session fails with the prefixed reason and touches neither the session nor the API; otherwise one API step runs; an API failure charges nothing; after a successful API step the session id is kept; a reply within the limit charges ceil(|message . response| / 4), rewrites the token cookie with the new count (TokenCookieSet) and is returned escaped with that count; over the limit fails, charges nothing and writes no cookie; success implies a valid session |
| MessageHandling.HistorySlotOf | src/includes/class-dialogpro-messages.php:170-172 | a history key names the slot of exactly one session id |
| MessageHandling.MessageHandler.HistoryKey | src/includes/class-dialogpro-messages.php:170-172 | a key exists iff the session has an id, and it is that id's slot; with no id, get_session_id's string return type throws |
| MessageHandling.MessageHandler.GetMessageHistory | src/includes/class-dialogpro-messages.php:167-178 | fails iff the session has no id (the TypeError is not caught); otherwise the stored list, or [] when nothing is stored |
| MessageHandling.MessageHandler.SaveToHistory | src/includes/class-dialogpro-messages.php:181-199 | with no session id it fails and writes nothing; otherwise only the session's slot changes, to the stored list (or []) with the entry appended and capped; it stays within fifty and ends with the entry |
| MessageHandling.MessageHandler.ProcessMessage | src/includes/class-dialogpro-messages.php:93-104 | defines process_message: sanitise, convert emoticons, then the filter hook; HandleMessage's contract relays its result |
| SessionStore.IsUuidV4 | src/includes/class-dialogpro-session.php:81-85 | defines the lower-case version-4 UUID: 36 characters, dashes at 8, 13, 18 and 23, version nibble 4, variant 8, 9, a or b; UuidGroups and LayoutIsUuid connect it to generation |
| SessionStore.ValidSessionId | src/includes/class-dialogpro-session.php:81-85 | defines the anchored pattern's test, which also accepts one trailing newline; GeneratedUuidIsValid proves every generated id passes |
| SessionStore.InitialState | src/includes/class-dialogpro-session.php:19-40 | defines the id and count after initialize_session for each cookie case; InitialIdIsValid, FreshSessionStartsAtZero and ValidCookieIsKept state its properties |
| SessionStore.Session.IsValid | src/includes/class-dialogpro-session.php:163-166 | defines is_valid: an id that is not empty and a count within the limit; ClearSession proves it false after clear_session |
| SessionStore.Hex4 | src/includes/class-dialogpro-session.php:45-51 | a 16-bit value prints as four lower-case hex digits, led by its top nibble |
| SessionStore.GroupValue | src/includes/class-dialogpro-session.php:45-51 | each printed group is 16 bits; the fourth has version nibble 4 and the fifth a variant nibble from 8 to 11 |
| SessionStore.UuidGroups | src/includes/class-dialogpro-session.php:45-51 | eight groups of four lower-case hex digits, the fourth starting with '4' and the fifth with 8, 9, a or b |
| SessionStore.GenerateUuid4 | src/includes/class-dialogpro-session.php:46 | defines wp_generate_uuid4 from its eight random 16-bit draws, laid out in the 8-4-4-4-12 form; GeneratedUuidIsValid proves every result a lower-case version-4 UUID that validate_session accepts |
| SessionStore.LayoutPositions | src/includes/class-dialogpro-session.php:45-51 | the printed id is 36 characters with dashes at 8, 13, 18 and 23 and each group at its offset |
| SessionStore.LayoutIsUuid | src/includes/class-dialogpro-session.php:81-85 | well-formed groups print as an id the session-id pattern accepts |
| SessionStore.GeneratedUuidIsValid | src/includes/class-dialogpro-session.php:45-51 | every generated id is a lower-case version-4 UUID and passes validate_session |
| SessionStore.Charge | src/includes/class-dialogpro-session.php:116-134 | an update succeeds iff count + tokens <= limit, and then the count becomes that sum |
| SessionStore.ChargeAll | src/includes/class-dialogpro-session.php:116-134 | a run of updates reports one success flag per update |
| SessionStore.ChargeAllWithinLimit | src/includes/class-dialogpro-session.php:116-134 | starting within the limit, no run of updates leaves the count above it |
| SessionStore.ChargeAllFits | src/includes/class-dialogpro-session.php:116-134 | non-negative updates whose total fits all succeed and add up |
| SessionStore.SumNonNegative | src/includes/class-dialogpro-session.php:116-134 | a total of non-negative charges is non-negative |
| SessionStore.SumAppend | src/includes/class-dialogpro-session.php:116-134 | the total of charges grows by the appended charge |
| SessionStore.ChargeAllAppend | src/includes/class-dialogpro-session.php:116-134 | one more update behaves as a single update from the count the earlier ones left |
| SessionStore.CrossingUpdateFails | src/includes/class-dialogpro-session.php:116-134 | the update that would cross the limit is the one that fails, and the count stays at the earlier total |
| SessionStore.InitialIdIsValid | src/includes/class-dialogpro-session.php:19-40 | after initialisation the session always has an id that passes validate_session |
| SessionStore.FreshSessionStartsAtZero | src/includes/class-dialogpro-session.php:19-51 | without cookies, or with a malformed id, the session is new with count 0 |
| SessionStore.ValidCookieIsKept | src/includes/class-dialogpro-session.php:19-40 | a well-formed id is kept and the count is read from the token cookie |
| SessionStore.Session.constructor | src/includes/class-dialogpro-session.php:10-14 | a session starts with no id, count 0 and no cookies written |
| SessionStore.Session.CreateNewSession | src/includes/class-dialogpro-session.php:45-76 | the new id and count 0 are stored and both cookies are written for 24 hours |
| SessionStore.Session.LoadTokenCount | src/includes/class-dialogpro-session.php:90-93 | the count is the (int) cast of the token cookie, fraction and exponent included, capped to 64 bits; 0 when it is absent |
| SessionStore.Session.InitializeSession | src/includes/class-dialogpro-session.php:19-40 | the id and count follow the cookie cases; a new session writes both cookies, a kept one writes none; the id always validates |
| SessionStore.TokenCookieSet | src/includes/class-dialogpro-session.php:98-111 | defines the cookies after set_token_cookie: the earlier writes with the token cookie replaced by the count, expiring a day later; UpdateTokenCount and HandleMessage promise it on success |
| SessionStore.Session.UpdateTokenCount | src/includes/class-dialogpro-session.php:98-134 | true iff the new total fits; then the count grows and the cookie holds it (TokenCookieSet), reading back as the new count whenever that count is a 64-bit int; otherwise nothing changes |
| SessionStore.Session.ClearSession | src/includes/class-dialogpro-session.php:153-166 | both cookies are expired an hour back, the id and count are reset, and the session is invalid for every limit |
| ChatApi.B64Prefix | src/includes/class-dialogpro-api.php:64-67 | the longest run of b64token characters at the start of a string |
| ChatApi.SkipSpaces | src/includes/class-dialogpro-api.php:64-67 | leading spaces are dropped and the rest is kept |
| ChatApi.BearerPrefix | src/includes/class-dialogpro-api.php:64-67 | the header is "Bearer", one space, then the token |
| ChatApi.SkipOneSpace | src/includes/class-dialogpro-api.php:64-67 | one more leading space does not change what follows the spaces |
| ChatApi.BearerHeaderConforms | src/includes/class-dialogpro-api.php:64-67 | the header parses as bearer credentials carrying exactly the token iff the token is a b64token |
| ChatApi.Classify | src/includes/class-dialogpro-api.php:75-92 | success iff an HTTP response with status 200 whose body decodes; otherwise the WP_Error message, the status-code message or the invalid-JSON message |
| ChatApi.MessageRequest | src/includes/class-dialogpro-api.php:61-72 | defines the POST to the endpoint: the 15-second timeout, the bearer token, the JSON content type, the session id header and the message with its timestamp as body; SendIssuesAtMostOneRequest states when it is sent and with which headers |
| ChatApi.StatusRequest | src/includes/class-dialogpro-api.php:120-125 | defines the GET of endpoint . "/status" with a 5-second timeout and the bearer token; CheckConnection states that exactly this probe is sent |
| ChatApi.ConnectionUp | src/includes/class-dialogpro-api.php:127-128 | defines a working connection: an HTTP response whose status is exactly 200; CheckConnection returns it |
| ChatApi.Api.ConfigComplete | src/includes/class-dialogpro-api.php:53-58 | defines a usable configuration: neither endpoint nor token is empty in PHP's sense; IncompleteConfigSendsNothing and TransportFailuresCollapse state what follows from it |
| ChatApi.Api.constructor | src/includes/class-dialogpro-api.php:18-28 | the API starts with the given cache and no requests or log lines |
| ChatApi.Api.Send | src/includes/class-dialogpro-api.php:99-107 | every failure surfaces as the one generic error |
| ChatApi.Api.EmptyMessageSendsNothing | src/includes/class-dialogpro-api.php:41-43 | an empty message fails before any lookup or request |
| ChatApi.Api.CacheHitSendsNothing | src/includes/class-dialogpro-api.php:46-50 | a cache hit returns the stored body and changes nothing |
| ChatApi.Api.IncompleteConfigSendsNothing | src/includes/class-dialogpro-api.php:53-58 | a miss with an empty endpoint or token fails without a request or a cache write |
| ChatApi.Api.SendIssuesAtMostOneRequest | src/includes/class-dialogpro-api.php:61-72 | at most one request per call, exactly on a configured miss, carrying the bearer token, JSON content type and session id |
| ChatApi.Api.OnlySuccessIsCached | src/includes/class-dialogpro-api.php:95 | only a success writes the cache, storing the returned body under the message's key |
| ChatApi.Api.TransportFailuresCollapse | src/includes/class-dialogpro-api.php:75-107 | a transport error fails with the generic error and logs its own detail |
| ChatApi.Api.RepeatedMessageHitsCache | src/includes/class-dialogpro-api.php:46-95 | once a first call succeeded, asking the same question again in the same session returns the same answer from the cache, with no request and no change of state |
| ChatApi.Api.SendMessage | src/includes/class-dialogpro-api.php:38-108 | the method performs exactly one send step on the cache, the request log and the error log |
| ChatApi.Api.CheckConnection | src/includes/class-dialogpro-api.php:115-134 | one status probe is sent; true iff it answers with status exactly 200 |
| ChatApi.Api.ClearCache | src/includes/class-dialogpro-api.php:139-141 | only the default-group key "dialogpro_api" is deleted; every cached response stays |
| ServiceContainer.Without | wp-dialogpro/includes/class-dialogpro-container.php:54-56 | removing an id keeps exactly the other ids |
| ServiceContainer.WithoutDistinct | wp-dialogpro/includes/class-dialogpro-container.php:54-56 | removing an id keeps the key order duplicate-free |
| ServiceContainer.WithoutAbsent | wp-dialogpro/includes/class-dialogpro-container.php:54-56 | removing an unknown id keeps the key order as it was |
| ServiceContainer.DistinctCount | wp-dialogpro/includes/class-dialogpro-container.php:61-63 | a duplicate-free key list is as long as the key set |
| ServiceContainer.Container.constructor | wp-dialogpro/includes/class-dialogpro-container.php:17-19 | a new container has no factories and no instances |
| ServiceContainer.Container.Register | wp-dialogpro/includes/class-dialogpro-container.php:17-19 | the factory is stored without being called; a new id goes last and a known one keeps its place; instances stay |
| ServiceContainer.Container.Get | wp-dialogpro/includes/class-dialogpro-container.php:26-42 | a set instance is returned unchanged; otherwise the factory runs once and a non-null result is stored; an unknown id fails with "Service not found" |
| ServiceContainer.Container.Has | wp-dialogpro/includes/class-dialogpro-container.php:47-49 | defines has: a factory is registered under the id; Register, Remove and Get state how it changes |
| ServiceContainer.Container.Remove | wp-dialogpro/includes/class-dialogpro-container.php:54-56 | the factory and the instance are forgotten, and has() is false afterwards |
| ServiceContainer.Container.GetServices | wp-dialogpro/includes/class-dialogpro-container.php:61-63 | every registered id exactly once, in registration order |
| PluginSettings.DefaultKeysCoverDefaults | src/includes/class-dialogpro-settings.php:17-28 | the key list names exactly the keys of DEFAULTS |
| PluginSettings.DefaultKeysInDefaults | src/includes/class-dialogpro-settings.php:164 | every key the validation loop visits is a key of DEFAULTS |
| PluginSettings.InputOrDefault | src/includes/class-dialogpro-settings.php:165 | a missing or null input entry takes the key's default; any other is kept |
| PluginSettings.ClampWidth | src/includes/class-dialogpro-settings.php:161-188 | the width is clamped into 10..100 and is unchanged inside it |
| PluginSettings.SanitizeField | src/includes/class-dialogpro-settings.php:164-186 | defines the switch: URL and text sanitisers, the clamped integer width, the hex-colour sanitiser (null when it refuses), text for every other key |
| PluginSettings.ChatWidthField | src/includes/class-dialogpro-settings.php:161-188 | chat_width is cleaned to its clamped integer value |
| PluginSettings.ValidateSettings | src/includes/class-dialogpro-settings.php:161-188 | one entry per key of DEFAULTS and no other, each the cleaned input or default; the width is an integer in 10..100 |
| PluginSettings.Settings.constructor | src/includes/class-dialogpro-settings.php:43-45 | the settings are the stored array, or DEFAULTS when none is stored |
| PluginSettings.Settings.GetOption | src/includes/class-dialogpro-settings.php:193-195 | the stored value unless missing or null, then the default, then null |
| PluginSettings.SettingsRegistry.constructor | src/includes/class-dialogpro-settings.php:10 | the singleton slot starts empty |
| PluginSettings.SettingsRegistry.GetInstance | src/includes/class-dialogpro-settings.php:33-38 | the first call builds the object and every later call returns that same object |
| PluginSettings.DefaultLookups | src/includes/class-dialogpro-settings.php:17-28 | with nothing stored, the token limit is "8500" (casting to 8500), the position is bottom-right and enabled_post_types is null |
| PluginSettings.DefaultEntries | src/includes/class-dialogpro-settings.php:17-28 | DEFAULTS maps token_limit to "8500" and chat_position to "bottom-right", and has no enabled_post_types |
| PluginSettings.DefaultLimitCasts | src/includes/class-dialogpro-settings.php:17-28 | the default limit "8500" casts to 8500 |
| Styling.LtrimHash | wp-dialogpro/includes/class-dialogpro-styles.php:206 | a suffix of the input that does not start with '#' |
| Styling.Substr | wp-dialogpro/includes/class-dialogpro-styles.php:208-210 | at most the requested number of characters |
| Styling.ClampByte | wp-dialogpro/includes/class-dialogpro-styles.php:208-210 | the value is clamped into 0..255 and is unchanged inside it |
| Styling.AdjustBrightness | wp-dialogpro/includes/class-dialogpro-styles.php:205-213 | the result is '#' and six lower-case hex digits |
| Styling.AdjustDigits | wp-dialogpro/includes/class-dialogpro-styles.php:208-212 | the result is '#' and six lower-case hex digits |
| Styling.AdjustBrightnessChannels | wp-dialogpro/includes/class-dialogpro-styles.php:205-213 | each channel of the result is the input channel plus the steps, clamped to 0..255 |
| Styling.DigitsChannels | wp-dialogpro/includes/class-dialogpro-styles.php:208-212 | each channel of the printed colour is the shifted, clamped channel of the digits |
| Styling.ChannelsOfColour | wp-dialogpro/includes/class-dialogpro-styles.php:206-210 | the channels read from "#" + a + b + c are the values of a, b and c |
| Styling.AdjustBrightnessHashOptional | wp-dialogpro/includes/class-dialogpro-styles.php:206 | a leading '#' makes no difference |
| Styling.LtrimHashOfHash | wp-dialogpro/includes/class-dialogpro-styles.php:206 | ltrim removes an extra leading '#' as well |
| Styling.AdjustBrightnessZero | wp-dialogpro/includes/class-dialogpro-styles.php:205-213 | zero steps return a lower-case "#rrggbb" colour unchanged |
| Styling.ColourDigits | wp-dialogpro/includes/class-dialogpro-styles.php:206 | ltrim of "#rrggbb" leaves the six digits |
| Styling.DigitsZero | wp-dialogpro/includes/class-dialogpro-styles.php:208-212 | six hex digits shifted by zero print back as themselves |
| Styling.GetPositionCss | wp-dialogpro/includes/class-dialogpro-styles.php:191-200 | a known corner's placement; bottom-right's for anything else |
| Styling.PositionAlwaysKnown | wp-dialogpro/includes/class-dialogpro-styles.php:191-200 | whatever the setting holds, the placement is one of the four corners' |
| Styling.KeepNonEmpty | wp-dialogpro/includes/class-dialogpro-styles.php:68 | array_filter keeps no part that is "" or "0" |
| Styling.ImplodeNonEmpty | wp-dialogpro/includes/class-dialogpro-styles.php:68 | joining parts whose first is non-empty gives a non-empty string |
| Styling.JoinedPartsNonEmpty | wp-dialogpro/includes/class-dialogpro-styles.php:47-68 | the joined CSS is non-empty whatever the settings-dependent parts hold |
| Styling.AnimationNonEmpty | wp-dialogpro/includes/class-dialogpro-styles.php:161-171 | the animation rule is non-empty |
| Styling.JoinedNonEmpty | wp-dialogpro/includes/class-dialogpro-styles.php:68 | one part surviving the filter makes the joined CSS non-empty |
| Styling.KeepNonEmptyHead | wp-dialogpro/includes/class-dialogpro-styles.php:68 | array_filter keeps a surviving part ahead of the later ones |
| Styling.OutputStep | wp-dialogpro/includes/class-dialogpro-styles.php:24-42 | defines the intended output step: a cached copy is printed as it is; a miss caches the generated CSS and prints it; OutputHitUsesCache, OutputMissCaches and OutputOfEmptyCacheIsSilent state its cases |
| Styling.OutputHitUsesCache | wp-dialogpro/includes/class-dialogpro-styles.php:26-37 | a cache hit prints the cached copy and ignores what would be generated |
| Styling.OutputMissCaches | wp-dialogpro/includes/class-dialogpro-styles.php:28-37 | a miss caches the generated CSS and prints it unless it is "" or "0" |
| Styling.OutputOfEmptyCacheIsSilent | wp-dialogpro/includes/class-dialogpro-styles.php:33 | a cached "" or "0" prints nothing |
| Styling.Styles.constructor | wp-dialogpro/includes/class-dialogpro-styles.php:17-19 | the styles object holds the settings it is given and starts from the given transient, the one get_cached_css reads (wp-dialogpro/includes/class-dialogpro-styles.php:218-220), having printed nothing |
| Styling.Styles.GenerateAsWrittenAlwaysFails | wp-dialogpro/includes/class-dialogpro-styles.php:47-69 | as written, generation always fails on the undefined theme-integration method |
| Styling.Styles.GenerateCustomCss | wp-dialogpro/includes/class-dialogpro-styles.php:47-68 | defines the CSS without the missing part: the five defined parts, non-empty ones joined by newlines; GeneratedCssNonEmpty and HoverIsDarker state its properties |
| Styling.Styles.GeneratedCssNonEmpty | wp-dialogpro/includes/class-dialogpro-styles.php:47-68 | the generated CSS without the missing part is never empty |
| Styling.Styles.ChatWindowCss | wp-dialogpro/includes/class-dialogpro-styles.php:74-100 | defines the chat-window rule: the placement from the position table, chat_width cast to int as the width percentage and the escaped background colour; PositionAlwaysKnown shows the placement is always one of the four corners |
| Styling.Styles.MessageCss | wp-dialogpro/includes/class-dialogpro-styles.php:102-133 | defines the message rules: the escaped font family, font_size cast to int in pixels and the escaped primary colour behind user messages; GeneratedCssNonEmpty covers the joined parts |
| Styling.Styles.ButtonCss | wp-dialogpro/includes/class-dialogpro-styles.php:135-156 | defines the button rules: the escaped primary colour, and on hover that colour darkened by 20; HoverIsDarker states the darkening channel by channel |
| Styling.Styles.HoverIsDarker | wp-dialogpro/includes/class-dialogpro-styles.php:135-156 | the hover colour darkens each channel of the primary colour by 20, stopping at 0 |
| Styling.Styles.OutputCustomCss | wp-dialogpro/includes/class-dialogpro-styles.php:24-42 | one output step on the transient and the printed text, with the generated CSS |
| Styling.Styles.Store | wp-dialogpro/includes/class-dialogpro-styles.php:26-37 | one output step with CSS already generated |
| Styling.Styles.OutputMissPrints | wp-dialogpro/includes/class-dialogpro-styles.php:28-37 | with the generated CSS, a miss always prints something |
| Styling.Styles.OutputCustomCssAsWritten | wp-dialogpro/includes/class-dialogpro-styles.php:24-42 | as written: a hit prints the cache; a miss fails and changes nothing |
| Styling.Styles.AsWrittenFailsOnMiss | wp-dialogpro/includes/class-dialogpro-styles.php:24-66 | as written, every miss fails with the undefined-method error and every hit matches the intended step |
| Styling.Styles.ClearCache | wp-dialogpro/includes/class-dialogpro-styles.php:232-234 | the transient is gone |
| Logging.LevelRank | wp-dialogpro/includes/class-dialogpro-logger.php:10-15 | a rank from 1 to 4 exactly for the four level names, null otherwise |
| Logging.ConfiguredRank | wp-dialogpro/includes/class-dialogpro-logger.php:24-29 | the configured rank exists iff the setting is a string naming a level |
| Logging.PruneBackups | wp-dialogpro/includes/class-dialogpro-logger.php:107-116 | at most five backups are kept |
| Logging.PruneSplitsListing | wp-dialogpro/includes/class-dialogpro-logger.php:107-116 | the removed backups followed by the kept ones are the listing; the kept ones are its newest, min(n, 5) of them |
| Logging.PruneIdempotent | wp-dialogpro/includes/class-dialogpro-logger.php:107-116 | pruning twice removes nothing more |
| Logging.PruneAppend | wp-dialogpro/includes/class-dialogpro-logger.php:107-116 | when a new name is listed after all the others, it is the last kept, after the newest old ones |
| Logging.NameBefore | wp-dialogpro/includes/class-dialogpro-logger.php:112 | defines the byte-wise order in which glob() sorts names; NameBeforeIrreflexive, NameBeforeTotal and NameBeforeTransitive make it a strict total order |
| Logging.NameBeforeIrreflexive | wp-dialogpro/includes/class-dialogpro-logger.php:112 | no name sorts before itself |
| Logging.NameBeforeTotal | wp-dialogpro/includes/class-dialogpro-logger.php:112 | of two different names exactly one sorts first |
| Logging.NameBeforeTransitive | wp-dialogpro/includes/class-dialogpro-logger.php:112 | the order is transitive |
| Logging.Listing | wp-dialogpro/includes/class-dialogpro-logger.php:112 | defines glob()'s listing: the names strictly in sorted order; InsertKeepsListing and PruneKeepsListing show that rotation preserves it |
| Logging.Insert | wp-dialogpro/includes/class-dialogpro-logger.php:107-112 | a name created next to the listed ones appears in the listing with exactly the old names; InsertAtRank places it |
| Logging.Rank | wp-dialogpro/includes/class-dialogpro-logger.php:112 | the number of listed names sorting before a name, at most the listing's length |
| Logging.InsertAtRank | wp-dialogpro/includes/class-dialogpro-logger.php:107-112 | a new name is listed right after the names that sort before it |
| Logging.RankSplitsListing | wp-dialogpro/includes/class-dialogpro-logger.php:112 | in a sorted listing, the names before the rank sort before the new name and the rest after it |
| Logging.RankOfEarlier | wp-dialogpro/includes/class-dialogpro-logger.php:112 | a name that every listed name sorts before is listed last |
| Logging.InsertKeepsListing | wp-dialogpro/includes/class-dialogpro-logger.php:107-112 | creating a new name keeps the listing sorted |
| Logging.PruneKeepsListing | wp-dialogpro/includes/class-dialogpro-logger.php:112-115 | pruning a sorted listing leaves it sorted |
| Logging.PruneKeepsGreatest | wp-dialogpro/includes/class-dialogpro-logger.php:112-115 | every unlinked backup sorts before every kept one |
| Logging.PruneInsertKeepsNew | wp-dialogpro/includes/class-dialogpro-logger.php:107-115 | a new backup survives pruning iff fewer than five listed names sort after it |
| Logging.PruneInsert | wp-dialogpro/includes/class-dialogpro-logger.php:107-115 | creating a name and pruning keeps min(n + 1, 5) names, sorted, none new but that name, which survives iff fewer than five sort after it, and each unlinked name sorts before each kept one |
| Logging.FirstIndexOf | wp-dialogpro/includes/class-dialogpro-logger.php:58-74 | the first position of a character, or none when absent |
| Logging.LogLevelsArePlain | wp-dialogpro/includes/class-dialogpro-logger.php:10-15 | no level name holds ':' or a capital |
| Logging.LowerOfUpper | wp-dialogpro/includes/class-dialogpro-logger.php:58-74 | lower-casing undoes upper-casing on a plain level name, and the result has no ':' |
| Logging.Logger.constructor | wp-dialogpro/includes/class-dialogpro-logger.php:24-29 | the stored level rank is that of the logging_level setting |
| Logging.Logger.Rotate | wp-dialogpro/includes/class-dialogpro-logger.php:107-116 | rotation empties the file, lists today's backup in glob()'s sorted place (or keeps the existing one that the rename overwrites), keeps at most five backups and leaves the error log alone; WriteKeepsListing shows the order survives |
| Logging.Logger.RotateLogFile | wp-dialogpro/includes/class-dialogpro-logger.php:107-116 | the method performs one rotation: sorted insertion of today's backup, then pruning to the last five |
| Logging.Logger.ShouldLog | wp-dialogpro/includes/class-dialogpro-logger.php:51-53 | defines should_log with PHP's loose <= against a null rank; ShouldLogKnownLevels and NullRankComparisons state what it allows |
| Logging.Logger.FormatLogEntry | wp-dialogpro/includes/class-dialogpro-logger.php:58-74 | defines "[time] LEVEL: message" plus the JSON context; FormatParseRoundTrip proves it reads back into its parts |
| Logging.Logger.WriteToFile | wp-dialogpro/includes/class-dialogpro-logger.php:79-102 | defines write_to_file: rotate when the file's UTF-8 size in bytes exceeds 5 MB, then append the entry and a newline; NoRotationBelowThreshold and RotationAboveThreshold state both cases |
| Logging.Logger.LogStep | wp-dialogpro/includes/class-dialogpro-logger.php:34-46 | defines log: filtered calls change nothing, else the entry goes to the file or to the error log; FilteredCallChangesNothing, FileRouting and ErrorLogRouting state the three cases |
| Logging.Logger.WriteFile | wp-dialogpro/includes/class-dialogpro-logger.php:79-102 | the method performs one write_to_file step: rotation (sorted insertion, then pruning to the last five) when the file holds more than 5 MB of bytes, then the entry and a newline appended |
| Logging.Logger.Log | wp-dialogpro/includes/class-dialogpro-logger.php:34-46 | the method performs one log step |
| Logging.Logger.Error | wp-dialogpro/includes/class-dialogpro-logger.php:121-123 | a log step at level error |
| Logging.Logger.Warning | wp-dialogpro/includes/class-dialogpro-logger.php:125-127 | a log step at level warning |
| Logging.Logger.Info | wp-dialogpro/includes/class-dialogpro-logger.php:129-131 | a log step at level info |
| Logging.Logger.Debug | wp-dialogpro/includes/class-dialogpro-logger.php:133-135 | a log step at level debug |
| Logging.Logger.ShouldLogKnownLevels | wp-dialogpro/includes/class-dialogpro-logger.php:51-53 | a known level is logged iff its rank is at most the configured rank; errors are logged whenever anything is |
| Logging.Logger.WarningConfiguration | wp-dialogpro/includes/class-dialogpro-logger.php:51-53 | configured at warning, error and warning pass and info and debug do not |
| Logging.Logger.NullRankComparisons | wp-dialogpro/includes/class-dialogpro-logger.php:51-53 | an unknown configured level drops every known level; an unknown message level is always logged |
| Logging.Logger.FilteredCallChangesNothing | wp-dialogpro/includes/class-dialogpro-logger.php:36-38 | a filtered-out call changes nothing |
| Logging.Logger.FileRouting | wp-dialogpro/includes/class-dialogpro-logger.php:40-45 | with log_to_file, the entry and a newline end the file and the error log is untouched |
| Logging.Logger.ErrorLogRouting | wp-dialogpro/includes/class-dialogpro-logger.php:40-45 | without log_to_file, the entry goes to the error log and the files are untouched |
| Logging.Logger.NoRotationBelowThreshold | wp-dialogpro/includes/class-dialogpro-logger.php:79-102 | with at most 5 MB of bytes in the file, the entry is appended, no backup changes, and the size grows by the entry's bytes plus one |
| Logging.Logger.RotationAboveThreshold | wp-dialogpro/includes/class-dialogpro-logger.php:79-116 | with more than 5 MB of bytes in the file and a sorted listing without today's backup, the file afterwards holds only the entry; min(n + 1, 5) names stay, sorted, none new but today's backup, which stays iff fewer than five older names sort after it; every unlinked name sorts before every kept one |
| Logging.Logger.RotationOfLatestBackup | wp-dialogpro/includes/class-dialogpro-logger.php:79-116 | when every older backup sorts before today's, today's backup is the last kept, after the newest older ones |
| Logging.Logger.WriteKeepsListing | wp-dialogpro/includes/class-dialogpro-logger.php:107-116 | rotation and write_to_file keep the backups in glob()'s sorted order, whether or not today's backup exists |
| Logging.DefaultLevelIsError | wp-dialogpro/includes/class-dialogpro-logger.php:24-29 | with no logging_level stored, the logger works at rank 1 (error) |
| Logging.FirstColonAfter | wp-dialogpro/includes/class-dialogpro-logger.php:58-74 | the first ':' of a + ":" + b is right after a, when a has none |
| Logging.ParseOfParts | wp-dialogpro/includes/class-dialogpro-logger.php:58-74 | an entry assembled from its parts reads back into them |
| Logging.FormatParseRoundTrip | wp-dialogpro/includes/class-dialogpro-logger.php:58-74 | a formatted entry reads back into its timestamp, its level and its text (message plus JSON context) |
| ChatInterface.AddAccessibilityAttributes | wp-dialogpro/includes/class-dialogpro-interface.php:161-173 | defines the str_replace that puts role, label and live-region attributes after every chat window opening; AccessibilityWithoutWindow and AccessibilityAtFirstWindow state its effect |
| ChatInterface.AccessibilityWithoutWindow | wp-dialogpro/includes/class-dialogpro-interface.php:161-173 | markup without the chat window opening is unchanged |
| ChatInterface.AccessibilityAtFirstWindow | wp-dialogpro/includes/class-dialogpro-interface.php:161-173 | at the first chat window opening the three attributes follow it; the rest is processed the same way |
| ChatInterface.AccessibilityExample | wp-dialogpro/tests/test-class-dialogpro-interface.php:204-218 | the test window gains role, label and live-region attributes right after its class |
| ChatInterface.LooseEqualsPostType | wp-dialogpro/includes/class-dialogpro-interface.php:141 | defines in_array's loose == between the post type and an entry: false equals the strings empty() accepts, and a string compares by LooseStringEquals |
| ChatInterface.InArray | wp-dialogpro/includes/class-dialogpro-interface.php:141 | defines in_array without strict mode: some entry is loosely equal to the post type |
| ChatInterface.InDefaultPostTypes | wp-dialogpro/includes/class-dialogpro-interface.php:139-141 | in_array against the intended ['post', 'page'] default is true exactly for the post types "post" and "page": neither default is a numeric string, so loose == is exact here |
| ChatInterface.Interface.constructor | wp-dialogpro/includes/class-dialogpro-interface.php:17-20 | the interface holds the settings and the paths it is given |
| ChatInterface.Interface.GetTemplatePath | wp-dialogpro/includes/class-dialogpro-interface.php:147-156 | the theme's override when it exists, otherwise the plugin's copy |
| ChatInterface.Interface.ShouldDisplayChatAsWritten | wp-dialogpro/includes/class-dialogpro-interface.php:131-142 | defines should_display_chat as written: hidden in the admin area, else in_array with PHP 8's loose == over the stored list, which throws when nothing is stored; AsWrittenFailsWithoutStoredList and DisplayFollowsEnabledList state both cases |
| ChatInterface.Interface.ShouldDisplayChat | wp-dialogpro/includes/class-dialogpro-interface.php:131-142 | defines should_display_chat with the intended ['post', 'page'] default, comparing post types with in_array's loose ==; DefaultShowsOnPostsAndPages, DisplayFollowsEnabledList and NumericPostTypeMatchesByValue state its outcomes |
| ChatInterface.Interface.LocalizedData | wp-dialogpro/includes/class-dialogpro-interface.php:70-86 | defines the settings block for the script: position, width, welcome text and the (int) cast of the token limit |
| ChatInterface.Interface.RenderGiven | wp-dialogpro/includes/class-dialogpro-interface.php:91-126 | defines the body of render_chat_window given should_display_chat's outcome: an uncaught in_array error, nothing when hidden, the decorated template when it exists, else a logged error and a comment for managers |
| ChatInterface.Interface.RenderChatWindowAsWritten | wp-dialogpro/includes/class-dialogpro-interface.php:91-142 | defines render_chat_window as written, over should_display_chat as written; RenderAsWrittenFailsWithoutStoredList shows it failing when nothing is stored |
| ChatInterface.Interface.RenderChatWindow | wp-dialogpro/includes/class-dialogpro-interface.php:91-142 | defines render_chat_window with the corrected should_display_chat (the intended ['post', 'page'] default of the finding for class-dialogpro-interface.php:139); RenderDecoratesTemplate, RenderReportsMissingTemplate and RenderAgreesWithStoredList state its outcomes |
| ChatInterface.Interface.RenderAsWrittenFailsWithoutStoredList | wp-dialogpro/includes/class-dialogpro-interface.php:91-142 | as written, a front-end request with nothing stored ends in in_array's TypeError, which escapes the catch: nothing is echoed or logged |
| ChatInterface.Interface.RenderAgreesWithStoredList | wp-dialogpro/includes/class-dialogpro-interface.php:91-142 | in the admin area, or with a stored list, the as-written and the corrected rendering are the same |
| ChatInterface.Interface.AdminHidesChat | wp-dialogpro/includes/class-dialogpro-interface.php:133-135 | in the admin area the chat is never shown |
| ChatInterface.Interface.DisplayFollowsEnabledList | wp-dialogpro/includes/class-dialogpro-interface.php:131-142 | with a stored list, the chat shows on the front end iff some entry equals the post type under in_array's loose == (numeric strings by value), in both versions |
| ChatInterface.Interface.NumericPostTypeMatchesByValue | wp-dialogpro/includes/class-dialogpro-interface.php:139-141 | a numeric post type matches a stored entry with the same value but a leading zero, such as "10" and "010", in both versions |
| ChatInterface.Interface.AsWrittenFailsWithoutStoredList | wp-dialogpro/includes/class-dialogpro-interface.php:139-141 | as written, a front-end request with no stored list fails in in_array |
| ChatInterface.Interface.DefaultShowsOnPostsAndPages | wp-dialogpro/includes/class-dialogpro-interface.php:139-141 | with the intended default, nothing stored shows the chat on posts and pages only |
| ChatInterface.Interface.LocalizedTokenLimit | wp-dialogpro/includes/class-dialogpro-interface.php:78 | a stored 64-bit limit, written out in digits, reaches the script as that integer |
| ChatInterface.Interface.LocalizedDefaults | wp-dialogpro/includes/class-dialogpro-interface.php:70-86 | with nothing stored the script sees bottom-right, width "20", the welcome text and limit 8500 |
| ChatInterface.Interface.RenderDecoratesTemplate | wp-dialogpro/includes/class-dialogpro-interface.php:91-117 | a shown window is the template's output with the attributes added, and nothing is logged |
| ChatInterface.Interface.RenderReportsMissingTemplate | wp-dialogpro/includes/class-dialogpro-interface.php:99-125 | a missing template is logged; only users who manage options see a comment |
| Activation.AddMissing | src/includes/class-dialogpro-activator.php:107-127 | defines add_option over a list: a name is added only when not yet stored; the AddMissing lemmas state its effect |
| Activation.WithDefaults | src/includes/class-dialogpro-activator.php:107-127 | defines the store after set_default_options; DefaultsKeepStored, DefaultsAllPresent and DefaultsIdempotent state its properties |
| Activation.Scheduled | src/includes/class-dialogpro-activator.php:148-152 | defines schedule_tasks: the daily cleanup is added unless already scheduled; ScheduleOnce states it |
| Activation.Site.ActivateStep | src/includes/class-dialogpro-activator.php:14-55 | defines activate: the WordPress check, then the PHP check, each failure logged; otherwise table, options, directories, cleanup and one flush |
| Activation.Site.DeactivateStep | src/includes/class-dialogpro-activator.php:157-181 | defines deactivate: the cleanup unscheduled, the cache directory's files cleared, one flush |
| Activation.AddMissingKeeps | src/includes/class-dialogpro-activator.php:107-127 | stored options keep their values, and every other name comes from the list |
| Activation.AddMissingAdds | src/includes/class-dialogpro-activator.php:107-127 | every listed name is stored afterwards |
| Activation.AddMissingFirstWins | src/includes/class-dialogpro-activator.php:107-127 | a name not yet stored takes the value of its first entry in the list |
| Activation.AddMissingAllStored | src/includes/class-dialogpro-activator.php:107-127 | when every listed name is already stored, nothing changes |
| Activation.DefaultsKeepStored | src/includes/class-dialogpro-activator.php:107-127 | existing options keep their values; only the defaults are added |
| Activation.DefaultsAllPresent | src/includes/class-dialogpro-activator.php:107-127 | after set_default_options every default is present |
| Activation.DefaultValuesOnFreshSite | wp-dialogpro/tests/class-dialogpro-activator-test.php:108-150 | on an empty store, the position is bottom-right and the token limit "8500" |
| Activation.DistinctNames | src/includes/class-dialogpro-activator.php:108-120 | no earlier default shares a name with a later one |
| Activation.DefaultsIdempotent | src/includes/class-dialogpro-activator.php:107-127 | adding the defaults twice is the same as once |
| Activation.ScheduleOnce | src/includes/class-dialogpro-activator.php:148-152 | the cleanup is scheduled daily from the first run, and a second run keeps it |
| Activation.Site.constructor | src/includes/class-dialogpro-activator.php:14-55 | the site holds the given state |
| Activation.Site.SetDefaultOptions | src/includes/class-dialogpro-activator.php:107-127 | the options gain the missing defaults; nothing else changes |
| Activation.Site.CreateTables | src/includes/class-dialogpro-activator.php:82-102 | the history table exists afterwards, an existing one unchanged; nothing else changes |
| Activation.Site.CreateDirectories | src/includes/class-dialogpro-activator.php:132-143 | the log and cache directories exist afterwards; nothing else changes |
| Activation.Site.ScheduleTasks | src/includes/class-dialogpro-activator.php:148-152 | the cleanup is scheduled unless it already is; nothing else changes |
| Activation.Site.Activate | src/includes/class-dialogpro-activator.php:14-55 | the method performs one activation step |
| Activation.Site.Deactivate | src/includes/class-dialogpro-activator.php:157-171 | the method performs one deactivation step |
| Activation.Site.WordPressCheckedFirst | src/includes/class-dialogpro-activator.php:17-20 | an old WordPress fails with the WordPress message whatever the PHP version |
| Activation.Site.FailedActivationOnlyLogs | src/includes/class-dialogpro-activator.php:46-54 | a failed activation only logs; nothing else changes |
| Activation.Site.ActivationSucceedsIff | src/includes/class-dialogpro-activator.php:14-77 | activation succeeds iff both versions reach their minimums |
| Activation.Site.VersionExamples | src/includes/class-dialogpro-activator.php:60-77 | WordPress 6.4.2 with PHP 8.3 passes; PHP 8.2.12 fails with the PHP message |
| Activation.Site.ActivationEstablishesSetup | src/includes/class-dialogpro-activator.php:14-55 | a successful activation leaves the table, the directories and the cleanup event in place, and flushes once |
| Activation.Site.DeactivationClears | src/includes/class-dialogpro-activator.php:157-181 | deactivation leaves no cleanup scheduled and, when the cache directory exists, no file that glob('*.*') would list; options and tables are untouched |
| Bootstrap.AutoloadAsWritten | wp-dialogpro/wp-dialogpro.php:30-43 | defines the autoloader as written, with no dash after "class-dialogpro"; ContainerPath shows the file it misses |
| Bootstrap.CheckRequirements | wp-dialogpro/wp-dialogpro.php:48-74 | defines dialogpro_check_requirements: PHP first, then WordPress, one notice per failure; RequirementsMetIff and PhpCheckedFirst state it |
| Bootstrap.Autoload | wp-dialogpro/wp-dialogpro.php:30-43 | a path exactly for class names starting with DialogPro |
| Bootstrap.Required | wp-dialogpro/wp-dialogpro.php:40-42 | the mapped file is required iff it exists |
| Bootstrap.StemOfSuffix | wp-dialogpro/wp-dialogpro.php:36-37 | the stem of DialogPro + a plain suffix is the suffix in lower case |
| Bootstrap.DropLeading | wp-dialogpro/wp-dialogpro.php:36 | removing a string that occurs only at the start leaves what follows it |
| Bootstrap.AutoloadOfPrefixedClass | wp-dialogpro/wp-dialogpro.php:30-43 | a prefixed class maps to class-dialogpro + the lower-cased rest: directly as written, after a dash as intended |
| Bootstrap.ForeignClassesIgnored | wp-dialogpro/wp-dialogpro.php:32-34 | classes without the prefix are left to other autoloaders |
| Bootstrap.ContainerSuffixPlain | wp-dialogpro/wp-dialogpro.php:36 | "Container" holds neither "DialogPro" nor '_' |
| Bootstrap.ContainerPath | wp-dialogpro/wp-dialogpro.php:36-38 | DialogProContainer maps to class-dialogprocontainer.php as written, and to class-dialogpro-container.php as intended |
| Bootstrap.ContainerFileNames | wp-dialogpro/wp-dialogpro.php:38 | the two file names the mappings build |
| Bootstrap.ContainerLower | wp-dialogpro/wp-dialogpro.php:37 | "Container" lower-cases to "container" |
| Bootstrap.RequirementsMetIff | wp-dialogpro/wp-dialogpro.php:48-74 | met iff both versions reach their minimums; a failure registers exactly one notice |
| Bootstrap.PhpCheckedFirst | wp-dialogpro/wp-dialogpro.php:49-59 | an old PHP is reported whatever the WordPress version |
| Bootstrap.RunDialogpro | wp-dialogpro/wp-dialogpro.php:79-116 | nothing is built when requirements fail; a missing container class stops start-up; otherwise the three services are registered, none created |
| Bootstrap.RegisterCoreServices | wp-dialogpro/wp-dialogpro.php:87-100 | settings, api and session are registered in that order, and nothing is created |
| Bootstrap.ActivationHook | wp-dialogpro/wp-dialogpro.php:122-134 | the hook runs one activation step; on failure it logs the message once more and dies with it |
| Php.EmptyStringIsEmptyOrZero | src/includes/class-dialogpro-messages.php:71 | a string is empty in PHP's sense iff it is "" or "0" |
| Php.TrimEmptyIff | src/includes/class-dialogpro-messages.php:71 | trim gives "" iff every character is one trim strips |
| Php.Trim | src/includes/class-dialogpro-messages.php:71 | defines trim as the left then the right strip of PHP's six trim characters; TrimEmptyIff states when it empties a string |
| Php.IntCast | src/includes/class-dialogpro-session.php:90-93 | the (int) cast of a string is always a 64-bit int; IntCastOfDigits through IntCastNonNumeric state its cases |
| Php.LeadingNumber | src/includes/class-dialogpro-session.php:90-93 | a numeric prefix exists iff the text starts with a digit, or with '.' and then a digit |
| Php.CapToInt64 | src/includes/class-dialogpro-session.php:90-93 | the result is a 64-bit int; a value that fits is kept, one that overflows a double gives 0 |
| Php.ScaledUp | src/includes/class-dialogpro-session.php:90-93 | scaling by a non-negative exponent is multiplication by that power of ten |
| Php.IntCastOfDigits | src/includes/class-dialogpro-settings.php:17-28 | a string of digits casts to its decimal value, capped to 64 bits |
| Php.IntCastUnsigned | src/includes/class-dialogpro-session.php:90-93 | a string starting with a digit casts to its leading number, capped |
| Php.IntCastNegative | src/includes/class-dialogpro-session.php:90-93 | a '-' before such a string casts to the negated leading number, capped |
| Php.IntCastExponent | src/includes/class-dialogpro-settings.php:175 | digits, 'e' or 'E' and digits cast to mantissa times ten to the exponent, capped |
| Php.IntCastTruncates | src/includes/class-dialogpro-settings.php:175 | a fraction is truncated toward zero, for either sign |
| Php.FractionTruncated | src/includes/class-dialogpro-settings.php:175 | dividing out the fraction's digits leaves the integer part |
| Php.IntCastTrailing | src/includes/class-dialogpro-session.php:90-93 | digits followed by other text cast to the digits' value |
| Php.IntCastNonNumeric | src/includes/class-dialogpro-session.php:90-93 | text that does not open with a number, a space, a sign or '.' casts to 0 |
| Php.IntCastExponentExample | src/includes/class-dialogpro-settings.php:175 | "1e4" casts to 10000 |
| Php.IntCastTruncationExample | src/includes/class-dialogpro-session.php:90-93 | "-1.9" casts to -1 |
| Php.IntCastTrailingExample | src/includes/class-dialogpro-session.php:90-93 | "12abc" casts to 12 |
| Php.IntCastOfIntToString | src/includes/class-dialogpro-session.php:90-111 | a 64-bit integer written to the token cookie casts back to itself |
| Php.IntToString | src/includes/class-dialogpro-session.php:101 | defines (string) of an int and sprintf('%d'): a '-' for negatives, then the decimal digits; NatToStringValue and IntCastOfIntToString prove the digits read back as the number |
| Php.NatToStringValue | src/includes/class-dialogpro-session.php:101 | the decimal digits written for a natural number have that value |
| Php.IntVal | src/includes/class-dialogpro-settings.php:175 | defines intval() and (int) of a loosely typed value: null gives 0, booleans 0 or 1, an int itself, a string its IntCast, an array 0 or 1; ChatWidthField and DefaultLimitCasts use it on settings |
| Php.StrVal | wp-dialogpro/includes/class-dialogpro-styles.php:94-95 | (string) of a loosely typed value: a string is itself and null gives "" |
| Php.ToLower | wp-dialogpro/wp-dialogpro.php:37 | strtolower keeps the length and lower-cases each character in place |
| Php.ToUpper | wp-dialogpro/includes/class-dialogpro-logger.php:70 | strtoupper keeps the length and upper-cases each character in place; LowerOfUpper undoes it on level names |
| Php.HexDec | wp-dialogpro/includes/class-dialogpro-styles.php:208-210 | defines hexdec: the hex digits read as a base-16 number, other characters skipped; HexDecTwo, HexDecOfHex2 and Hex2OfHexDec state its value on two digits |
| Php.HexDecTwo | wp-dialogpro/includes/class-dialogpro-styles.php:208-210 | hexdec of two hex digits is 16 times the first plus the second |
| Php.Hex2 | wp-dialogpro/includes/class-dialogpro-styles.php:212 | sprintf('%02x') of a byte is two lower-case hex digits |
| Php.HexDecOfHex2 | wp-dialogpro/includes/class-dialogpro-styles.php:208-212 | hexdec reads back every byte sprintf('%02x') writes |
| Php.Hex2OfHexDec | wp-dialogpro/includes/class-dialogpro-styles.php:208-212 | sprintf('%02x') writes back any two lower-case hex digits hexdec read |
| Php.ExponentLength | wp-dialogpro/includes/class-dialogpro-interface.php:141 | the exponent's length is within the text, and positive whenever an exponent is read |
| Php.NumberTail | wp-dialogpro/includes/class-dialogpro-interface.php:141 | defines the rest of a numeric string after its integer digits: fraction, exponent, trailing whitespace and nothing else; NumberTailExponent states a case |
| Php.UnsignedNumeric | wp-dialogpro/includes/class-dialogpro-interface.php:141 | defines an unsigned numeric string: digits, then a numeric tail; UnsignedNumericSplit states the split |
| Php.NumericValue | wp-dialogpro/includes/class-dialogpro-interface.php:141 | defines PHP 8's numeric strings and their exact value; NumericValueOfDigits, NumericValueWithExponent and NotNumericByFirst state its cases |
| Php.SameNumber | wp-dialogpro/includes/class-dialogpro-interface.php:141 | defines equality of two exact decimal values, counted in the units of the smaller exponent |
| Php.LooseStringEquals | wp-dialogpro/includes/class-dialogpro-interface.php:141 | defines PHP 8's == between strings: two numeric strings compare by value, any other pair as text; LooseStringEqualsReflexiveSymmetric, LooseEqualsNonNumeric, LooseEqualsDigits, LooseEqualsLeadingZero and LooseEqualsExponentOne state its behaviour |
| Php.LooseStringEqualsReflexiveSymmetric | wp-dialogpro/includes/class-dialogpro-interface.php:141 | loose == is reflexive and symmetric |
| Php.LooseEqualsNonNumeric | wp-dialogpro/includes/class-dialogpro-interface.php:141 | a non-numeric string is loosely equal to itself only |
| Php.NotNumericByFirst | wp-dialogpro/includes/class-dialogpro-interface.php:141 | a string opening with a letter or other non-numeric character is not numeric, so "post" and "page" compare as text |
| Php.UnsignedNumericSplit | wp-dialogpro/includes/class-dialogpro-interface.php:141 | an unsigned numeric string splits at the end of its integer digits |
| Php.NumericValueUnsigned | wp-dialogpro/includes/class-dialogpro-interface.php:141 | a string opening with a digit has its unsigned value |
| Php.NumericValueOfDigits | wp-dialogpro/includes/class-dialogpro-interface.php:141 | a digit string is numeric with the value it spells |
| Php.LooseEqualsDigits | wp-dialogpro/includes/class-dialogpro-interface.php:141 | two digit strings are loosely equal iff they spell the same number |
| Php.NumberTailExponent | wp-dialogpro/includes/class-dialogpro-interface.php:141 | "e" and a digit after the integer digits is that power of ten |
| Php.NumericValueWithExponent | wp-dialogpro/includes/class-dialogpro-interface.php:141 | digits, "e" and a digit are numeric with that exponent |
| Php.DigitsValueLeadingZero | wp-dialogpro/includes/class-dialogpro-interface.php:141 | a leading zero leaves a digit string's value unchanged |
| Php.LooseEqualsLeadingZero | wp-dialogpro/includes/class-dialogpro-interface.php:141 | in_array("10", ["010"]) holds: a digit string equals itself with a leading zero |
| Php.LooseEqualsExponentOne | wp-dialogpro/includes/class-dialogpro-interface.php:141 | in_array("1e1", ["10"]) holds: digits then "e1" equal the digits then "0" |
| Php.ByteLength | wp-dialogpro/includes/class-dialogpro-logger.php:89 | the UTF-8 size of a text is between its length and four times it |
| Php.ByteLengthAppend | wp-dialogpro/includes/class-dialogpro-logger.php:89 | the byte size of joined texts is the sum of their sizes |
| Php.ByteLengthAscii | wp-dialogpro/includes/class-dialogpro-logger.php:89 | the byte size equals the character count iff every character is ASCII |
| Php.StrReplace | wp-dialogpro/includes/class-dialogpro-interface.php:168-172 | defines str_replace with one search string: every non-overlapping occurrence, left to right; StrReplaceFirst and StrReplaceAbsent state it |
| Php.StrReplaceFirst | wp-dialogpro/includes/class-dialogpro-interface.php:168-172 | str_replace rewrites the first occurrence and continues after it |
| Php.StrReplaceAbsent | wp-dialogpro/includes/class-dialogpro-interface.php:168-172 | str_replace leaves a string without the search string unchanged |
| Php.VersionCompare | src/includes/class-dialogpro-activator.php:60-77 | the comparison is -1, 0 or 1: the first differing part decides, and a prefix is the lesser |
| Php.VersionCompareAntisymmetric | src/includes/class-dialogpro-activator.php:60-77 | swapping the versions negates the comparison |
| Php.VersionCompareZeroIff | src/includes/class-dialogpro-activator.php:60-77 | two versions compare equal iff they are the same |

## Left out

- Versions are sequences of numbers. The parsing of version strings, including suffixes such as "-beta", is not modelled.
- Time, randomness, cookies received, HTTP, md5, json_encode/json_decode, file_exists, the template include, the WordPress escapers and sanitisers, and translations are parameters or abstract functions. Their behaviour is not modelled.
- Expiry is not modelled: the object-cache TTL (CACHE_TTL), the transients' lifetimes and the session cookies' timestamps. These are kept as constants or as the written expiry value only.
- The error_log lines of the message handler, the history code and the styles code are not recorded. The model keeps the API's, the logger's and the activator's logs.
- ServiceContainer.Container.Get: factories are opaque tags. A factory that itself calls get() on the container is not modelled, nor are PHP's integer conversion of numeric-string ids.
- MessageHandling.MessageHandler.HandleMessage: the API body is a map of scalar values. A JSON body that is not an object is not modelled.
- The deactivation hook requires class-dialogpro-deactivator.php. That file is not part of this model.
- The core's run (DialogProCore), the admin page, the settings registration and render_field, asset enqueuing, the i18n loader and uninstall.php are outside the modelled core.
- ServiceContainer.SingletonScenario, ServiceContainer.ReRegisterScenario, ServiceContainer.NullFactoryScenario and Bootstrap.StartUpWithBothLoaders are worked examples. Their assertions check the container's and the autoloader's contracts on concrete calls, and they carry no ensures of their own.
- The transport's timeout and the exception types are not modelled. A failed request is a `WpError` response.
- Php.IntCast: the numeric prefix is evaluated exactly and then capped to the 64-bit range. PHP reads a fraction, an exponent or an over-long integer through a double first, so a value with more than about fifteen significant digits can differ from PHP's by that double's rounding. Hexadecimal, octal and binary prefixes are not numeric in a cast and give 0, as in PHP.
- Php.IntCastOfIntToString, ChatInterface.Interface.LocalizedTokenLimit: the read-back is proved for 64-bit integers only. A larger PHP integer does not exist; the sum becomes a float.
- SessionStore.Session.IsValid, SessionStore.Session.UpdateTokenCount: as written, both read the token limit through `$this->container` (src/includes/class-dialogpro-session.php:119 and :165), which the class never declares or sets; the factory builds it with `new DialogProSession()` (wp-dialogpro/wp-dialogpro.php:99). So is_valid on a session with an id calls get() on null, and that Error escapes handle_message's `catch (Exception)`: as written, no valid message gets a reply. The model passes the limit in as a parameter instead.
- SessionStore.Session.UpdateTokenCount: the cookie is promised to read back as the count only while the count is a 64-bit int. In PHP an overflowing sum becomes a float, and that float's printing and the typed property's conversion are not modelled.
- Logging.NameBefore: glob() sorts its matches with the C library's collation. The model compares names character by character by code point, which is that order in the C locale. The backup names share their prefix and differ only in the ASCII date after it.
- Php.LooseStringEquals: two numeric strings are compared by their exact decimal values. PHP compares them as ints when both are integer strings within the 64-bit range, and otherwise as doubles, so two values that round to the same double, or two integer strings beyond the 64-bit range, can be equal in PHP and differ here.
- PHP_EOL, which ends each log file entry (wp-dialogpro/includes/class-dialogpro-logger.php:95), is taken to be "\n", as on the Unix-like servers WordPress usually runs on. The generated CSS parts are joined by a literal "\n" in the source, so nothing is assumed there.
- Php.ByteLength: the log file is taken to hold UTF-8 text. filesize() counts whatever bytes are on disk, including a file written by something else.
- The generated CSS keeps each rule's declarations and their order, but each rule is on one line. The source's indentation and line breaks inside a rule are not kept, so the printed text differs from PHP's in whitespace only.

## Findings

| source | as written | input that shows it | evidently intended | confidence | as-written member | corrected member |
|---|---|---|---|---|---|---|
| wp-dialogpro/includes/class-dialogpro-styles.php:66 | generate_custom_css calls generate_theme_integration_css, which the class does not define. The resulting Error is not an Exception, so the catch does not stop it | any output_custom_css call with no CSS cached | collect the five defined parts and print them | high, not executed | Styling.Styles.AsWrittenFailsOnMiss | Styling.Styles.OutputMissPrints |
| wp-dialogpro/wp-dialogpro.php:36-38 | the autoloader builds "class-dialogpro" + stem with no dash between them | class DialogProContainer maps to includes/class-dialogprocontainer.php, but the file is includes/class-dialogpro-container.php | "class-dialogpro-" + stem | high, not executed | Bootstrap.ContainerPath | Bootstrap.AutoloadOfPrefixedClass |
| wp-dialogpro/includes/class-dialogpro-interface.php:139 | get_option takes one parameter, so the ['post', 'page'] default is dropped. enabled_post_types is not in DEFAULTS, so the list is null and in_array throws a TypeError | a front-end request with no enabled_post_types stored | fall back to posts and pages | medium, not executed | ChatInterface.Interface.AsWrittenFailsWithoutStoredList | ChatInterface.Interface.DefaultShowsOnPostsAndPages |
