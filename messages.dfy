/**
 * DialogProMessages: checks an incoming chat message, rewrites it for the
 * backend, relays it through the API, charges the session's token quota and
 * shapes the reply; it also keeps a per-session history capped at fifty
 * entries. WordPress's sanitiser, filter hook and HTML whitelist are abstract
 * functions; the four regular expressions of contains_xss are written out as
 * predicates over match positions.
 */
module MessageHandling {
  import opened Php
  import opened SessionStore
  import opened ChatApi

  const MaxMessageLength: int := 1000
  /** The most entries a session's history keeps. */
  const HistoryCap: int := 50

  const EmptyMessage: string := "Message cannot be empty"
  const TooLongMessage: string := "Message exceeds maximum length of 1000 characters"
  const InvalidContent: string := "Invalid message content"
  const InvalidSession: string := "Invalid session"
  const TokenLimitExceeded: string := "Token limit exceeded"
  const FailurePrefix: string := "Failed to process message: "
  const HistoryPrefix: string := "dialogpro_history_"
  /** The TypeError get_session_id() throws when the session holds no identifier. */
  const NullSessionId: string := "Return value must be of type string, null returned"

  // ---------------------------------------------------------------------
  // The XSS blocklist
  // ---------------------------------------------------------------------

  /** PCRE's \w without Unicode support: [A-Za-z0-9_]. */
  predicate IsWordChar(c: char)
  {
    ('A' <= c <= 'Z') || ('a' <= c <= 'z') || ('0' <= c <= '9') || c == '_'
  }

  /** PCRE's \s: space, \t, \n, \x0B, \f and \r. */
  predicate IsPcreSpace(c: char)
  {
    c == ' ' || c == '\t' || c == '\n' || c == '\U{000B}' || c == '\U{000C}' || c == '\r'
  }

  /** The lower-case literal `lit` matches at `i` under the /i flag. */
  predicate IMatchAt(s: string, i: int, lit: string)
  {
    0 <= i && i + |lit| <= |s| && ToLower(s[i..i + |lit|]) == lit
  }

  /** /<[^>]*>/ matches s[i..j+1]. */
  predicate TagAt(s: string, i: int, j: int)
  {
    0 <= i < j < |s| && s[i] == '<' && s[j] == '>' && forall m :: i < m < j ==> s[m] != '>'
  }

  /** /on\w+\s*=/i matches s[i..k+1], the word characters ending before j. */
  predicate HandlerAt(s: string, i: int, j: int, k: int)
  {
    && IMatchAt(s, i, "on") && i + 2 < j <= k < |s|
    && (forall m :: i + 2 <= m < j ==> IsWordChar(s[m]))
    && (forall m :: j <= m < k ==> IsPcreSpace(s[m]))
    && s[k] == '='
  }

  /** /data:\s*\w+/i matches from i, its first word character at j. */
  predicate DataUriAt(s: string, i: int, j: int)
  {
    && IMatchAt(s, i, "data:") && i + 5 <= j < |s|
    && (forall m :: i + 5 <= m < j ==> IsPcreSpace(s[m]))
    && IsWordChar(s[j])
  }

  predicate TagMatch(s: string)
  {
    exists i, j :: 0 <= i < |s| && 0 <= j < |s| && TagAt(s, i, j)
  }

  predicate ScriptMatch(s: string)
  {
    exists i :: 0 <= i < |s| && IMatchAt(s, i, "javascript:")
  }

  predicate HandlerMatch(s: string)
  {
    exists i, j, k :: 0 <= i < |s| && 0 <= j < |s| && 0 <= k < |s| && HandlerAt(s, i, j, k)
  }

  predicate DataUriMatch(s: string)
  {
    exists i, j :: 0 <= i < |s| && 0 <= j < |s| && DataUriAt(s, i, j)
  }

  /** contains_xss: any of the four patterns matches somewhere in the message. */
  predicate ContainsXss(s: string)
  {
    TagMatch(s) || ScriptMatch(s) || HandlerMatch(s) || DataUriMatch(s)
  }

  lemma {:induction false} FirstCloseAfter(s: string, i: int, j: int)
    requires 0 <= i < j < |s| && s[i] == '<' && s[j] == '>'
    ensures exists j' :: TagAt(s, i, j')
    decreases j - i
  {
    if forall m :: i < m < j ==> s[m] != '>' {
      assert TagAt(s, i, j);
    } else {
      var m :| i < m < j && s[m] == '>';
      FirstCloseAfter(s, i, m);
    }
  }

  /** The tag pattern matches exactly when some '<' is followed, anywhere later, by a '>'. */
  lemma TagMatchIff(s: string)
    ensures TagMatch(s) <==> exists i, j :: 0 <= i < j < |s| && s[i] == '<' && s[j] == '>'
  {
    if i, j :| 0 <= i < j < |s| && s[i] == '<' && s[j] == '>' {
      FirstCloseAfter(s, i, j);
    }
  }

  lemma IMatchAtChar(s: string, i: int, lit: string, k: int)
    requires IMatchAt(s, i, lit) && 0 <= k < |lit|
    ensures LowerChar(s[i + k]) == lit[k]
  {
    assert s[i..i + |lit|][k] == s[i + k];
  }

  /**
   * A message with no '<', no '=', and no ':' right after an 'a' or a 't'
   * of either case trips none of the patterns ("data:" ends in "a:",
   * "javascript:" in "t:").
   */
  lemma NoXssWithoutMarkers(s: string)
    requires forall k :: 0 <= k < |s| ==> s[k] != '<' && s[k] != '='
    requires forall k :: 0 <= k < |s| - 1 && s[k + 1] == ':' ==> LowerChar(s[k]) != 'a' && LowerChar(s[k]) != 't'
    ensures !ContainsXss(s)
  {
    forall i | IMatchAt(s, i, "javascript:") ensures false {
      IMatchAtChar(s, i, "javascript:", 9);
      IMatchAtChar(s, i, "javascript:", 10);
    }
    forall i, j | DataUriAt(s, i, j) ensures false {
      IMatchAtChar(s, i, "data:", 3);
      IMatchAtChar(s, i, "data:", 4);
    }
  }

  lemma LowerCaseFixed(t: string)
    requires forall k :: 0 <= k < |t| ==> !('A' <= t[k] <= 'Z')
    ensures ToLower(t) == t
  {
  }

  /** The tag string of the handler's unit test is refused. */
  lemma XssExampleTag()
    ensures ContainsXss("<script>alert(\"xss\")</script>")
  {
    var tag := "<script>alert(\"xss\")</script>";
    assert TagAt(tag, 0, 7);
  }

  /** The script string of the handler's unit test is refused. */
  lemma XssExampleScript()
    ensures ContainsXss("javascript:alert(\"xss\")")
  {
    var js := "javascript:alert(\"xss\")";
    assert js[0..11] == "javascript:";
    LowerCaseFixed("javascript:");
    assert IMatchAt(js, 0, "javascript:");
  }

  /** The event-handler string of the handler's unit test is refused. */
  lemma XssExampleHandler()
    ensures ContainsXss("onclick=alert(\"xss\")")
  {
    var on := "onclick=alert(\"xss\")";
    assert on[0..2] == "on";
    LowerCaseFixed("on");
    assert IMatchAt(on, 0, "on");
    assert HandlerAt(on, 0, 7, 7);
  }

  /** The data-URI string of the handler's unit test is refused. */
  lemma XssExampleData()
    ensures ContainsXss("data:image/jpeg;base64,")
  {
    var data := "data:image/jpeg;base64,";
    assert data[0..5] == "data:";
    LowerCaseFixed("data:");
    assert IMatchAt(data, 0, "data:");
    assert DataUriAt(data, 0, 5);
  }

  /** The two harmless strings of the handler's unit test pass, the one with an emoticon included. */
  lemma XssExamplesPassed()
    ensures !ContainsXss("Normal text message")
    ensures !ContainsXss("Message with :) emoticon")
  {
    NoXssWithoutMarkers("Normal text message");
    NoXssWithoutMarkers("Message with :) emoticon");
  }

  // ---------------------------------------------------------------------
  // Validation
  // ---------------------------------------------------------------------

  /**
   * validate_message: the error it throws, or None. A message that trims to
   * "" or "0" is empty for PHP; length is counted in characters.
   */
  function ValidateMessage(m: string): (err: Option<string>)
    ensures err == Some(EmptyMessage) <==> EmptyString(Trim(m))
    ensures err == Some(TooLongMessage) <==> !EmptyString(Trim(m)) && |m| > MaxMessageLength
    ensures err == Some(InvalidContent) <==> !EmptyString(Trim(m)) && |m| <= MaxMessageLength && ContainsXss(m)
    ensures err.None? <==> !EmptyString(Trim(m)) && |m| <= MaxMessageLength && !ContainsXss(m)
  {
    if EmptyString(Trim(m)) then Some(EmptyMessage)
    else if |m| > MaxMessageLength then Some(TooLongMessage)
    else if ContainsXss(m) then Some(InvalidContent)
    else None
  }

  lemma TrimOfLetters(s: string)
    requires s != [] && forall k :: 0 <= k < |s| ==> s[k] == 'a'
    ensures !EmptyString(Trim(s))
  {
    TrimEmptyIff(s);
    assert !IsTrimChar(s[0]);
  }

  /** Blank messages and "0" are refused as empty. */
  lemma ValidateEmptyExamples()
    ensures ValidateMessage("") == Some(EmptyMessage)
    ensures ValidateMessage(" \t\n") == Some(EmptyMessage)
    ensures ValidateMessage("0") == Some(EmptyMessage)
  {
    TrimEmptyIff(" \t\n");
    var zero := "0";
    assert TrimLeft(zero) == zero && TrimRight(zero) == zero;
  }

  /** 1000 characters pass the length check and 1001 do not. */
  lemma ValidateLengthExamples()
    ensures ValidateMessage(seq(1000, _ => 'a')).None?
    ensures ValidateMessage(seq(1001, _ => 'a')) == Some(TooLongMessage)
  {
    var ok := seq(1000, _ => 'a');
    TrimOfLetters(ok);
    NoXssWithoutMarkers(ok);
    TrimOfLetters(seq(1001, _ => 'a'));
  }

  // ---------------------------------------------------------------------
  // Emoticons
  // ---------------------------------------------------------------------

  /** The emoticon table, in the order str_replace applies it. */
  const Emoticons: seq<(string, string)> := [(":)", "smile"), (":(", "sad"), (";)", "wink"), (":D", "grin")]

  /** str_replace with arrays: each search string in turn, over the previous result. */
  function ReplaceEach(s: string, pairs: seq<(string, string)>): string
    decreases |pairs|
  {
    if pairs == [] then s else ReplaceEach(StrReplace(s, pairs[0].0, pairs[0].1), pairs[1..])
  }

  /** convert_emoticons. */
  function ConvertEmoticons(s: string): string
  {
    ReplaceEach(s, Emoticons)
  }

  predicate IsMarker(c: char) { c == ':' || c == ';' }

  predicate MarkerFree(s: string)
  {
    forall k :: 0 <= k < |s| ==> !IsMarker(s[k])
  }

  /** Every search string is a marker followed by a non-marker. */
  predicate MarkerSearches(pairs: seq<(string, string)>)
  {
    forall p :: 0 <= p < |pairs| ==> |pairs[p].0| == 2 && IsMarker(pairs[p].0[0]) && !IsMarker(pairs[p].0[1])
  }

  /** Every word is non-empty and holds no marker. */
  predicate PlainWords(pairs: seq<(string, string)>)
  {
    forall p :: 0 <= p < |pairs| ==> pairs[p].1 != [] && MarkerFree(pairs[p].1)
  }

  /** No word starts with the second character of a search string. */
  predicate NoJoins(pairs: seq<(string, string)>)
  {
    forall p, q :: 0 <= p < |pairs| && 0 <= q < |pairs| && pairs[p].1 != [] && |pairs[q].0| == 2 ==>
      pairs[p].1[0] != pairs[q].0[1]
  }

  predicate DistinctSearches(pairs: seq<(string, string)>)
  {
    forall p, q :: 0 <= p < q < |pairs| ==> pairs[p].0 != pairs[q].0
  }

  /**
   * The shape of the emoticon table that makes str_replace's passes agree
   * with one left-to-right pass: searches are a marker and a non-marker and
   * are distinct, words are non-empty and hold no marker, and no word starts
   * with the second character of a search (so a marker before a replaced
   * word never forms a new emoticon).
   */
  predicate EmoticonTable(pairs: seq<(string, string)>)
  {
    MarkerSearches(pairs) && PlainWords(pairs) && NoJoins(pairs) && DistinctSearches(pairs)
  }

  /** The word of the first entry whose search string is `key`. */
  function Lookup(pairs: seq<(string, string)>, key: string): (r: Option<string>)
    ensures r.Some? ==> exists p :: 0 <= p < |pairs| && pairs[p] == (key, r.value)
    ensures (exists p :: 0 <= p < |pairs| && pairs[p].0 == key) ==> r.Some?
    decreases |pairs|
  {
    if pairs == [] then None
    else if pairs[0].0 == key then Some(pairs[0].1)
    else
      var r := Lookup(pairs[1..], key);
      assert r.Some? ==> pairs[1..][0..][0..] == pairs[1..];
      r
  }

  /**
   * One left-to-right pass: where two characters form a search string, emit
   * its word and skip both; otherwise copy one character.
   */
  function EmoteWith(s: string, pairs: seq<(string, string)>): string
    decreases |s|
  {
    if |s| < 2 then s
    else match Lookup(pairs, s[..2])
      case Some(w) => w + EmoteWith(s[2..], pairs)
      case None => [s[0]] + EmoteWith(s[1..], pairs)
  }

  /** The emoticon conversion as one pass over the message. */
  function Emote(s: string): string
  {
    EmoteWith(s, Emoticons)
  }

  lemma EmoticonsFormTable()
    ensures EmoticonTable(Emoticons)
  {
    EmoticonWordsPlain();
    EmoticonsDoNotJoin();
    assert MarkerSearches(Emoticons);
    assert DistinctSearches(Emoticons);
  }

  lemma EmoticonWordsPlain()
    ensures PlainWords(Emoticons)
  {
    assert MarkerFree("smile") && MarkerFree("sad") && MarkerFree("wink") && MarkerFree("grin");
  }

  lemma EmoticonsDoNotJoin()
    ensures NoJoins(Emoticons)
  {
    var firsts, seconds := ['s', 's', 'w', 'g'], [')', '(', ')', 'D'];
    assert forall p :: 0 <= p < 4 ==> Emoticons[p].1[0] == firsts[p];
    assert forall q :: 0 <= q < 4 ==> Emoticons[q].0[1] == seconds[q];
  }

  /** The search string of an entry looks up that entry's word, searches being distinct. */
  lemma LookupOfEntry(pairs: seq<(string, string)>, j: int)
    requires EmoticonTable(pairs) && 0 <= j < |pairs|
    ensures Lookup(pairs, pairs[j].0) == Some(pairs[j].1)
  {
    var r := Lookup(pairs, pairs[j].0);
    var p :| 0 <= p < |pairs| && pairs[p] == (pairs[j].0, r.value);
  }

  lemma TableTail(pairs: seq<(string, string)>)
    requires EmoticonTable(pairs) && pairs != []
    ensures EmoticonTable(pairs[1..])
  {
    var rest := pairs[1..];
    assert forall p :: 0 <= p < |rest| ==> rest[p] == pairs[p + 1];
  }

  /** An empty table changes nothing. */
  lemma {:induction false} EmoteWithNoPairs(s: string)
    ensures EmoteWith(s, []) == s
    decreases |s|
  {
    if |s| >= 2 {
      EmoteWithNoPairs(s[1..]);
      assert [s[0]] + s[1..] == s;
    }
  }

  /** A pair that starts with no search string's first two characters is copied one character. */
  lemma EmoteCopiesHead(c: char, t: string, pairs: seq<(string, string)>)
    requires t == [] || Lookup(pairs, [c, t[0]]).None?
    ensures EmoteWith([c] + t, pairs) == [c] + EmoteWith(t, pairs)
  {
    var s := [c] + t;
    if t != [] {
      assert s[..2] == [c, t[0]];
      assert s[1..] == t;
    }
  }

  /** A non-marker never starts a search string. */
  lemma NoSearchAtNonMarker(pairs: seq<(string, string)>, key: string)
    requires MarkerSearches(pairs)
    requires key != [] && !IsMarker(key[0])
    ensures Lookup(pairs, key).None?
  {
  }

  /** Marker-free text passes through the pass unchanged, whatever follows it. */
  lemma {:induction false} EmoteMarkerFree(a: string, x: string, pairs: seq<(string, string)>)
    requires MarkerSearches(pairs) && MarkerFree(a)
    ensures EmoteWith(a + x, pairs) == a + EmoteWith(x, pairs)
    decreases |a|
  {
    if a == [] {
      assert a + x == x;
    } else {
      var t := a[1..] + x;
      assert a + x == [a[0]] + t;
      if t != [] {
        NoSearchAtNonMarker(pairs, [a[0], t[0]]);
      }
      EmoteCopiesHead(a[0], t, pairs);
      EmoteMarkerFree(a[1..], x, pairs);
      assert [a[0]] + (a[1..] + EmoteWith(x, pairs)) == a + EmoteWith(x, pairs);
    }
  }

  /** The step of ReplaceFirstThenEmote where the message opens with the first search string. */
  lemma ReplaceFirstAtSearch(s: string, pairs: seq<(string, string)>)
    requires EmoticonTable(pairs) && pairs != [] && |s| >= 2 && s[..2] == pairs[0].0
    requires EmoteWith(StrReplace(s[2..], pairs[0].0, pairs[0].1), pairs[1..]) == EmoteWith(s[2..], pairs)
    ensures EmoteWith(StrReplace(s, pairs[0].0, pairs[0].1), pairs[1..]) == EmoteWith(s, pairs)
  {
    var e, w := pairs[0].0, pairs[0].1;
    TableTail(pairs);
    assert StrReplace(s, e, w) == w + StrReplace(s[2..], e, w);
    EmoteMarkerFree(w, StrReplace(s[2..], e, w), pairs[1..]);
  }

  /** The step where the message opens with a later search string. */
  lemma ReplaceFirstAtOther(s: string, pairs: seq<(string, string)>, v: string)
    requires EmoticonTable(pairs) && pairs != [] && |s| >= 2 && s[..2] != pairs[0].0
    requires Lookup(pairs[1..], s[..2]) == Some(v)
    requires EmoteWith(StrReplace(s[2..], pairs[0].0, pairs[0].1), pairs[1..]) == EmoteWith(s[2..], pairs)
    ensures EmoteWith(StrReplace(s, pairs[0].0, pairs[0].1), pairs[1..]) == EmoteWith(s, pairs)
  {
    var e, w := pairs[0].0, pairs[0].1;
    var rest, k := pairs[1..], s[..2];
    var u := StrReplace(s[2..], e, w);
    assert !IsMarker(s[1]) by {
      var q :| 0 <= q < |rest| && rest[q] == (k, v);
      assert rest[q] == pairs[q + 1];
    }
    assert StrReplace(s, e, w) == k + u by {
      var x := s[1..];
      assert x[0] == s[1] && x[1..] == s[2..];
      assert StrReplace(s, e, w) == [s[0]] + StrReplace(x, e, w);
      assert StrReplace(x, e, w) == [s[1]] + u;
    }
    assert (k + u)[..2] == k && (k + u)[2..] == u;
  }

  /** The step where no search string opens the message. */
  lemma ReplaceFirstAtNone(s: string, pairs: seq<(string, string)>)
    requires EmoticonTable(pairs) && pairs != [] && |s| >= 2 && s[..2] != pairs[0].0
    requires Lookup(pairs[1..], s[..2]).None?
    requires EmoteWith(StrReplace(s[1..], pairs[0].0, pairs[0].1), pairs[1..]) == EmoteWith(s[1..], pairs)
    ensures EmoteWith(StrReplace(s, pairs[0].0, pairs[0].1), pairs[1..]) == EmoteWith(s, pairs)
  {
    var e, w := pairs[0].0, pairs[0].1;
    var rest, k := pairs[1..], s[..2];
    var t := StrReplace(s[1..], e, w);
    assert StrReplace(s, e, w) == [s[0]] + t;
    assert t == [] || Lookup(rest, [s[0], t[0]]).None? by {
      var x := s[1..];
      if t != [] && |x| >= 2 && x[..2] == e {
        assert t[0] == w[0];
      } else if t != [] {
        assert t[0] == x[0] == s[1];
        assert [s[0], t[0]] == k;
      }
    }
    EmoteCopiesHead(s[0], t, rest);
    assert EmoteWith(s, pairs) == [s[0]] + EmoteWith(s[1..], pairs) by {
      assert Lookup(pairs, k).None?;
    }
  }

  /**
   * Replacing the table's first search string everywhere and then making
   * one pass with the rest of the table is one pass with the whole table.
   */
  lemma {:induction false} ReplaceFirstThenEmote(s: string, pairs: seq<(string, string)>)
    requires EmoticonTable(pairs) && pairs != []
    ensures EmoteWith(StrReplace(s, pairs[0].0, pairs[0].1), pairs[1..]) == EmoteWith(s, pairs)
    decreases |s|
  {
    if |s| < 2 {
    } else if s[..2] == pairs[0].0 {
      ReplaceFirstThenEmote(s[2..], pairs);
      ReplaceFirstAtSearch(s, pairs);
    } else {
      match Lookup(pairs[1..], s[..2])
      case Some(v) =>
        ReplaceFirstThenEmote(s[2..], pairs);
        ReplaceFirstAtOther(s, pairs, v);
      case None =>
        ReplaceFirstThenEmote(s[1..], pairs);
        ReplaceFirstAtNone(s, pairs);
    }
  }

  /** str_replace with the whole table, search by search, is one left-to-right pass. */
  lemma {:induction false} ReplaceEachIsOnePass(s: string, pairs: seq<(string, string)>)
    requires EmoticonTable(pairs)
    ensures ReplaceEach(s, pairs) == EmoteWith(s, pairs)
    decreases |pairs|
  {
    if pairs == [] {
      EmoteWithNoPairs(s);
    } else {
      TableTail(pairs);
      ReplaceEachIsOnePass(StrReplace(s, pairs[0].0, pairs[0].1), pairs[1..]);
      ReplaceFirstThenEmote(s, pairs);
    }
  }

  /**
   * convert_emoticons turns every emoticon into its word in one left-to-right
   * pass, for every message.
   */
  lemma ConvertEmoticonsIsOnePass(s: string)
    ensures ConvertEmoticons(s) == Emote(s)
  {
    EmoticonsFormTable();
    ReplaceEachIsOnePass(s, Emoticons);
  }

  /** Text with no ':' or ';' is left as it is. */
  lemma ConvertEmoticonsPlain(s: string)
    requires MarkerFree(s)
    ensures ConvertEmoticons(s) == s
  {
    ConvertEmoticonsIsOnePass(s);
    EmoteMarkerFree(s, [], Emoticons);
    assert s + [] == s;
  }

  /**
   * After marker-free text, an emoticon becomes its word and the rest of the
   * message is converted in turn: "Hello :)" gives "Hello smile".
   */
  lemma ConvertEmoticonsOne(a: string, b: string, j: int)
    requires MarkerFree(a) && 0 <= j < |Emoticons|
    ensures ConvertEmoticons(a + Emoticons[j].0 + b) == a + Emoticons[j].1 + ConvertEmoticons(b)
  {
    var (e, w) := Emoticons[j];
    EmoticonsFormTable();
    assert Emote(e + b) == w + Emote(b) by {
      LookupOfEntry(Emoticons, j);
      assert (e + b)[..2] == e && (e + b)[2..] == b;
    }
    assert Emote(a + e + b) == a + (w + Emote(b)) by {
      assert a + e + b == a + (e + b);
      EmoteMarkerFree(a, e + b, Emoticons);
    }
    ConvertEmoticonsIsOnePass(a + e + b);
    ConvertEmoticonsIsOnePass(b);
  }

  /**
   * Two emoticons in one message both become words, as in "Multiple :) :("
   * giving "Multiple smile sad".
   */
  lemma ConvertEmoticonsTwo(a: string, b: string, i: int, j: int)
    requires MarkerFree(a) && MarkerFree(b)
    requires 0 <= i < |Emoticons| && 0 <= j < |Emoticons|
    ensures ConvertEmoticons(a + Emoticons[i].0 + (b + Emoticons[j].0))
         == a + Emoticons[i].1 + (b + Emoticons[j].1)
  {
    var c: string := [];
    assert ConvertEmoticons(b + Emoticons[j].0) == b + Emoticons[j].1 by {
      ConvertEmoticonsPlain(c);
      ConvertEmoticonsOne(b, c, j);
      assert b + Emoticons[j].0 + c == b + Emoticons[j].0;
      assert b + Emoticons[j].1 + c == b + Emoticons[j].1;
    }
    ConvertEmoticonsOne(a, b + Emoticons[j].0, i);
  }

  // ---------------------------------------------------------------------
  // Token estimate
  // ---------------------------------------------------------------------

  /** calculate_tokens: (int) ceil(mb_strlen($text) / 4). */
  function CalculateTokens(text: string): (n: nat)
    ensures 4 * n >= |text| && 4 * n < |text| + 4
  {
    (|text| + 3) / 4
  }

  /** "Short" is 2, "A" is 1, 100 characters are 25; "Medium length text" has 18 characters and gives 5. */
  lemma TokenExamples()
    ensures CalculateTokens("Short") == 2
    ensures CalculateTokens("A") == 1
    ensures CalculateTokens(seq(100, _ => 'a')) == 25
    ensures CalculateTokens("Medium length text") == 5
  {
  }

  // ---------------------------------------------------------------------
  // History
  // ---------------------------------------------------------------------

  /** save_to_history's list update: append, then drop the oldest entry when more than fifty. */
  function AppendBounded<T>(h: seq<T>, x: T): (r: seq<T>)
    ensures |r| >= 1 && r[|r| - 1] == x
    ensures |h| < HistoryCap ==> r == h + [x]
    ensures |h| >= HistoryCap ==> r == h[1..] + [x]
  {
    var g := h + [x];
    if |g| > HistoryCap then g[1..] else g
  }

  /** A run of saves, oldest first. */
  function SaveAll<T>(h: seq<T>, xs: seq<T>): seq<T>
    decreases |xs|
  {
    if xs == [] then h else SaveAll(AppendBounded(h, xs[0]), xs[1..])
  }

  function Min(a: int, b: int): int { if a < b then a else b }

  /** From a history of at most fifty, any run of saves leaves exactly the last fifty entries (or all, if fewer). */
  lemma {:induction false} SaveAllKeepsNewest<T>(h: seq<T>, xs: seq<T>)
    requires |h| <= HistoryCap
    ensures SaveAll(h, xs) == (h + xs)[|h + xs| - Min(|h + xs|, HistoryCap)..]
    decreases |xs|
  {
    var g := h + xs;
    if xs == [] {
      assert g == h;
    } else {
      var h' := AppendBounded(h, xs[0]);
      assert SaveAll(h, xs) == SaveAll(h', xs[1..]);
      SaveAllKeepsNewest(h', xs[1..]);
      var g' := h' + xs[1..];
      if |h| < HistoryCap {
        assert h' == h + [xs[0]];
        assert g' == g;
      } else {
        assert h' == h[1..] + [xs[0]];
        assert g' == g[1..];
        assert |g'| == |g| - 1 && |g'| >= HistoryCap;
        assert g'[|g'| - HistoryCap..] == g[|g| - HistoryCap..];
      }
    }
  }

  /** Sixty saves into an empty history leave fifty, the last being the sixtieth. */
  lemma SixtySaves<T>(xs: seq<T>)
    requires |xs| == 60
    ensures SaveAll([], xs) == xs[10..]
    ensures |SaveAll([], xs)| == HistoryCap && SaveAll([], xs)[HistoryCap - 1] == xs[59]
  {
    SaveAllKeepsNewest([], xs);
    assert [] + xs == xs;
  }

  /** The session whose history a transient name holds, if it is a history name. */
  function HistorySlotOf(key: string): (id: Option<string>)
    ensures id.Some? ==> key == HistoryPrefix + id.value
  {
    if |key| >= |HistoryPrefix| && key[..|HistoryPrefix|] == HistoryPrefix then Some(key[|HistoryPrefix|..]) else None
  }

  // ---------------------------------------------------------------------
  // The handler
  // ---------------------------------------------------------------------

  /** A history entry, as the associative array the caller passes. */
  type Entry = map<string, Value>

  /** format_response's array. */
  datatype Reply = Reply(message: string, timestamp: int, tokenCount: int, sessionValid: bool)

  /** `$response['response'] ?? ''`, as a string. */
  function ResponseText(body: Body): string
  {
    if "response" in body && body["response"] != Null then StrVal(body["response"]) else ""
  }

  class MessageHandler {
    const session: Session
    const api: Api
    /** (int) get_option('token_limit'), the limit the session checks against. */
    const tokenLimit: int
    /** sanitize_text_field. */
    const sanitize: string -> string
    /** apply_filters('dialogpro_process_message', ...). */
    const filter: string -> string
    /** wp_kses_post. */
    const kses: string -> string
    /** current_time('timestamp'). */
    const now: int
    /** The transients store, where each session's history lives. */
    var transients: map<string, seq<Entry>>

    constructor (session: Session, api: Api, tokenLimit: int, sanitize: string -> string,
                 filter: string -> string, kses: string -> string, now: int,
                 transients: map<string, seq<Entry>>)
      ensures this.session == session && this.api == api && this.tokenLimit == tokenLimit
      ensures this.sanitize == sanitize && this.filter == filter && this.kses == kses
      ensures this.now == now && this.transients == transients
    {
      this.session := session;
      this.api := api;
      this.tokenLimit := tokenLimit;
      this.sanitize := sanitize;
      this.filter := filter;
      this.kses := kses;
      this.now := now;
      this.transients := transients;
    }

    /** process_message: sanitise, turn emoticons into words, then run the filter hook. */
    function ProcessMessage(m: string): string
    {
      filter(ConvertEmoticons(sanitize(m)))
    }

    /**
     * handle_message: validate, require a valid session, relay the
     * processed message, charge ceil(|message . response| / 4) tokens, and
     * format the reply. Any failure comes back prefixed with
     * "Failed to process message: ". A refused message or session never
     * reaches the API, and a successful reply always reports a valid session.
     */
    method HandleMessage(message: string) returns (r: Result<Reply>)
      modifies session, api
      ensures ValidateMessage(message).Some? ==>
        r == Err(FailurePrefix + ValidateMessage(message).value) && unchanged(session) && unchanged(api)
      ensures ValidateMessage(message).None? && !old(session.IsValid(tokenLimit)) ==>
        r == Err(FailurePrefix + InvalidSession) && unchanged(session) && unchanged(api)
      ensures ValidateMessage(message).None? && old(session.IsValid(tokenLimit)) ==>
        var (ar, st) := api.Send(old(ApiState(api.cache, api.sent, api.errorLog)), ProcessMessage(message), old(session.sessionId.value));
        && ApiState(api.cache, api.sent, api.errorLog) == st
        && (ar.Err? ==> r == Err(FailurePrefix + GenericError) && unchanged(session))
        && (ar.Ok? ==>
              var charge := CalculateTokens(message + ResponseText(ar.value));
              && session.sessionId == old(session.sessionId)
              && (old(session.tokenCount) + charge <= tokenLimit ==>
                    && session.tokenCount == old(session.tokenCount) + charge
                    && TokenCookieSet(old(session.outgoing), session.outgoing, session.tokenCount, session.now)
                    && r == Ok(Reply(kses(ResponseText(ar.value)), now, session.tokenCount, true)))
              && (old(session.tokenCount) + charge > tokenLimit ==>
                    && r == Err(FailurePrefix + TokenLimitExceeded)
                    && session.tokenCount == old(session.tokenCount)
                    && session.outgoing == old(session.outgoing)))
      ensures r.Ok? ==> session.IsValid(tokenLimit) && r.value.sessionValid
    {
      var err := ValidateMessage(message);
      if err.Some? {
        return Err(FailurePrefix + err.value);
      }
      if !session.IsValid(tokenLimit) {
        return Err(FailurePrefix + InvalidSession);
      }
      var processed := ProcessMessage(message);
      var response := api.SendMessage(processed, session.sessionId.value);
      if response.Err? {
        return Err(FailurePrefix + response.msg);
      }
      var charge := CalculateTokens(message + ResponseText(response.value));
      var ok := session.UpdateTokenCount(charge, tokenLimit);
      if !ok {
        return Err(FailurePrefix + TokenLimitExceeded);
      }
      r := Ok(Reply(kses(ResponseText(response.value)), now, session.tokenCount, session.IsValid(tokenLimit)));
    }

    /**
     * The transient name for the session's history. get_session_id() is
     * declared to return a string, so a session without an identifier
     * (before initialisation, or after clear_session) throws a TypeError;
     * the history methods catch only Exception, so it escapes them.
     */
    function HistoryKey(): (r: Result<string>)
      reads session
      ensures r.Ok? <==> session.sessionId.Some?
      ensures r.Ok? ==> HistorySlotOf(r.value) == session.sessionId
    {
      if session.sessionId.Some? then Ok(HistoryPrefix + session.sessionId.value) else Err(NullSessionId)
    }

    /** get_message_history: the session's stored list, or [] when there is none. */
    function GetMessageHistory(): (r: Result<seq<Entry>>)
      reads this, session
      ensures r.Err? <==> session.sessionId.None?
      ensures r.Ok? && HistoryKey().value !in transients ==> r.value == []
    {
      match HistoryKey()
      case Err(e) => Err(e)
      case Ok(key) => Ok(if key in transients then transients[key] else [])
    }

    /**
     * save_to_history: the stored list with the entry appended, capped at
     * fifty. Without a session identifier the TypeError escapes and no
     * transient is written.
     */
    method SaveToHistory(entry: Entry) returns (r: Result<()>)
      modifies this`transients
      ensures r.Err? <==> session.sessionId.None?
      ensures r.Err? ==> r.msg == NullSessionId && transients == old(transients)
      ensures r.Ok? ==>
        transients == old(transients)[HistoryKey().value := AppendBounded(old(GetMessageHistory()).value, entry)]
      ensures r.Ok? && |old(GetMessageHistory()).value| <= HistoryCap ==> |GetMessageHistory().value| <= HistoryCap
      ensures r.Ok? ==> GetMessageHistory().value[|GetMessageHistory().value| - 1] == entry
    {
      var stored := GetMessageHistory();
      if stored.Err? {
        return Err(stored.msg);
      }
      var history := stored.value + [entry];
      if |history| > HistoryCap {
        history := history[1..];
      }
      transients := transients[HistoryKey().value := history];
      r := Ok(());
    }
  }
}
