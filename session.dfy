/**
 * DialogProSession: a session identifier and a running token count, kept in
 * two cookies. The request's cookies are an input map, the cookies the
 * response sets or expires are an output map, and the clock and the random
 * draws behind wp_generate_uuid4() are parameters. The token limit, which the
 * source reads from a container it never receives, is passed in explicitly.
 */
module SessionStore {
  import opened Php

  const SessionCookie: string := "dialogpro_session"
  const TokenCookie: string := "dialogpro_tokens"

  /** Cookie lifetime in seconds (24 hours). */
  const SessionDuration: int := 86400

  /** How far in the past clear_session dates the expired cookies. */
  const ExpiredOffset: int := 3600

  /** A Set-Cookie the response carries: the value and the expiry timestamp. */
  datatype CookieWrite = CookieWrite(value: string, expires: int)

  /**
   * The cookies after update_token_count commits count: the earlier writes,
   * with the token cookie now carrying count for another SessionDuration.
   */
  predicate TokenCookieSet(before: map<string, CookieWrite>, after: map<string, CookieWrite>, count: int, now: int)
  {
    after == before[TokenCookie := CookieWrite(IntToString(count), now + SessionDuration)]
  }

  // ---------------------------------------------------------------------
  // Session identifiers
  // ---------------------------------------------------------------------

  predicate LowerHexRun(t: string)
  {
    forall k :: 0 <= k < |t| ==> IsLowerHexDigit(t[k])
  }

  /**
   * The shape the session-id pattern spells out,
   * [0-9a-f]{8}-[0-9a-f]{4}-4[0-9a-f]{3}-[89ab][0-9a-f]{3}-[0-9a-f]{12}:
   * a version-4 UUID (version nibble 4, RFC 4122 section 4.1.3) of the
   * RFC 4122 variant (high bits 10, section 4.1.1), in lower case.
   */
  predicate IsUuidV4(s: string)
  {
    && |s| == 36
    && LowerHexRun(s[0..8]) && s[8] == '-'
    && LowerHexRun(s[9..13]) && s[13] == '-'
    && s[14] == '4' && LowerHexRun(s[15..18]) && s[18] == '-'
    && (s[19] == '8' || s[19] == '9' || s[19] == 'a' || s[19] == 'b')
    && LowerHexRun(s[20..23]) && s[23] == '-'
    && LowerHexRun(s[24..36])
  }

  /**
   * validate_session's test. The pattern is anchored with ^ and $, and PCRE's
   * $ also matches just before a final newline, so a UUID followed by "\n"
   * passes too.
   */
  predicate ValidSessionId(s: string)
  {
    IsUuidV4(s) || (|s| == 37 && s[36] == '\n' && IsUuidV4(s[..36]))
  }

  /** sprintf('%04x', $n) for 0 <= n <= 0xffff. */
  function Hex4(n: nat): (r: string)
    requires n < 0x10000
    ensures |r| == 4 && LowerHexRun(r)
    ensures r[0] == LowerHexChar(n / 0x1000)
  {
    var hi := Hex2(n / 256);
    assert (n / 256) / 16 == n / 0x1000;
    hi + Hex2(n % 256)
  }

  /** The ranges of wp_generate_uuid4's eight mt_rand draws. */
  predicate UuidDraws(w: seq<nat>)
  {
    && |w| == 8
    && (forall i :: 0 <= i < 8 ==> w[i] < 0x10000)
    && w[3] < 0x1000
    && w[4] < 0x4000
  }

  /**
   * wp_generate_uuid4(): eight random 16-bit groups printed as
   * '%04x%04x-%04x-%04x-%04x-%04x%04x%04x', the fourth or-ed with 0x4000
   * (version 4) and the fifth with 0x8000 (variant 10), as section 4.4 of
   * RFC 4122 prescribes. The draws stay below those bits, so | is +.
   */
  function GenerateUuid4(w: seq<nat>): string
    requires UuidDraws(w)
  {
    UuidLayout(UuidGroups(w))
  }

  /** The value printed as the i-th group: the draw, with the version or the variant bits or-ed in. */
  function GroupValue(w: seq<nat>, i: nat): (n: nat)
    requires UuidDraws(w) && i < 8
    ensures n < 0x10000
    ensures i == 3 ==> n / 0x1000 == 4
    ensures i == 4 ==> 8 <= n / 0x1000 <= 11
  {
    if i == 3 then w[3] + 0x4000 else if i == 4 then w[4] + 0x8000 else w[i]
  }

  /** The eight groups of four hex digits, the version and variant bits set. */
  function UuidGroups(w: seq<nat>): (g: seq<string>)
    requires UuidDraws(w)
    ensures |g| == 8 && forall i :: 0 <= i < 8 ==> |g[i]| == 4 && LowerHexRun(g[i])
    ensures g[3][0] == '4' && (g[4][0] == '8' || g[4][0] == '9' || g[4][0] == 'a' || g[4][0] == 'b')
  {
    seq(8, i requires 0 <= i < 8 => Hex4(GroupValue(w, i)))
  }

  /** The printf layout: groups one and two, three, four, five, then six to eight, joined by dashes. */
  function UuidLayout(g: seq<string>): string
    requires |g| == 8
  {
    g[0] + g[1] + "-" + g[2] + "-" + g[3] + "-" + g[4] + "-" + g[5] + g[6] + g[7]
  }

  /** Where each group lands in the printed identifier. */
  lemma LayoutPositions(g: seq<string>)
    requires |g| == 8 && forall i :: 0 <= i < 8 ==> |g[i]| == 4
    ensures var s := UuidLayout(g);
      && |s| == 36 && s[8] == '-' && s[13] == '-' && s[18] == '-' && s[23] == '-'
      && (forall k :: 0 <= k < 4 ==> s[k] == g[0][k] && s[4 + k] == g[1][k] && s[9 + k] == g[2][k])
      && (forall k :: 0 <= k < 4 ==> s[14 + k] == g[3][k] && s[19 + k] == g[4][k])
      && (forall k :: 0 <= k < 4 ==> s[24 + k] == g[5][k] && s[28 + k] == g[6][k] && s[32 + k] == g[7][k])
  {
  }

  /** Eight groups of lower-case hex digits, the version and variant digits in place, print as a UUID. */
  lemma LayoutIsUuid(g: seq<string>)
    requires |g| == 8 && forall i :: 0 <= i < 8 ==> |g[i]| == 4 && LowerHexRun(g[i])
    requires g[3][0] == '4' && (g[4][0] == '8' || g[4][0] == '9' || g[4][0] == 'a' || g[4][0] == 'b')
    ensures IsUuidV4(UuidLayout(g))
  {
    var s := UuidLayout(g);
    LayoutPositions(g);
    assert forall i, k :: 0 <= i < 8 && 0 <= k < 4 ==> IsLowerHexDigit(g[i][k]);
    assert LowerHexRun(s[0..8]) && LowerHexRun(s[9..13]) && LowerHexRun(s[15..18]);
    assert LowerHexRun(s[20..23]) && LowerHexRun(s[24..36]);
  }

  /** Every identifier the generator produces passes validate_session. */
  lemma GeneratedUuidIsValid(w: seq<nat>)
    requires UuidDraws(w)
    ensures IsUuidV4(GenerateUuid4(w))
    ensures ValidSessionId(GenerateUuid4(w))
  {
    LayoutIsUuid(UuidGroups(w));
  }

  // ---------------------------------------------------------------------
  // Quota arithmetic
  // ---------------------------------------------------------------------

  /** update_token_count's decision: the new count when it fits under the limit, else none. */
  function Charge(count: int, tokens: int, limit: int): (r: Option<int>)
    ensures r.Some? <==> count + tokens <= limit
    ensures r.Some? ==> r.value == count + tokens && r.value <= limit
  {
    if count + tokens > limit then None else Some(count + tokens)
  }

  /** A run of update_token_count calls: the final count and which calls returned true. */
  function ChargeAll(count: int, deltas: seq<int>, limit: int): (r: (int, seq<bool>))
    ensures |r.1| == |deltas|
    decreases |deltas|
  {
    if deltas == [] then (count, [])
    else
      match Charge(count, deltas[0], limit)
      case Some(next) =>
        var rest := ChargeAll(next, deltas[1..], limit);
        (rest.0, [true] + rest.1)
      case None =>
        var rest := ChargeAll(count, deltas[1..], limit);
        (rest.0, [false] + rest.1)
  }

  function Sum(xs: seq<int>): int
  {
    if xs == [] then 0 else xs[0] + Sum(xs[1..])
  }

  /** Starting within the limit, no run of updates ever leaves the count above it. */
  lemma {:induction false} ChargeAllWithinLimit(count: int, deltas: seq<int>, limit: int)
    requires count <= limit
    ensures ChargeAll(count, deltas, limit).0 <= limit
    decreases |deltas|
  {
    if deltas != [] {
      match Charge(count, deltas[0], limit)
      case Some(next) => ChargeAllWithinLimit(next, deltas[1..], limit);
      case None => ChargeAllWithinLimit(count, deltas[1..], limit);
    }
  }

  /** Non-negative updates whose total fits all succeed and add up. */
  lemma {:induction false} ChargeAllFits(count: int, deltas: seq<int>, limit: int)
    requires forall i :: 0 <= i < |deltas| ==> deltas[i] >= 0
    requires count + Sum(deltas) <= limit
    ensures ChargeAll(count, deltas, limit).0 == count + Sum(deltas)
    ensures forall i :: 0 <= i < |deltas| ==> ChargeAll(count, deltas, limit).1[i]
    decreases |deltas|
  {
    if deltas != [] {
      SumNonNegative(deltas[1..]);
      assert Charge(count, deltas[0], limit) == Some(count + deltas[0]);
      ChargeAllFits(count + deltas[0], deltas[1..], limit);
    }
  }

  lemma {:induction false} SumNonNegative(xs: seq<int>)
    requires forall i :: 0 <= i < |xs| ==> xs[i] >= 0
    ensures Sum(xs) >= 0
  {
    if xs != [] {
      SumNonNegative(xs[1..]);
    }
  }

  lemma {:induction false} SumAppend(xs: seq<int>, t: int)
    ensures Sum(xs + [t]) == Sum(xs) + t
  {
    if xs != [] {
      assert (xs + [t])[1..] == xs[1..] + [t];
      SumAppend(xs[1..], t);
    }
  }

  lemma {:induction false} ChargeAllAppend(count: int, deltas: seq<int>, t: int, limit: int)
    ensures ChargeAll(count, deltas + [t], limit).1 == ChargeAll(count, deltas, limit).1 + [Charge(ChargeAll(count, deltas, limit).0, t, limit).Some?]
    ensures ChargeAll(count, deltas + [t], limit).0 ==
      (match Charge(ChargeAll(count, deltas, limit).0, t, limit)
       case Some(next) => next
       case None => ChargeAll(count, deltas, limit).0)
    decreases |deltas|
  {
    if deltas == [] {
      assert [t][1..] == [];
    } else {
      assert (deltas + [t])[1..] == deltas[1..] + [t];
      match Charge(count, deltas[0], limit)
      case Some(next) => ChargeAllAppend(next, deltas[1..], t, limit);
      case None => ChargeAllAppend(count, deltas[1..], t, limit);
    }
  }

  /**
   * The update that would carry the total past the limit is the one that
   * fails, and it leaves the count where the earlier updates put it.
   */
  lemma CrossingUpdateFails(count: int, deltas: seq<int>, t: int, limit: int)
    requires forall i :: 0 <= i < |deltas| ==> deltas[i] >= 0
    requires count + Sum(deltas) <= limit < count + Sum(deltas) + t
    ensures ChargeAll(count, deltas + [t], limit).0 == count + Sum(deltas)
    ensures forall i :: 0 <= i < |deltas| ==> ChargeAll(count, deltas + [t], limit).1[i]
    ensures !ChargeAll(count, deltas + [t], limit).1[|deltas|]
  {
    ChargeAllFits(count, deltas, limit);
    ChargeAllAppend(count, deltas, t, limit);
  }

  // ---------------------------------------------------------------------
  // The session object
  // ---------------------------------------------------------------------

  /** The (session_id, token_count) pair after initialize_session. */
  datatype SessionState = SessionState(id: Option<string>, count: int)

  /** load_token_count: the (int) cast of the token cookie, "0" when it is absent. */
  function LoadedCount(incoming: map<string, string>): int
  {
    IntCast(if TokenCookie in incoming then incoming[TokenCookie] else "0")
  }

  /** The session cookie of the request, null when it is absent. */
  function SessionCookieOf(incoming: map<string, string>): Option<string>
  {
    if SessionCookie in incoming then Some(incoming[SessionCookie]) else None
  }

  /** Whether initialize_session ends up creating a new session. */
  predicate StartsFresh(incoming: map<string, string>)
  {
    match SessionCookieOf(incoming)
    case None => true
    case Some(id) => EmptyString(id) || !ValidSessionId(id)
  }

  /**
   * initialize_session: an empty cookie creates a session and then still
   * loads the count from the token cookie; a malformed one throws, and the
   * handler creates a session with count 0 without loading; a valid one is
   * kept and the count is loaded.
   */
  function InitialState(incoming: map<string, string>, uuid: string): SessionState
  {
    match SessionCookieOf(incoming)
    case None => SessionState(Some(uuid), LoadedCount(incoming))
    case Some(id) =>
      if EmptyString(id) then SessionState(Some(uuid), LoadedCount(incoming))
      else if !ValidSessionId(id) then SessionState(Some(uuid), 0)
      else SessionState(Some(id), LoadedCount(incoming))
  }

  /** After initialisation the session always holds an identifier that passes validate_session. */
  lemma InitialIdIsValid(incoming: map<string, string>, w: seq<nat>)
    requires UuidDraws(w)
    ensures InitialState(incoming, GenerateUuid4(w)).id.Some?
    ensures ValidSessionId(InitialState(incoming, GenerateUuid4(w)).id.value)
  {
    GeneratedUuidIsValid(w);
  }

  /** Without cookies the session is new with count 0; a malformed id is replaced and its count dropped. */
  lemma FreshSessionStartsAtZero(incoming: map<string, string>, uuid: string)
    requires TokenCookie !in incoming || (SessionCookie in incoming && !EmptyString(incoming[SessionCookie]))
    requires StartsFresh(incoming)
    ensures InitialState(incoming, uuid) == SessionState(Some(uuid), 0)
  {
    assert IntCast("0") == 0 by { IntCastOfDigits("0"); }
  }

  /** A well-formed id is kept and the count comes from the token cookie. */
  lemma ValidCookieIsKept(incoming: map<string, string>, uuid: string)
    requires SessionCookie in incoming && ValidSessionId(incoming[SessionCookie])
    ensures InitialState(incoming, uuid) == SessionState(Some(incoming[SessionCookie]), LoadedCount(incoming))
  {
    var id := incoming[SessionCookie];
    assert |id| >= 36;
  }

  class Session {
    /** session_id: null until initialised and after clear_session. */
    var sessionId: Option<string>
    var tokenCount: int
    /** The request's cookies ($_COOKIE). */
    const incoming: map<string, string>
    /** The cookies the response sets, by name; a later write to a name replaces an earlier one. */
    var outgoing: map<string, CookieWrite>
    /** time() during this request. */
    const now: int

    constructor (incoming: map<string, string>, now: int)
      ensures this.incoming == incoming && this.now == now
      ensures sessionId == None && tokenCount == 0 && outgoing == map[]
    {
      this.incoming := incoming;
      this.now := now;
      sessionId := None;
      tokenCount := 0;
      outgoing := map[];
    }

    /** is_valid(limit): a non-empty identifier and a count within the limit. */
    predicate IsValid(limit: int)
      reads this
    {
      sessionId.Some? && !EmptyString(sessionId.value) && tokenCount <= limit
    }

    /** create_new_session: a new identifier, count 0, and both cookies written. */
    method CreateNewSession(uuid: string)
      modifies this
      ensures sessionId == Some(uuid) && tokenCount == 0
      ensures outgoing == old(outgoing)[SessionCookie := CookieWrite(uuid, now + SessionDuration)]
                                       [TokenCookie := CookieWrite("0", now + SessionDuration)]
    {
      sessionId := Some(uuid);
      tokenCount := 0;
      outgoing := outgoing[SessionCookie := CookieWrite(uuid, now + SessionDuration)];
      outgoing := outgoing[TokenCookie := CookieWrite(IntToString(tokenCount), now + SessionDuration)];
    }

    /** load_token_count. */
    method LoadTokenCount()
      modifies this`tokenCount
      ensures tokenCount == LoadedCount(incoming)
    {
      var raw := if TokenCookie in incoming then incoming[TokenCookie] else "0";
      tokenCount := IntCast(raw);
    }

    /**
     * initialize_session, with `w` the generator's random draws. A new session
     * writes both cookies; a kept one writes none.
     */
    method InitializeSession(w: seq<nat>)
      requires UuidDraws(w)
      modifies this
      ensures SessionState(sessionId, tokenCount) == InitialState(incoming, GenerateUuid4(w))
      ensures StartsFresh(incoming) ==>
        outgoing == old(outgoing)[SessionCookie := CookieWrite(GenerateUuid4(w), now + SessionDuration)]
                                 [TokenCookie := CookieWrite("0", now + SessionDuration)]
      ensures !StartsFresh(incoming) ==> outgoing == old(outgoing)
      ensures ValidSessionId(sessionId.value)
    {
      GeneratedUuidIsValid(w);
      sessionId := SessionCookieOf(incoming);
      if sessionId.None? || EmptyString(sessionId.value) {
        CreateNewSession(GenerateUuid4(w));
        LoadTokenCount();
      } else if !ValidSessionId(sessionId.value) {
        // validate_session throws; the handler starts over without loading the count
        CreateNewSession(GenerateUuid4(w));
      } else {
        LoadTokenCount();
      }
    }

    /**
     * update_token_count(tokens): commits count + tokens and rewrites the
     * token cookie when that stays within the limit; otherwise returns false
     * and changes nothing. The cookie written reads back as the new count
     * whenever that count is a 64-bit int.
     */
    method UpdateTokenCount(tokens: int, limit: int) returns (ok: bool)
      modifies this
      ensures ok <==> old(tokenCount) + tokens <= limit
      ensures ok ==> tokenCount == old(tokenCount) + tokens
      ensures ok ==> TokenCookieSet(old(outgoing), outgoing, tokenCount, now)
      ensures ok && IsInt64(tokenCount) ==> IntCast(outgoing[TokenCookie].value) == tokenCount
      ensures !ok ==> tokenCount == old(tokenCount) && outgoing == old(outgoing)
      ensures sessionId == old(sessionId)
    {
      match Charge(tokenCount, tokens, limit)
      case None =>
        ok := false;
      case Some(next) =>
        tokenCount := next;
        outgoing := outgoing[TokenCookie := CookieWrite(IntToString(tokenCount), now + SessionDuration)];
        if IsInt64(tokenCount) {
          IntCastOfIntToString(tokenCount);
        }
        ok := true;
    }

    /** clear_session: expires both cookies, forgets the identifier and zeroes the count. */
    method ClearSession()
      modifies this
      ensures sessionId == None && tokenCount == 0
      ensures outgoing == old(outgoing)[SessionCookie := CookieWrite("", now - ExpiredOffset)]
                                       [TokenCookie := CookieWrite("", now - ExpiredOffset)]
      ensures forall limit :: !IsValid(limit)
    {
      outgoing := outgoing[SessionCookie := CookieWrite("", now - ExpiredOffset)];
      outgoing := outgoing[TokenCookie := CookieWrite("", now - ExpiredOffset)];
      sessionId := None;
      tokenCount := 0;
    }
  }
}
