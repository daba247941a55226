/**
 * Input hygiene (client/src/utils/security.ts): the sanitisers for free
 * text and search queries, the GitHub user-name check, HTML escaping and
 * the per-identifier sliding-window rate limiter.
 *
 * Regular expressions are written out as the scans they perform: the
 * patterns here are not compiled with the `u` flag, so `i` folds ASCII
 * letters only and `\w` is `[A-Za-z0-9_]`.
 */
module Security {
  import opened Text
  import opened Seqs

  // ---------------------------------------------------------------------
  // Sanitising

  predicate IsAngle(c: char) { c == '<' || c == '>' }

  function NotAngle(c: char): bool { !IsAngle(c) }

  /** `.replace(/[<>]/g, '')` */
  function RemoveAngles(s: string): (r: string)
    ensures |r| <= |s|
    ensures forall c :: c in r ==> c in s && !IsAngle(c)
    ensures forall c :: c in s && !IsAngle(c) ==> c in r
  {
    Filter(s, NotAngle)
  }

  /** The pattern, given in lower case, matches at the start of `s` when ASCII case is ignored. */
  predicate StartsWithIgnoringCase(s: string, lowerPattern: string) {
    |lowerPattern| <= |s| && forall i :: 0 <= i < |lowerPattern| ==> LowerChar(s[i]) == lowerPattern[i]
  }

  /** `o` or `O`, then `n` or `N`. */
  predicate StartsWithOn(s: string) {
    |s| >= 2 && LowerChar(s[0]) == 'o' && LowerChar(s[1]) == 'n'
  }

  const JavascriptProtocol: string := "javascript:"

  /**
   * `.replace(/javascript:/gi, '')`: a left-to-right scan that drops each
   * match and resumes after it; what is left is not scanned again.
   */
  function RemoveProtocol(s: string): (r: string)
    ensures |r| <= |s|
    ensures forall c :: c in r ==> c in s
    decreases |s|
  {
    if s == [] then []
    else if StartsWithIgnoringCase(s, JavascriptProtocol) then RemoveProtocol(s[|JavascriptProtocol|..])
    else [s[0]] + RemoveProtocol(s[1..])
  }

  /** The number of word characters (`\w`) at the start of `s`. */
  function WordRun(s: string): (n: nat)
    ensures n <= |s|
    ensures forall i :: 0 <= i < n ==> IsWordChar(s[i])
    ensures n < |s| ==> !IsWordChar(s[n])
    decreases |s|
  {
    if |s| > 0 && IsWordChar(s[0]) then 1 + WordRun(s[1..]) else 0
  }

  /** `t` is a word of the language of `/on\w+=/i`. */
  predicate IsHandlerAttribute(t: string) {
    |t| >= 4 && StartsWithOn(t) && t[|t| - 1] == '='
    && forall i :: 2 <= i < |t| - 1 ==> IsWordChar(t[i])
  }

  /** The length of the match of `/on\w+=/i` at the start of `s`, or 0 when there is none. */
  function HandlerMatch(s: string): (n: nat)
    ensures n <= |s|
    ensures n > 0 ==> IsHandlerAttribute(s[..n])
  {
    if StartsWithOn(s) then
      var k := WordRun(s[2..]);
      if k > 0 && 2 + k < |s| && s[2 + k] == '=' then 3 + k else 0
    else 0
  }

  /** The pattern matches at the start of `s` exactly when some prefix is in its language, and that prefix is the match. */
  lemma HandlerMatchIff(s: string, m: nat)
    requires m <= |s|
    ensures IsHandlerAttribute(s[..m]) <==> 0 < m == HandlerMatch(s)
  {
    if IsHandlerAttribute(s[..m]) {
      HandlerMatchOfAttribute(s, m);
    }
  }

  lemma HandlerMatchOfAttribute(s: string, m: nat)
    requires m <= |s| && IsHandlerAttribute(s[..m])
    ensures HandlerMatch(s) == m
  {
    assert s[0] == s[..m][0] && s[1] == s[..m][1];
    var k := WordRun(s[2..]);
    forall i | 0 <= i < m - 3
      ensures IsWordChar(s[2..][i])
    {
      assert s[2..][i] == s[..m][2 + i];
    }
    assert s[2..][m - 3] == s[..m][m - 1];
    assert k == m - 3;
    assert StartsWithOn(s) && s[2 + k] == '=';
  }

  /** `.replace(/on\w+=/gi, '')`: drops each event-handler attribute prefix, scanning left to right. */
  function RemoveHandlers(s: string): (r: string)
    ensures |r| <= |s|
    ensures forall c :: c in r ==> c in s
    decreases |s|
  {
    if s == [] then []
    else
      var n := HandlerMatch(s);
      if n > 0 then RemoveHandlers(s[n..]) else [s[0]] + RemoveHandlers(s[1..])
  }

  const MaxInputLength: nat := 200
  const MaxQueryLength: nat := 500

  /** `sanitizeInput(input)` */
  function SanitizeInput(input: string): (r: string)
    ensures |r| <= MaxInputLength
    ensures forall c :: c in r ==> c in input && !IsAngle(c)
  {
    Take(Trim(RemoveHandlers(RemoveProtocol(RemoveAngles(input)))), MaxInputLength)
  }

  /** `sanitizeSearchQuery(query)`: the same without the handler pass, and a longer cap. */
  function SanitizeSearchQuery(query: string): (r: string)
    ensures |r| <= MaxQueryLength
    ensures forall c :: c in r ==> c in query && !IsAngle(c)
  {
    if query == "" then ""
    else Take(Trim(RemoveProtocol(RemoveAngles(query))), MaxQueryLength)
  }

  /** Text without angle brackets passes the first step unchanged. */
  lemma RemoveAnglesNone(s: string)
    requires '<' !in s && '>' !in s
    ensures RemoveAngles(s) == s
  {
    FilterAll(s, NotAngle);
  }

  /** Text shorter than the protocol has nothing to remove. */
  lemma {:induction false} RemoveProtocolShort(s: string)
    requires |s| < |JavascriptProtocol|
    ensures RemoveProtocol(s) == s
    decreases |s|
  {
    if s != [] {
      RemoveProtocolShort(s[1..]);
    }
  }

  /** A prefix at none of whose positions the protocol starts is kept as it is. */
  lemma {:induction false} RemoveProtocolKeep(p: string, t: string)
    requires forall i :: 0 <= i < |p| ==> !StartsWithIgnoringCase((p + t)[i..], JavascriptProtocol)
    ensures RemoveProtocol(p + t) == p + RemoveProtocol(t)
    decreases |p|
  {
    if p != [] {
      assert !StartsWithIgnoringCase((p + t)[0..], JavascriptProtocol);
      assert (p + t)[1..] == p[1..] + t;
      forall i | 0 <= i < |p[1..]|
        ensures !StartsWithIgnoringCase((p[1..] + t)[i..], JavascriptProtocol)
      {
        assert (p[1..] + t)[i..] == (p + t)[i + 1..];
      }
      RemoveProtocolKeep(p[1..], t);
    }
  }

  /** Any letter case of the protocol is dropped. */
  lemma ProtocolCaseIgnored(rest: string)
    ensures RemoveProtocol("JavaScript:" + rest) == RemoveProtocol(rest)
  {
    var s := "JavaScript:" + rest;
    assert StartsWithIgnoringCase(s, JavascriptProtocol);
    assert s[11..] == rest;
  }

  /** Text without the letter `o` in either case has no handler to drop. */
  lemma {:induction false} RemoveHandlersNoO(s: string)
    requires 'o' !in s && 'O' !in s
    ensures RemoveHandlers(s) == s
    decreases |s|
  {
    if s != [] {
      assert LowerChar(s[0]) != 'o';
      RemoveHandlersNoO(s[1..]);
    }
  }

  /** A handler attribute at the front is dropped whatever follows it. */
  lemma RemoveHandlersFront(t: string, rest: string)
    requires IsHandlerAttribute(t)
    ensures RemoveHandlers(t + rest) == RemoveHandlers(rest)
  {
    assert (t + rest)[..|t|] == t;
    HandlerMatchOfAttribute(t + rest, |t|);
    assert (t + rest)[|t|..] == rest;
  }

  /** Text that neither starts nor ends with white space is its own trim. */
  lemma TrimUnchanged(s: string)
    requires s != [] && !IsWhitespace(s[0]) && !IsWhitespace(s[|s| - 1])
    ensures Trim(s) == s
  {
    assert TrimStart(s) == s;
  }

  lemma ProtocolThenRest()
    ensures RemoveProtocol(JavascriptProtocol + "script:") == "script:"
  {
    var t := JavascriptProtocol + "script:";
    assert StartsWithIgnoringCase(t, JavascriptProtocol);
    assert t[11..] == "script:";
    RemoveProtocolShort("script:");
  }

  lemma NoProtocolInJava()
    ensures var s := "java" + (JavascriptProtocol + "script:");
      forall i :: 0 <= i < 4 ==> !StartsWithIgnoringCase(s[i..], JavascriptProtocol)
  {
    var s := "java" + (JavascriptProtocol + "script:");
    assert s[0..][4] == 'j';
    assert s[1..][3] == 'j';
    assert s[2..][2] == 'j';
    assert s[3..][1] == 'j';
  }

  lemma JavaScriptJoined()
    ensures "java" + "script:" == JavascriptProtocol
  {
  }

  /** Removing the protocol from `java` + protocol + `script:` joins the rest into the protocol. */
  lemma SinglePassJoins()
    ensures RemoveProtocol("java" + (JavascriptProtocol + "script:")) == JavascriptProtocol
  {
    ProtocolThenRest();
    NoProtocolInJava();
    RemoveProtocolKeep("java", JavascriptProtocol + "script:");
    JavaScriptJoined();
  }

  /**
   * The scan is a single pass: removing an inner occurrence can join the
   * text around it into a new occurrence, which survives sanitising.
   */
  lemma SinglePassLeavesProtocol()
    ensures SanitizeInput("java" + (JavascriptProtocol + "script:")) == JavascriptProtocol
  {
    SampleHasNoAngles();
    SinglePassJoins();
    ProtocolSurvivesLaterSteps();
    SanitizeInputOf("java" + (JavascriptProtocol + "script:"), JavascriptProtocol);
  }

  /** The last two steps leave short, trimmed text alone. */
  lemma SanitizeInputOf(input: string, s: string)
    requires RemoveHandlers(RemoveProtocol(RemoveAngles(input))) == s
    requires Trim(s) == s && |s| <= MaxInputLength
    ensures SanitizeInput(input) == s
  {
  }

  lemma ProtocolSurvivesLaterSteps()
    ensures RemoveHandlers(JavascriptProtocol) == JavascriptProtocol
    ensures Trim(JavascriptProtocol) == JavascriptProtocol
  {
    ProtocolHasNoO();
    RemoveHandlersNoO(JavascriptProtocol);
    ProtocolTrimmed();
  }

  lemma ProtocolTrimmed()
    ensures Trim(JavascriptProtocol) == JavascriptProtocol
  {
    assert JavascriptProtocol[0] == 'j' && JavascriptProtocol[10] == ':';
    TrimUnchanged(JavascriptProtocol);
  }

  lemma ProtocolHasNoO()
    ensures 'o' !in JavascriptProtocol && 'O' !in JavascriptProtocol
  {
  }

  lemma SampleHasNoAngles()
    ensures RemoveAngles("java" + (JavascriptProtocol + "script:")) == "java" + (JavascriptProtocol + "script:")
  {
    var t := JavascriptProtocol + "script:";
    assert '<' !in t && '>' !in t;
    RemoveAnglesNone("java" + t);
  }

  lemma OnClickIsHandler()
    ensures IsHandlerAttribute("onclick=")
  {
  }

  /** Only `sanitizeInput` strips event-handler attributes; the search-query sanitiser keeps them. */
  lemma HandlersKeptInQueries()
    ensures SanitizeInput("onclick=" + "x") == "x"
    ensures SanitizeSearchQuery("onclick=" + "x") == "onclick=" + "x"
  {
    HandlerDroppedByInput();
    HandlerKeptByQuery();
  }

  lemma HandlerDroppedByInput()
    ensures SanitizeInput("onclick=" + "x") == "x"
  {
    var s := "onclick=" + "x";
    assert '<' !in s && '>' !in s;
    RemoveAnglesNone(s);
    RemoveProtocolShort(s);
    OnClickIsHandler();
    RemoveHandlersFront("onclick=", "x");
    assert RemoveHandlers("x") == "x";
    TrimUnchanged("x");
    SanitizeInputOf(s, "x");
  }

  lemma HandlerKeptByQuery()
    ensures SanitizeSearchQuery("onclick=" + "x") == "onclick=" + "x"
  {
    var s := "onclick=" + "x";
    assert '<' !in s && '>' !in s;
    RemoveAnglesNone(s);
    RemoveProtocolShort(s);
    TrimUnchanged(s);
  }

  // ---------------------------------------------------------------------
  // User names

  datatype Validation = Valid | Invalid(error: string)

  const UsernameRequired: string := "Username is required"
  const UsernameEmpty: string := "Username cannot be empty"
  const UsernameTooLong: string := "Username must be 39 characters or less"
  const UsernameBadFormat: string := "Invalid GitHub username format"

  const MaxUsernameLength: nat := 39

  predicate IsUsernameChar(c: char) { IsAlnum(c) || c == '-' }

  /** `^[a-zA-Z0-9]([a-zA-Z0-9-]*[a-zA-Z0-9])?$` */
  predicate MatchesUsernamePattern(t: string) {
    |t| >= 1 && IsAlnum(t[0])
    && (|t| == 1 || ((forall i :: 1 <= i < |t| - 1 ==> IsUsernameChar(t[i])) && IsAlnum(t[|t| - 1])))
  }

  /** `validateGitHubUsername(username)`; `!username` holds only for the empty string. */
  function ValidateGitHubUsername(username: string): (r: Validation)
    ensures r == Valid <==> 1 <= |Trim(username)| <= MaxUsernameLength && MatchesUsernamePattern(Trim(username))
    ensures r.Invalid? ==> r.error in {UsernameRequired, UsernameEmpty, UsernameTooLong, UsernameBadFormat}
  {
    var trimmed := Trim(username);
    if username == "" then Invalid(UsernameRequired)
    else if |trimmed| == 0 then Invalid(UsernameEmpty)
    else if |trimmed| > MaxUsernameLength then Invalid(UsernameTooLong)
    else if !MatchesUsernamePattern(trimmed) then Invalid(UsernameBadFormat)
    else Valid
  }

  /** The pattern read as a rule: letters, digits and hyphens, not starting or ending with a hyphen. */
  lemma UsernamePatternIff(t: string)
    ensures MatchesUsernamePattern(t) <==>
      |t| >= 1 && (forall i :: 0 <= i < |t| ==> IsUsernameChar(t[i])) && t[0] != '-' && t[|t| - 1] != '-'
  {
  }

  /** Each way of failing has its own message. */
  lemma ValidationErrors(username: string)
    ensures username == "" ==> ValidateGitHubUsername(username) == Invalid(UsernameRequired)
    ensures username != "" && Trim(username) == "" ==> ValidateGitHubUsername(username) == Invalid(UsernameEmpty)
    ensures |Trim(username)| > MaxUsernameLength ==> ValidateGitHubUsername(username) == Invalid(UsernameTooLong)
    ensures 1 <= |Trim(username)| <= MaxUsernameLength && !MatchesUsernamePattern(Trim(username))
      ==> ValidateGitHubUsername(username) == Invalid(UsernameBadFormat)
  {
  }

  /** A valid name never starts or ends with a hyphen, but may hold several in a row. */
  lemma ValidUsernameHyphens(username: string)
    requires ValidateGitHubUsername(username) == Valid
    ensures Trim(username)[0] != '-' && Trim(username)[|Trim(username)| - 1] != '-'
  {
    UsernamePatternIff(Trim(username));
  }

  /** A name without surrounding white space is valid when it is short enough and matches. */
  lemma ValidWhenMatching(username: string)
    requires username != [] && !IsWhitespace(username[0]) && !IsWhitespace(username[|username| - 1])
    requires |username| <= MaxUsernameLength && MatchesUsernamePattern(username)
    ensures ValidateGitHubUsername(username) == Valid
  {
    TrimUnchanged(username);
  }

  lemma DoubleHyphenAccepted()
    ensures ValidateGitHubUsername("a--b") == Valid
  {
    assert MatchesUsernamePattern("a--b");
    ValidWhenMatching("a--b");
  }

  // ---------------------------------------------------------------------
  // HTML escaping

  predicate IsSpecial(c: char) { c == '&' || c == '<' || c == '>' || c == '"' || c == '\'' }

  /** The characters that may not appear in escaped text. */
  predicate IsMarkup(c: char) { c == '<' || c == '>' || c == '"' || c == '\'' }

  const Amp: string := "&amp;"
  const Lt: string := "&lt;"
  const Gt: string := "&gt;"
  const Quot: string := "&quot;"
  const Apos: string := "&#039;"

  /** The replacement `map[m]` for one character. */
  function EscapeChar(c: char): (r: string)
    ensures forall x :: x in r ==> !IsMarkup(x)
    ensures !IsSpecial(c) <==> r == [c]
  {
    match c
    case '&' => Amp
    case '<' => Lt
    case '>' => Gt
    case '"' => Quot
    case '\'' => Apos
    case _ => [c]
  }

  /** `escapeHtml(text)` */
  function EscapeHtml(text: string): (r: string)
    ensures |r| >= |text|
    ensures forall x :: x in r ==> !IsMarkup(x)
    ensures |r| == |text| <==> forall i :: 0 <= i < |text| ==> !IsSpecial(text[i])
    decreases |text|
  {
    if text == [] then []
    else EscapeChar(text[0]) + EscapeHtml(text[1..])
  }

  /** Decodes the five entities `escapeHtml` produces; any other text is copied. */
  function UnescapeHtml(s: string): string
    decreases |s|
  {
    if s == [] then []
    else if s[0] != '&' then [s[0]] + UnescapeHtml(s[1..])
    else if StartsWith(s, Amp) then "&" + UnescapeHtml(s[|Amp|..])
    else if StartsWith(s, Lt) then "<" + UnescapeHtml(s[|Lt|..])
    else if StartsWith(s, Gt) then ">" + UnescapeHtml(s[|Gt|..])
    else if StartsWith(s, Quot) then "\"" + UnescapeHtml(s[|Quot|..])
    else if StartsWith(s, Apos) then "'" + UnescapeHtml(s[|Apos|..])
    else [s[0]] + UnescapeHtml(s[1..])
  }

  /** Escaping loses nothing: decoding the entities gives the text back. */
  lemma {:induction false} EscapeRoundTrip(text: string)
    ensures UnescapeHtml(EscapeHtml(text)) == text
    decreases |text|
  {
    if text != [] {
      EscapeRoundTrip(text[1..]);
      UnescapeEscapedChar(text[0], EscapeHtml(text[1..]));
      assert text == [text[0]] + text[1..];
    }
  }

  lemma UnescapeEscapedChar(c: char, rest: string)
    ensures UnescapeHtml(EscapeChar(c) + rest) == [c] + UnescapeHtml(rest)
  {
    var e := EscapeChar(c);
    var s := e + rest;
    StartsWithAppend(e, rest);
    assert s[|e|..] == rest;
    if IsSpecial(c) {
      assert s[0] == '&';
      if c != '&' {
        assert s[1] != Amp[1];
        if c != '<' {
          assert s[1] != Lt[1];
          if c != '>' {
            assert s[1] != Gt[1];
            if c != '"' {
              assert s[1] != Quot[1];
            }
          }
        }
      }
    } else {
      assert s[0] == c && s[1..] == rest;
    }
  }

  // ---------------------------------------------------------------------
  // Rate limiting

  /** `now - time < windowMs` */
  function InWindow(now: int, windowMs: int): int -> bool {
    (t: int) => now - t < windowMs
  }

  /** `requests.filter((time) => now - time < windowMs)` */
  function Recent(times: seq<int>, now: int, windowMs: int): (r: seq<int>)
    ensures forall t :: t in r <==> t in times && now - t < windowMs
  {
    Filter(times, InWindow(now, windowMs))
  }

  /** What one `isAllowed` call decides, and the history it leaves for the identifier. */
  datatype Decision = Decision(allowed: bool, stored: seq<int>)

  function Admit(times: seq<int>, now: int, maxRequests: int, windowMs: int): (d: Decision)
    ensures d.allowed <==> |Recent(times, now, windowMs)| < maxRequests
    ensures d.allowed ==> |Recent(d.stored, now, windowMs)| <= maxRequests
    ensures !d.allowed ==> d.stored == times
    ensures d.allowed ==> d.stored == Recent(times, now, windowMs) + [now]
  {
    var recent := Recent(times, now, windowMs);
    if |recent| >= maxRequests then Decision(false, times)
    else
      FilterNarrow(times, InWindow(now, windowMs), InWindow(now, windowMs));
      FilterAppend(recent, [now], InWindow(now, windowMs));
      Decision(true, recent + [now])
  }

  /** `RateLimiter`: timestamps of the allowed calls, per identifier. */
  class RateLimiter {
    var requests: map<string, seq<int>>
    const maxRequests: int
    const windowMs: int

    /** `new RateLimiter(maxRequests, windowMs)`; the application's limiter is `(10, 60000)`. */
    constructor(maxRequests: int, windowMs: int)
      ensures this.maxRequests == maxRequests && this.windowMs == windowMs
      ensures requests == map[]
    {
      this.maxRequests := maxRequests;
      this.windowMs := windowMs;
      requests := map[];
    }

    /** `this.requests.get(identifier) || []` */
    function History(identifier: string): seq<int>
      reads this
    {
      if identifier in requests then requests[identifier] else []
    }

    /** `isAllowed(identifier)` at the instant `now`. */
    method IsAllowed(identifier: string, now: int) returns (allowed: bool)
      modifies this
      ensures var d := Admit(old(History(identifier)), now, maxRequests, windowMs);
        allowed == d.allowed
        && requests == if d.allowed then old(requests)[identifier := d.stored] else old(requests)
    {
      var d := Admit(History(identifier), now, maxRequests, windowMs);
      if !d.allowed {
        return false;
      }
      requests := requests[identifier := d.stored];
      return true;
    }

    /** `reset(identifier)` */
    method Reset(identifier: string)
      modifies this
      ensures requests == old(requests) - {identifier}
    {
      requests := requests - {identifier};
    }
  }

  /** The history of one identifier after calls at the instants `calls`, and the instants that were allowed. */
  datatype Trace = Trace(stored: seq<int>, allowed: seq<int>)

  function Replay(calls: seq<int>, maxRequests: int, windowMs: int): (t: Trace)
    ensures forall x :: x in t.allowed ==> x in calls
    decreases |calls|
  {
    if calls == [] then Trace([], [])
    else
      var before := Replay(calls[..|calls| - 1], maxRequests, windowMs);
      var now := calls[|calls| - 1];
      var d := Admit(before.stored, now, maxRequests, windowMs);
      Trace(d.stored, if d.allowed then before.allowed + [now] else before.allowed)
  }

  predicate NonDecreasing(s: seq<int>) {
    forall i, j :: 0 <= i < j < |s| ==> s[i] <= s[j]
  }

  /** From the last call on, the pruned history and the allowed instants agree. */
  lemma {:induction false} ReplayRecent(calls: seq<int>, maxRequests: int, windowMs: int, now: int)
    requires NonDecreasing(calls)
    requires calls != [] ==> now >= calls[|calls| - 1]
    ensures Recent(Replay(calls, maxRequests, windowMs).stored, now, windowMs)
         == Recent(Replay(calls, maxRequests, windowMs).allowed, now, windowMs)
    decreases |calls|
  {
    if calls != [] {
      var init := calls[..|calls| - 1];
      var n := calls[|calls| - 1];
      var before := Replay(init, maxRequests, windowMs);
      ReplayRecent(init, maxRequests, windowMs, now);
      var d := Admit(before.stored, n, maxRequests, windowMs);
      if d.allowed {
        ReplayRecent(init, maxRequests, windowMs, n);
        var recent := Recent(before.stored, n, windowMs);
        FilterAppend(recent, [n], InWindow(now, windowMs));
        FilterNarrow(before.stored, InWindow(n, windowMs), InWindow(now, windowMs));
        FilterAppend(before.allowed, [n], InWindow(now, windowMs));
      }
    }
  }

  /** Created in the window of length `windowMs` that ends at `end`. */
  function InSpan(end: int, windowMs: int): int -> bool {
    (t: int) => end - windowMs < t <= end
  }

  /**
   * For one identifier and a clock that does not run backwards, no window
   * of length `windowMs` holds more than `maxRequests` allowed calls.
   */
  lemma {:induction false} AtMostMaxPerWindow(calls: seq<int>, maxRequests: int, windowMs: int, end: int)
    requires NonDecreasing(calls) && maxRequests >= 0
    ensures |Filter(Replay(calls, maxRequests, windowMs).allowed, InSpan(end, windowMs))| <= maxRequests
    decreases |calls|
  {
    if calls != [] {
      var init := calls[..|calls| - 1];
      var n := calls[|calls| - 1];
      var before := Replay(init, maxRequests, windowMs);
      AtMostMaxPerWindow(init, maxRequests, windowMs, end);
      var d := Admit(before.stored, n, maxRequests, windowMs);
      if d.allowed {
        FilterAppend(before.allowed, [n], InSpan(end, windowMs));
        if end - windowMs < n <= end {
          ReplayRecent(init, maxRequests, windowMs, n);
          FilterWeaker(before.allowed, InSpan(end, windowMs), InWindow(n, windowMs));
        }
      }
    }
  }
}
