/**
 * Natural-language guessing for issue text
 * (client/src/utils/languageDetection.ts).
 *
 * Characters are code points and each regular expression of the source is
 * a predicate on them: a character class becomes a range test, a global
 * `replace(re, '')` becomes `ReplaceAll` with the length of the match that
 * starts at a position, and `\b(w1|w2|...)\b` with the `i` flag becomes
 * `HasWord`.
 */
module LanguageDetection {
  import opened Text
  import opened Seqs
  import opened GitHub

  datatype NaturalLanguage = En | Zh | Ja | Ko | Es | Fr | De | Pt | Ru | Ar | Hi | Other

  // ---------------------------------------------------------------------
  // Cleaning

  /**
   * `s.replace(re, '')` for a global pattern that never matches the empty
   * string: `m(t)` is the length of the match starting at the head of `t`,
   * 0 when there is none. After a match the scan resumes behind it,
   * otherwise one character further on.
   */
  function ReplaceAll(s: string, m: string -> nat): (r: string)
    requires forall t :: m(t) <= |t|
    ensures |r| <= |s|
    ensures forall c :: c in r ==> c in s
    decreases |s|
  {
    if s == [] then []
    else if m(s) > 0 then
      var r := ReplaceAll(s[m(s)..], m);
      assert forall c :: c in s[m(s)..] ==> c in s;
      r
    else
      var r := ReplaceAll(s[1..], m);
      assert forall c :: c in s[1..] ==> c in s;
      [s[0]] + r
  }

  /** Length of the leading run of characters that satisfy `p`. */
  function Run(s: string, p: char -> bool): (n: nat)
    ensures n <= |s|
    ensures forall i :: 0 <= i < n ==> p(s[i])
    ensures n == |s| || !p(s[n])
    decreases |s|
  {
    if s == [] || !p(s[0]) then 0 else 1 + Run(s[1..], p)
  }

  predicate NotWhitespace(c: char) { !IsWhitespace(c) }

  predicate NotBacktick(c: char) { c != '`' }

  /** `https?://` followed by a character that is not white space. */
  predicate UrlStart(s: string) {
    (StartsWith(s, "https://") && |s| > 8 && !IsWhitespace(s[8]))
    || (StartsWith(s, "http://") && |s| > 7 && !IsWhitespace(s[7]))
  }

  /**
   * `/https?:\/\/[^\s]+/`: the scheme has no white space and `[^\s]+` is
   * greedy, so a match is the whole leading run of non-white-space.
   */
  function UrlMatch(s: string): (n: nat)
    ensures n <= |s|
    ensures n > 0 <==> UrlStart(s)
    ensures n > 0 ==> n == |s| || IsWhitespace(s[n])
  {
    if UrlStart(s) then
      assert NotWhitespace(s[0]);
      Run(s, NotWhitespace)
    else 0
  }

  /** ``/`[^`]+`/``: a backtick, at least one other character, a backtick. */
  function CodeSpanMatch(s: string): (n: nat)
    ensures n <= |s|
    ensures n > 0 ==> (3 <= n && s[0] == '`' && s[n - 1] == '`'
      && forall i :: 0 < i < n - 1 ==> s[i] != '`')
  {
    if |s| > 0 && s[0] == '`' then
      var k := Run(s[1..], NotBacktick);
      if k >= 1 && k + 1 < |s| then k + 2 else 0
    else 0
  }

  /** The first index at or after `from` where a fence "```" starts, if any. */
  function FenceFrom(s: string, from: nat): (k: nat)
    ensures from <= k
    ensures k + 3 <= |s| ==> OccursAt(s, "```", k)
    ensures forall j :: from <= j < k && j + 3 <= |s| ==> !OccursAt(s, "```", j)
    decreases |s| - from
  {
    if |s| < from + 3 then from
    else if OccursAt(s, "```", from) then from
    else FenceFrom(s, from + 1)
  }

  /** ``/```[\s\S]*?```/``: the lazy quantifier stops at the first closing fence. */
  function FenceMatch(s: string): (n: nat)
    ensures n <= |s|
    ensures n > 0 ==> (6 <= n && StartsWith(s, "```") && OccursAt(s, "```", n - 3)
      && forall j :: 3 <= j < n - 3 ==> !OccursAt(s, "```", j))
  {
    if StartsWith(s, "```") then
      var k := FenceFrom(s, 3);
      if k + 3 <= |s| then k + 3 else 0
    else 0
  }

  /** The class `[#*_\-\[\](){}]`. */
  predicate IsMarkup(c: char) {
    c == '#' || c == '*' || c == '_' || c == '-' || c == '[' || c == ']'
    || c == '(' || c == ')' || c == '{' || c == '}'
  }

  /** Every markup character replaced by a space. */
  function BlankMarkup(s: string): (r: string)
    ensures |r| == |s|
    ensures forall i :: 0 <= i < |s| ==> r[i] == (if IsMarkup(s[i]) then ' ' else s[i])
    ensures forall i :: 0 <= i < |r| ==> !IsMarkup(r[i]) && (r[i] in s || r[i] == ' ')
  {
    seq(|s|, i requires 0 <= i < |s| => if IsMarkup(s[i]) then ' ' else s[i])
  }

  /** The three global removals, in the source's order: URLs, then code spans, then fenced blocks. */
  function StripCode(text: string): (r: string)
    ensures |r| <= |text|
    ensures forall x :: x in r ==> x in text
  {
    var a := ReplaceAll(text, UrlMatch);
    var b := ReplaceAll(a, CodeSpanMatch);
    ReplaceAll(b, FenceMatch)
  }

  /** The text the heuristics look at: code removed, markup blanked, trimmed. */
  function Clean(text: string): (r: string)
    ensures |r| <= |text|
  {
    Trim(BlankMarkup(StripCode(text)))
  }

  /** The cleaned text has no markup character left, and every other character comes from the input. */
  lemma CleanChars(text: string, i: int)
    requires 0 <= i < |Clean(text)|
    ensures !IsMarkup(Clean(text)[i])
    ensures Clean(text)[i] in text || Clean(text)[i] == ' '
  {
    var d := BlankMarkup(StripCode(text));
    var c := Clean(text)[i];
    assert c in Clean(text);
    assert c in d;
    var j :| 0 <= j < |d| && d[j] == c;
  }

  // ---------------------------------------------------------------------
  // Character classes

  predicate HasCharIn(s: string, lo: char, hi: char) {
    exists i | 0 <= i < |s| :: lo <= s[i] <= hi
  }

  /** CJK Unified Ideographs, `[一-鿿]`. */
  predicate HasCjk(s: string) { HasCharIn(s, '\U{4E00}', '\U{9FFF}') }

  /** Hiragana and Katakana, `[぀-ゟ゠-ヿ]`. */
  predicate HasKana(s: string) { HasCharIn(s, '\U{3040}', '\U{30FF}') }

  /** The Japanese pattern: kana or CJK ideographs. */
  predicate HasJapanese(s: string) { HasKana(s) || HasCjk(s) }

  predicate HasHangul(s: string) { HasCharIn(s, '\U{AC00}', '\U{D7A3}') }

  predicate HasArabic(s: string) { HasCharIn(s, '\U{0600}', '\U{06FF}') }

  predicate HasCyrillic(s: string) { HasCharIn(s, '\U{0400}', '\U{04FF}') }

  predicate HasDevanagari(s: string) { HasCharIn(s, '\U{0900}', '\U{097F}') }

  /** None of the six scripts the detector recognises by range. */
  predicate NoScript(s: string) {
    !HasJapanese(s) && !HasHangul(s) && !HasArabic(s) && !HasCyrillic(s) && !HasDevanagari(s)
  }

  predicate IsAscii(c: char) { c <= '\U{007F}' }

  function NonAsciiCount(s: string): (n: nat)
    ensures n <= |s|
    ensures (forall i :: 0 <= i < |s| ==> IsAscii(s[i])) ==> n == 0
    decreases |s|
  {
    if s == [] then 0 else (if IsAscii(s[0]) then 0 else 1) + NonAsciiCount(s[1..])
  }

  /** `nonAsciiChars.length / cleanText.length > 0.3`, in exact arithmetic. */
  predicate MostlyNonAscii(s: string) {
    10 * NonAsciiCount(s) > 3 * |s|
  }

  /**
   * `[àáâãäåèéêëìíîïòóôõöùúûüýÿñç]` with the `i` flag: the listed letters
   * and their upper-case forms (U+0178 is the upper case of ÿ).
   */
  predicate IsAccented(c: char) {
    ('\U{00C0}' <= c <= '\U{00C5}') || ('\U{00C7}' <= c <= '\U{00CF}')
    || ('\U{00D1}' <= c <= '\U{00D6}') || ('\U{00D9}' <= c <= '\U{00DD}')
    || ('\U{00E0}' <= c <= '\U{00E5}') || ('\U{00E7}' <= c <= '\U{00EF}')
    || ('\U{00F1}' <= c <= '\U{00F6}') || ('\U{00F9}' <= c <= '\U{00FD}')
    || c == '\U{00FF}' || c == '\U{0178}'
  }

  /** `[äöüß]` with the `i` flag; ß has no one-character upper case, so it stands alone. */
  predicate IsGermanLetter(c: char) {
    c == '\U{00E4}' || c == '\U{00C4}' || c == '\U{00F6}' || c == '\U{00D6}'
    || c == '\U{00FC}' || c == '\U{00DC}' || c == '\U{00DF}'
  }

  predicate HasAccent(s: string) { exists i | 0 <= i < |s| :: IsAccented(s[i]) }

  predicate HasGermanLetter(s: string) { exists i | 0 <= i < |s| :: IsGermanLetter(s[i]) }

  // ---------------------------------------------------------------------
  // Stop words

  const SpanishWords: seq<string> := ["es", "el", "la", "de", "que", "en", "un", "una", "por", "con", "para"]

  const FrenchWords: seq<string> := ["le", "la", "les", "de", "du", "des", "et", "est", "un", "une", "pour", "avec", "dans"]

  const PortugueseWords: seq<string> :=
    ["o", "a", "os", "as", "de", "do", "da", "dos", "das", "em", "um", "uma", "com", "para"]

  /**
   * `w` occurs at `i`, ignoring ASCII case, with a word boundary `\b` on
   * both sides. `\w` is ASCII-only, so an accented letter next to `w`
   * counts as a boundary.
   */
  predicate WordAt(s: string, w: string, i: int) {
    0 <= i && i + |w| <= |s| && Lower(s[i..i + |w|]) == w
    && (i == 0 || !IsWordChar(s[i - 1]))
    && (i + |w| == |s| || !IsWordChar(s[i + |w|]))
  }

  /** `/\b(w1|w2|...)\b/i.test(s)` */
  predicate HasWord(s: string, words: seq<string>) {
    exists k | 0 <= k < |words| :: exists i | 0 <= i <= |s| :: WordAt(s, words[k], i)
  }

  // ---------------------------------------------------------------------
  // Detection

  /** An accent together with a stop word of one of the Spanish, French or Portuguese lists. */
  predicate LatinWords(c: string) {
    HasAccent(c) && (HasWord(c, SpanishWords) || HasWord(c, FrenchWords) || HasWord(c, PortugueseWords))
  }

  /** The branches of `detectLanguage` after the length check, on the cleaned text. */
  function ClassifyCleaned(c: string): (r: NaturalLanguage)
    ensures r != Other
    ensures !MostlyNonAscii(c) ==> r == En
    ensures r == Ja <==> MostlyNonAscii(c) && HasKana(c)
    ensures r == Zh <==> MostlyNonAscii(c) && !HasKana(c) && HasCjk(c)
    ensures r == Ko <==> MostlyNonAscii(c) && !HasJapanese(c) && HasHangul(c)
    ensures r == Ar <==> MostlyNonAscii(c) && !HasJapanese(c) && !HasHangul(c) && HasArabic(c)
    ensures r == Ru <==> (MostlyNonAscii(c) && !HasJapanese(c) && !HasHangul(c) && !HasArabic(c)
      && HasCyrillic(c))
    ensures r == Hi <==> (MostlyNonAscii(c) && !HasJapanese(c) && !HasHangul(c) && !HasArabic(c)
      && !HasCyrillic(c) && HasDevanagari(c))
    ensures r == Es <==> MostlyNonAscii(c) && NoScript(c) && HasAccent(c) && HasWord(c, SpanishWords)
    ensures r == Fr <==> (MostlyNonAscii(c) && NoScript(c) && HasAccent(c)
      && !HasWord(c, SpanishWords) && HasWord(c, FrenchWords))
    ensures r == Pt <==> (MostlyNonAscii(c) && NoScript(c) && HasAccent(c)
      && !HasWord(c, SpanishWords) && !HasWord(c, FrenchWords) && HasWord(c, PortugueseWords))
    ensures r == De <==> (MostlyNonAscii(c) && NoScript(c) && !LatinWords(c) && HasGermanLetter(c))
    ensures r == En <==> !MostlyNonAscii(c) || (NoScript(c) && !LatinWords(c) && !HasGermanLetter(c))
  {
    if MostlyNonAscii(c) then
      if HasJapanese(c) && HasKana(c) then Ja
      else if HasCjk(c) && !HasKana(c) then Zh
      else if HasHangul(c) then Ko
      else if HasArabic(c) then Ar
      else if HasCyrillic(c) then Ru
      else if HasDevanagari(c) then Hi
      else if HasAccent(c) && HasWord(c, SpanishWords) then Es
      else if HasAccent(c) && HasWord(c, FrenchWords) then Fr
      else if HasAccent(c) && HasWord(c, PortugueseWords) then Pt
      else if HasGermanLetter(c) then De
      else En
    else En
  }

  /** `detectLanguage(text)` */
  function DetectLanguage(text: string): (r: NaturalLanguage)
    ensures r != Other
    ensures Trim(text) == [] ==> r == En
    ensures r != En ==> 3 <= |Clean(text)| && MostlyNonAscii(Clean(text))
    ensures Trim(text) != [] && |Clean(text)| < 3 ==> r == En
    ensures Trim(text) != [] && |Clean(text)| >= 3 ==> r == ClassifyCleaned(Clean(text))
  {
    if Trim(text) == [] then En
    else
      var clean := Clean(text);
      if |clean| < 3 then En else ClassifyCleaned(clean)
  }

  /** Fewer than three characters are too short to judge, whatever they are. */
  lemma ShortTextIsEnglish(text: string)
    requires |text| < 3
    ensures DetectLanguage(text) == En
  {
  }

  /** Cleaning only removes characters or turns them into spaces, so ASCII text stays ASCII and reads as English. */
  lemma AsciiTextIsEnglish(text: string)
    requires forall i :: 0 <= i < |text| ==> IsAscii(text[i])
    ensures DetectLanguage(text) == En
  {
    var c := Clean(text);
    forall i | 0 <= i < |c|
      ensures IsAscii(c[i])
    {
      CleanChars(text, i);
      if c[i] != ' ' {
        var j :| 0 <= j < |text| && text[j] == c[i];
      }
    }
  }

  /**
   * Kana decides for Japanese whatever else the text holds, so the
   * Japanese range test in front of the kana test adds nothing.
   */
  lemma KanaMeansJapanese(c: string)
    requires MostlyNonAscii(c) && HasKana(c)
    ensures ClassifyCleaned(c) == Ja
    ensures HasJapanese(c)
  {
  }

  /**
   * "de" is on all three stop-word lists and "la", "un", "para", "con"
   * on two, so accented text containing one of those words is Spanish
   * rather than French or Portuguese.
   */
  lemma SharedWordsAreSpanish(c: string, i: int)
    requires MostlyNonAscii(c) && NoScript(c) && HasAccent(c)
    requires WordAt(c, "de", i) || WordAt(c, "la", i) || WordAt(c, "un", i)
      || WordAt(c, "para", i) || WordAt(c, "con", i)
    ensures ClassifyCleaned(c) == Es
  {
    assert 0 <= i <= |c|;
    if WordAt(c, "de", i) {
      assert SpanishWords[3] == "de";
    } else if WordAt(c, "la", i) {
      assert SpanishWords[2] == "la";
    } else if WordAt(c, "un", i) {
      assert SpanishWords[6] == "un";
    } else if WordAt(c, "para", i) {
      assert SpanishWords[10] == "para";
    } else {
      assert SpanishWords[9] == "con";
    }
  }

  /** German needs an umlaut or ß; without accented letters only ß can lead there. */
  lemma GermanNeedsUmlautOrEszett(c: string)
    requires ClassifyCleaned(c) == De && !HasAccent(c)
    ensures exists i | 0 <= i < |c| :: c[i] == '\U{00DF}'
  {
    var i :| 0 <= i < |c| && IsGermanLetter(c[i]);
    assert !IsAccented(c[i]);
  }

  /** Text without an ASCII character is all non-ASCII. */
  lemma {:induction false} NoAsciiCount(s: string)
    requires forall i :: 0 <= i < |s| ==> !IsAscii(s[i])
    ensures NonAsciiCount(s) == |s|
    decreases |s|
  {
    if s != [] {
      NoAsciiCount(s[1..]);
    }
  }

  /**
   * Cleaned text made only of Cyrillic letters reads as Russian: it is wholly
   * non-ASCII and falls in none of the ranges the classifier checks before the Cyrillic one.
   */
  lemma CyrillicTextIsRussian(c: string)
    requires c != []
    requires forall i :: 0 <= i < |c| ==> '\U{0400}' <= c[i] <= '\U{04FF}'
    ensures ClassifyCleaned(c) == Ru
  {
    NoAsciiCount(c);
    assert HasCyrillic(c) by { assert '\U{0400}' <= c[0] <= '\U{04FF}'; }
  }

  /** The word "Баг" reads as Russian. */
  lemma CyrillicExample()
    ensures ClassifyCleaned("\U{0411}\U{0430}\U{0433}") == Ru
  {
    CyrillicTextIsRussian("\U{0411}\U{0430}\U{0433}");
  }

  /**
   * Spanish with one accented letter in nine ("está roto") is under the
   * 0.3 ratio and reads as English: the Romance and German heuristics
   * only see text that is mostly non-ASCII.
   */
  lemma SparseAccentsReadAsEnglish()
    ensures ClassifyCleaned("est\U{00E1} roto") == En
  {
    var c := "est\U{00E1} roto";
    assert NonAsciiCount(c) == 1;
  }

  // ---------------------------------------------------------------------
  // Filtering

  const CommonLanguages: seq<NaturalLanguage> := [En, Zh, Ja, Ko, Es, Fr, De, Pt, Ru, Ar, Hi]

  /** The predicate passed to `items.filter`, including its final branch for `other`. */
  predicate Admitted(item: Issue, allowed: seq<NaturalLanguage>) {
    var titleLang := DetectLanguage(item.title);
    DetectLanguage(item.title) in allowed
    || (item.body != "" && DetectLanguage(item.body) in allowed)
    || (Other in allowed && titleLang !in CommonLanguages
        && (item.body == "" || DetectLanguage(item.body) !in CommonLanguages))
  }

  /** The branch for `other` inside the filter never admits anything: every detected language is a common one. */
  lemma OtherBranchIsDead(item: Issue, allowed: seq<NaturalLanguage>)
    ensures Admitted(item, allowed) <==>
      DetectLanguage(item.title) in allowed
      || (item.body != "" && DetectLanguage(item.body) in allowed)
  {
    DetectedIsCommon(DetectLanguage(item.title));
  }

  lemma DetectedIsCommon(l: NaturalLanguage)
    requires l != Other
    ensures l in CommonLanguages
  {
    match l
    case En => assert CommonLanguages[0] == En;
    case Zh => assert CommonLanguages[1] == Zh;
    case Ja => assert CommonLanguages[2] == Ja;
    case Ko => assert CommonLanguages[3] == Ko;
    case Es => assert CommonLanguages[4] == Es;
    case Fr => assert CommonLanguages[5] == Fr;
    case De => assert CommonLanguages[6] == De;
    case Pt => assert CommonLanguages[7] == Pt;
    case Ru => assert CommonLanguages[8] == Ru;
    case Ar => assert CommonLanguages[9] == Ar;
    case Hi => assert CommonLanguages[10] == Hi;
  }

  /** `filterByLanguage(items, allowedLanguages)` */
  function FilterByLanguage(items: seq<Issue>, allowed: seq<NaturalLanguage>): (r: seq<Issue>)
    ensures |allowed| == 0 || Other in allowed ==> r == items
    ensures |allowed| > 0 && Other !in allowed ==>
      forall it :: it in items ==>
        (it in r <==> DetectLanguage(it.title) in allowed
                      || (it.body != "" && DetectLanguage(it.body) in allowed))
    ensures forall it :: it in r ==> it in items
    ensures |allowed| > 0 && Other !in allowed ==>
      forall it :: multiset(r)[it] ==
        (if DetectLanguage(it.title) in allowed || (it.body != "" && DetectLanguage(it.body) in allowed)
         then multiset(items)[it] else 0)
  {
    if |allowed| == 0 || Other in allowed then items
    else
      var r := Filter(items, it => Admitted(it, allowed));
      assert forall it :: it in items ==> (Admitted(it, allowed) <==>
        DetectLanguage(it.title) in allowed
        || (it.body != "" && DetectLanguage(it.body) in allowed)) by {
        forall it | it in items {
          OtherBranchIsDead(it, allowed);
        }
      }
      assert forall it :: (multiset(r)[it] ==
        (if DetectLanguage(it.title) in allowed || (it.body != "" && DetectLanguage(it.body) in allowed)
         then multiset(items)[it] else 0)) by {
        forall it {
          FilterCount(items, it => Admitted(it, allowed), it);
        }
      }
      r
  }

  /** The kept items are the input with some left out, in their original order. */
  lemma FilterByLanguageKeepsOrder(items: seq<Issue>, allowed: seq<NaturalLanguage>)
    ensures IsSubsequence(FilterByLanguage(items, allowed), items)
  {
    if |allowed| == 0 || Other in allowed {
      PrefixIsSubsequence(items, items);
    } else {
      FilterIsSubsequence(items, it => Admitted(it, allowed));
    }
  }

  /** Filtering a second time with the same languages changes nothing. */
  lemma FilterByLanguageIdempotent(items: seq<Issue>, allowed: seq<NaturalLanguage>)
    ensures FilterByLanguage(FilterByLanguage(items, allowed), allowed) == FilterByLanguage(items, allowed)
  {
    if |allowed| > 0 && Other !in allowed {
      FilterTwice(items, it => Admitted(it, allowed));
    }
  }
}
