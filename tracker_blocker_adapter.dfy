/** TrackerBlockingMVP/TrackerBlocking/TrackerBlockerAdapter.swift: turns a rule-list
    JSON into a compiled content rule list on a web view. It skips allowlisted hosts,
    reuses a list already compiled under the same identifier, and otherwise compiles.
    Applying a list always leaves the web view with exactly that one list. */
module TrackerBlockerAdapter {
  import opened Wrappers
  import opened Strings
  import opened Errors
  import AllowlistManager
  import opened ContentRuleLists

  const IdentifierPrefix: string := "TrackerRules_"
  const HashIdentifierPrefix: string := "TrackerRules_hash_"

  const TwoTo63: int := 0x8000_0000_0000_0000
  const TwoTo64: int := 0x1_0000_0000_0000_0000
  const MinInt64: int := -TwoTo63
  const MaxInt64: int := TwoTo63 - 1

  // ---------------------------------------------------------------------------
  // 64-bit wrapping arithmetic (`&*`, `&+` on Swift's Int)

  /** The Int value with the same low 64 bits as `x`. */
  function Wrap64(x: int): (r: int)
    ensures MinInt64 <= r <= MaxInt64
  {
    (x + TwoTo63) % TwoTo64 - TwoTo63
  }

  /** Wrapping removes a whole number of 2^64 steps. */
  lemma WrapOffset(x: int) returns (k: int)
    ensures Wrap64(x) == x - k * TwoTo64
  {
    k := (x + TwoTo63) / TwoTo64;
  }

  /** Wrapping depends only on the value modulo 2^64. */
  lemma WrapShift(x: int, k: int)
    ensures Wrap64(x + k * TwoTo64) == Wrap64(x)
  {
    var a := x + TwoTo63;
    var q, r := a / TwoTo64, a % TwoTo64;
    assert a + k * TwoTo64 == (q + k) * TwoTo64 + r;
    ModUnique(a + k * TwoTo64, q + k, r);
  }

  lemma ModUnique(n: int, q: int, r: int)
    requires n == q * TwoTo64 + r && 0 <= r < TwoTo64
    ensures n % TwoTo64 == r
  {
    var q', r' := n / TwoTo64, n % TwoTo64;
    assert (q - q') * TwoTo64 == r' - r;
  }

  // ---------------------------------------------------------------------------
  // The content hash

  /** The hash loop of `generateRuleListIdentifier` as a fold over the Unicode
      scalars: `h = (h &* 31) &+ scalar`, starting from 0. */
  function Hash(s: string): (h: int)
    ensures MinInt64 <= h <= MaxInt64
    decreases |s|
  {
    if s == [] then 0
    else Wrap64(Wrap64(Hash(s[..|s| - 1]) * 31) + s[|s| - 1] as int)
  }

  /** The unwrapped polynomial `sum scalar_i * 31^(n-1-i)`. */
  function Poly(s: string): int
    decreases |s|
  {
    if s == [] then 0 else Poly(s[..|s| - 1]) * 31 + s[|s| - 1] as int
  }

  /** The wrapping hash is the polynomial reduced to 64 bits at the end: the
      intermediate wrap-arounds lose nothing. */
  lemma {:induction false} HashIsWrappedPoly(s: string)
    ensures Hash(s) == Wrap64(Poly(s))
    decreases |s|
  {
    if s != [] {
      var p, c := s[..|s| - 1], s[|s| - 1] as int;
      HashIsWrappedPoly(p);
      var k := WrapOffset(Poly(p));
      var m := WrapOffset(Hash(p) * 31);
      calc {
        Hash(s);
        Wrap64(Wrap64(Hash(p) * 31) + c);
        Wrap64(Hash(p) * 31 + c + (-m) * TwoTo64);
        { WrapShift(Hash(p) * 31 + c, -m); }
        Wrap64(Hash(p) * 31 + c);
        Wrap64(Poly(p) * 31 + c + (-31 * k) * TwoTo64);
        { WrapShift(Poly(p) * 31 + c, -31 * k); }
        Wrap64(Poly(s));
      }
    }
  }

  /** The loop of `generateRuleListIdentifier`. */
  method HashScalars(s: string) returns (h: int)
    ensures h == Hash(s)
  {
    h := 0;
    for i := 0 to |s|
      invariant h == Hash(s[..i])
    {
      assert s[..i + 1][..i] == s[..i];
      h := Wrap64(Wrap64(h * 31) + s[i] as int);
    }
    assert s[..|s|] == s;
  }

  // ---------------------------------------------------------------------------
  // Decimal rendering of the hash (string interpolation of a non-negative Int)

  function Digit(d: nat): (c: char)
    requires d < 10
    ensures '0' <= c <= '9'
  {
    ('0' as int + d) as char
  }

  predicate IsDigits(s: string) {
    forall i | 0 <= i < |s| :: '0' <= s[i] <= '9'
  }

  /** `"\(n)"` for a non-negative `n`: its decimal digits, no leading zero. */
  function DecimalString(n: nat): (r: string)
    ensures |r| >= 1 && IsDigits(r)
    ensures r[0] == '0' ==> n == 0
    decreases n
  {
    if n < 10 then [Digit(n)] else DecimalString(n / 10) + [Digit(n % 10)]
  }

  /** Reads a string of decimal digits back as a number. */
  function ParseDecimal(s: string): (n: nat)
    requires IsDigits(s)
    decreases |s|
  {
    if s == [] then 0 else ParseDecimal(s[..|s| - 1]) * 10 + (s[|s| - 1] as int - '0' as int)
  }

  /** Parsing undoes the rendering, so different numbers render differently. */
  lemma {:induction false} DecimalRoundTrip(n: nat)
    ensures ParseDecimal(DecimalString(n)) == n
    decreases n
  {
    if n >= 10 {
      DecimalRoundTrip(n / 10);
      var r := DecimalString(n);
      assert r[..|r| - 1] == DecimalString(n / 10);
    }
  }

  // ---------------------------------------------------------------------------
  // Rule list identifiers

  /** The etag as it enters the identifier: every `W/`, then every `"` removed. */
  function EtagIdentifierPart(etag: string): (part: string)
    ensures '"' !in part
    ensures |part| <= |etag|
  {
    RemoveAllErases(RemoveWeakIndicator(etag), '"');
    RemoveAll(RemoveWeakIndicator(etag), "\"")
  }

  /** `abs` on a 64-bit Int: None where Swift traps on overflow (`abs(Int.min)`). */
  function SwiftAbs(h: int): (r: Option<int>)
    requires MinInt64 <= h <= MaxInt64
    ensures r.None? <==> h == MinInt64
    ensures r.Some? ==> 0 <= r.value <= MaxInt64 && (r.value == h || r.value == -h)
  {
    if h == MinInt64 then None else if h < 0 then Some(-h) else Some(h)
  }

  /** The magnitude of a 64-bit Int, which for Int.min is 2^63. */
  function Magnitude(h: int): (m: nat)
    ensures m == h || m == -h
  {
    if h < 0 then -h else h
  }

  /** `generateRuleListIdentifier(rulesJSON:etag:)` as written; None is the trap. */
  function RuleListIdentifierAsWritten(rulesJSON: string, etag: Option<string>): (identifier: Option<string>)
    ensures identifier.None? <==> etag.None? && Hash(rulesJSON) == MinInt64
    ensures identifier.Some? ==> IdentifierPrefix <= identifier.value
  {
    match etag
    case Some(e) => Some(IdentifierPrefix + EtagIdentifierPart(e))
    case None =>
      match SwiftAbs(Hash(rulesJSON))
      case None => None
      case Some(m) => Some(HashIdentifierPrefix + DecimalString(m))
  }

  /** The identifier with the hash rendered by its magnitude, defined for every
      rules text. */
  function RuleListIdentifier(rulesJSON: string, etag: Option<string>): (identifier: string)
    ensures IdentifierPrefix <= identifier
    // with an etag: the prefix and a quote-free remainder
    ensures etag.Some? ==> '"' !in identifier[|IdentifierPrefix|..]
    // without one: the hash prefix and the digits of the hash's magnitude
    ensures etag.None? ==>
              HashIdentifierPrefix <= identifier && IsDigits(identifier[|HashIdentifierPrefix|..]) &&
              ParseDecimal(identifier[|HashIdentifierPrefix|..]) == Magnitude(Hash(rulesJSON))
  {
    if etag.None? then
      DecimalRoundTrip(Magnitude(Hash(rulesJSON)));
      var digits := DecimalString(Magnitude(Hash(rulesJSON)));
      assert (HashIdentifierPrefix + digits)[|HashIdentifierPrefix|..] == digits;
      HashIdentifierPrefix + digits
    else
      var part := EtagIdentifierPart(etag.value);
      assert (IdentifierPrefix + part)[|IdentifierPrefix|..] == part;
      IdentifierPrefix + part
  }

  /** The corrected identifier differs from the one as written only where that one
      traps, which is exactly a missing etag with a hash of Int.min. */
  lemma IdentifierCorrectionAgrees(rulesJSON: string, etag: Option<string>)
    ensures RuleListIdentifierAsWritten(rulesJSON, etag).Some? ==>
              RuleListIdentifierAsWritten(rulesJSON, etag) == Some(RuleListIdentifier(rulesJSON, etag))
  {
  }

  /** A rules text whose hash is Int.min: the identifier as written traps on it,
      while the corrected one renders 2^63. */
  lemma HashTrapInput()
    ensures Hash("8KylYK7swmnkG") == MinInt64
    ensures RuleListIdentifierAsWritten("8KylYK7swmnkG", None).None?
    ensures RuleListIdentifier("8KylYK7swmnkG", None) == HashIdentifierPrefix + DecimalString(TwoTo63)
  {
    assert Poly("8") == 56;
    assert "8K"[..1] == "8";
    assert Poly("8K") == 1811;
    assert "8Ky"[..2] == "8K";
    assert Poly("8Ky") == 56262;
    assert "8Kyl"[..3] == "8Ky";
    assert Poly("8Kyl") == 1744230;
    assert "8KylY"[..4] == "8Kyl";
    assert Poly("8KylY") == 54071219;
    assert "8KylYK"[..5] == "8KylY";
    assert Poly("8KylYK") == 1676207864;
    assert "8KylYK7"[..6] == "8KylYK";
    assert Poly("8KylYK7") == 51962443839;
    assert "8KylYK7s"[..7] == "8KylYK7";
    assert Poly("8KylYK7s") == 1610835759124;
    assert "8KylYK7sw"[..8] == "8KylYK7s";
    assert Poly("8KylYK7sw") == 49935908532963;
    assert "8KylYK7swm"[..9] == "8KylYK7sw";
    assert Poly("8KylYK7swm") == 1548013164521962;
    assert "8KylYK7swmn"[..10] == "8KylYK7swm";
    assert Poly("8KylYK7swmn") == 47988408100180932;
    assert "8KylYK7swmnk"[..11] == "8KylYK7swmn";
    assert Poly("8KylYK7swmnk") == 1487640651105608999;
    assert "8KylYK7swmnkG"[..12] == "8KylYK7swmnk";
    assert Poly("8KylYK7swmnkG") == 5 * TwoTo63;
    HashIsWrappedPoly("8KylYK7swmnkG");
    WrapShift(TwoTo63, 2);
  }

  /** The etag part carries no quote; a weak or strong quoted tag `x` without
      quotes or `W/` of its own gives back `x`. */
  lemma EtagIdentifierPartUnwraps(x: string)
    requires '"' !in x && !Contains(x, "W/")
    ensures EtagIdentifierPart("W/\"" + x + "\"") == x
    ensures EtagIdentifierPart("\"" + x + "\"") == x
  {
    var t := "\"" + x + "\"";
    RemoveWeakIndicatorKeepsQuotes(x);
    assert ("W/\"" + x + "\"")[..2] == "W/";
    assert ("W/\"" + x + "\"")[2..] == t;
    assert RemoveWeakIndicator(t) == t;
    assert t[..1] == "\"" && t[1..] == x + "\"";
    DropClosingQuote(x);
  }

  /** With an etag the rules text plays no part in the identifier. */
  lemma EtagIdentifierIgnoresRules(a: string, b: string, etag: string)
    ensures RuleListIdentifier(a, Some(etag)) == RuleListIdentifier(b, Some(etag))
    ensures RuleListIdentifier(a, Some(etag)) == IdentifierPrefix + EtagIdentifierPart(etag)
  {
  }

  /** Without an etag two rules texts share an identifier exactly when their hashes
      have the same magnitude. */
  lemma HashIdentifierIff(a: string, b: string)
    ensures RuleListIdentifier(a, None) == RuleListIdentifier(b, None) <==>
              Magnitude(Hash(a)) == Magnitude(Hash(b))
  {
    var da, db := DecimalString(Magnitude(Hash(a))), DecimalString(Magnitude(Hash(b)));
    if RuleListIdentifier(a, None) == RuleListIdentifier(b, None) {
      assert da == (HashIdentifierPrefix + da)[|HashIdentifierPrefix|..];
      assert db == (HashIdentifierPrefix + db)[|HashIdentifierPrefix|..];
      DecimalRoundTrip(Magnitude(Hash(a)));
      DecimalRoundTrip(Magnitude(Hash(b)));
    }
  }

  /** `generateRuleListIdentifier(rulesJSON:etag:)`, with the loop of the hash. */
  method GenerateRuleListIdentifier(rulesJSON: string, etag: Option<string>) returns (identifier: string)
    ensures identifier == RuleListIdentifier(rulesJSON, etag)
  {
    if etag.Some? {
      return IdentifierPrefix + RemoveAll(RemoveWeakIndicator(etag.value), "\"");
    }
    var hashInt := HashScalars(rulesJSON);
    identifier := HashIdentifierPrefix + DecimalString(Magnitude(hashInt));
  }

  // ---------------------------------------------------------------------------
  // Applying rule lists

  /** The error a completion handler receives. */
  datatype ApplyError = WebKit(storeError: StoreError) | General(generalError: GeneralError)

  class TrackerBlockerAdapter {
    const allowlistManager: AllowlistManager.AllowlistManager
    const contentRuleListStore: ContentRuleListStore

    constructor (allowlistManager: AllowlistManager.AllowlistManager, contentRuleListStore: ContentRuleListStore)
      ensures this.allowlistManager == allowlistManager && this.contentRuleListStore == contentRuleListStore
    {
      this.allowlistManager := allowlistManager;
      this.contentRuleListStore := contentRuleListStore;
    }

    /** The web view shows a page whose host is on the allowlist. */
    predicate HostAllowlisted(webView: WebView)
      reads allowlistManager.userDefaults
      ensures webView.host.None? ==> !HostAllowlisted(webView)
      ensures webView.host.Some? ==> (HostAllowlisted(webView) <==> webView.host.value in allowlistManager.GetAllowlist())
    {
      webView.host.Some? && allowlistManager.IsAllowlisted(webView.host.value)
    }

    /** `applyRuleList(_:to:identifier:completion:)`. */
    method ApplyRuleList(list: CompiledList, webView: WebView) returns (completion: Option<ApplyError>)
      modifies webView
      ensures webView.ruleLists == [list]
      ensures completion.None?
    {
      webView.RemoveAllContentRuleLists();
      webView.AddContentRuleList(list);
      completion := None;
    }

    /** `compileRuleList(rulesJSON:identifier:webView:completion:)`: a compiler
        error is passed on, a missing list without an error becomes
        `ruleListCompilationError`, and a compiled list is applied. */
    method CompileRuleList(rulesJSON: string, identifier: string, webView: WebView) returns (completion: Option<ApplyError>)
      modifies webView, contentRuleListStore
      ensures var reply := contentRuleListStore.compiler(identifier, rulesJSON);
              contentRuleListStore.lists ==
                (if reply.list.Some? && reply.error.None? then old(contentRuleListStore.lists)[identifier := reply.list.value]
                 else old(contentRuleListStore.lists)) &&
              (reply.error.Some? ==> completion == Some(WebKit(reply.error.value)) &&
                                     webView.ruleLists == old(webView.ruleLists)) &&
              (reply.error.None? && reply.list.None? ==> completion == Some(General(RuleListCompilationError)) &&
                                                         webView.ruleLists == old(webView.ruleLists)) &&
              (reply.error.None? && reply.list.Some? ==> completion.None? && webView.ruleLists == [reply.list.value])
    {
      var reply := contentRuleListStore.Compile(identifier, rulesJSON);
      if reply.error.Some? {
        return Some(WebKit(reply.error.value));
      }
      if reply.list.None? {
        return Some(General(RuleListCompilationError));
      }
      completion := ApplyRuleList(reply.list.value, webView);
    }

    /** `compileAndApplyContentRuleList(rulesJSON:etag:webView:completion:)`. */
    method CompileAndApplyContentRuleList(rulesJSON: string, etag: Option<string>, webView: WebView)
      returns (completion: Option<ApplyError>)
      modifies webView, contentRuleListStore
      // an allowlisted host: every list removed, no lookup, no compile
      ensures HostAllowlisted(webView) ==>
                completion.None? && webView.ruleLists == [] &&
                contentRuleListStore.lists == old(contentRuleListStore.lists)
      // a list already compiled under the identifier is applied as it is
      ensures var identifier := RuleListIdentifier(rulesJSON, etag);
              !HostAllowlisted(webView) && identifier in old(contentRuleListStore.lists) ==>
                completion.None? && webView.ruleLists == [old(contentRuleListStore.lists)[identifier]] &&
                contentRuleListStore.lists == old(contentRuleListStore.lists)
      // otherwise the compiler decides
      ensures var identifier := RuleListIdentifier(rulesJSON, etag);
              var reply := contentRuleListStore.compiler(identifier, rulesJSON);
              !HostAllowlisted(webView) && identifier !in old(contentRuleListStore.lists) ==>
                (reply.error.Some? ==> completion == Some(WebKit(reply.error.value)) &&
                                       webView.ruleLists == old(webView.ruleLists) &&
                                       contentRuleListStore.lists == old(contentRuleListStore.lists)) &&
                (reply.error.None? && reply.list.None? ==> completion == Some(General(RuleListCompilationError)) &&
                                                           webView.ruleLists == old(webView.ruleLists) &&
                                                           contentRuleListStore.lists == old(contentRuleListStore.lists)) &&
                (reply.error.None? && reply.list.Some? ==> completion.None? && webView.ruleLists == [reply.list.value] &&
                                                           contentRuleListStore.lists ==
                                                             old(contentRuleListStore.lists)[identifier := reply.list.value])
      // whenever it reports success the web view holds at most one list
      ensures completion.None? ==> |webView.ruleLists| <= 1
    {
      if HostAllowlisted(webView) {
        webView.RemoveAllContentRuleLists();
        return None;
      }
      var identifier := GenerateRuleListIdentifier(rulesJSON, etag);
      var existing := contentRuleListStore.LookUp(identifier);
      if existing.Some? {
        completion := ApplyRuleList(existing.value, webView);
        return;
      }
      completion := CompileRuleList(rulesJSON, identifier, webView);
    }

    /** `removeContentRuleList(with:completion:)`: delegates to the store. */
    method RemoveContentRuleList(identifier: string) returns (completion: Option<ApplyError>)
      modifies contentRuleListStore
      ensures completion.None? <==> identifier in old(contentRuleListStore.lists)
      ensures completion.Some? ==> completion.value.WebKit?
      ensures contentRuleListStore.lists == old(contentRuleListStore.lists) - {identifier}
    {
      var error := contentRuleListStore.Remove(identifier);
      completion := if error.Some? then Some(WebKit(error.value)) else None;
    }
  }
}
