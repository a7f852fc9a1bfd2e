/**
 * Technology fingerprinting (core/detection.go): substring rules over the
 * lower-cased body, the script sources, the cookies and the Server header,
 * each appending to the languages, frameworks and technologies found so far.
 */
module Detection {
  import opened Util
  import opened Text
  import opened Web

  /**
   * A fingerprint as a value: what the crawler caches per host and emits,
   * and what a plugin is checked against (Go copies the struct out of the
   * pointer Detect returns).
   */
  datatype DetectionResult = DetectionResult(
    url: Url,
    statusCode: int,
    server: string,
    frameworks: seq<string>,
    languages: seq<string>,
    headers: map<string, string>,
    generatedBy: string,
    xPoweredBy: string,
    cookies: seq<string>,
    technologies: seq<string>)

  /** The three lists the rules append to. */
  datatype Signals = Signals(languages: seq<string>, frameworks: seq<string>, technologies: seq<string>)

  /** `t` was obtained from `s` by appending only: every list of `s` is a prefix of the one in `t`. */
  predicate Extends(t: Signals, s: Signals)
  {
    s.languages <= t.languages && s.frameworks <= t.frameworks && s.technologies <= t.technologies
  }

  /** No element occurs twice. */
  predicate Distinct(s: seq<string>)
  {
    forall i, j :: 0 <= i < j < |s| ==> s[i] != s[j]
  }

  /** All three lists are duplicate-free. */
  predicate AllDistinct(s: Signals)
  {
    Distinct(s.languages) && Distinct(s.frameworks) && Distinct(s.technologies)
  }

  // ---------------------------------------------------------------------
  // The *DetectionResult that Detect allocates and the rules fill in place
  // ---------------------------------------------------------------------

  class DetectionState {
    const url: Url
    const statusCode: int
    const server: string
    const generatedBy: string
    const xPoweredBy: string
    var headers: map<string, string>
    var cookies: seq<string>
    var frameworks: seq<string>
    var languages: seq<string>
    var technologies: seq<string>

    /** The literal at the top of Detect: scalar fields from the response, empty collections. */
    constructor (resp: Response)
      ensures url == resp.url && statusCode == resp.statusCode
      ensures server == HeaderGet(resp.header, "Server")
      ensures generatedBy == HeaderGet(resp.header, "Generated-By")
      ensures xPoweredBy == HeaderGet(resp.header, "X-Powered-By")
      ensures headers == map[] && cookies == []
      ensures Found() == Signals([], [], [])
    {
      url := resp.url;
      statusCode := resp.statusCode;
      server := HeaderGet(resp.header, "Server");
      generatedBy := HeaderGet(resp.header, "Generated-By");
      xPoweredBy := HeaderGet(resp.header, "X-Powered-By");
      headers := map[];
      cookies := [];
      frameworks := [];
      languages := [];
      technologies := [];
    }

    /** The lists found so far. */
    function Found(): Signals
      reads this
    {
      Signals(languages, frameworks, technologies)
    }

    /** The value `*result` that leaves the detector. */
    function Snapshot(): DetectionResult
      reads this
    {
      DetectionResult(url, statusCode, server, frameworks, languages, headers,
                      generatedBy, xPoweredBy, cookies, technologies)
    }
  }

  // ---------------------------------------------------------------------
  // The rules as functions on values
  // ---------------------------------------------------------------------

  /** `items` when the rule fires, nothing otherwise. */
  function When(fires: bool, items: seq<string>): seq<string>
  {
    if fires then items else []
  }

  /** Appends the given items to the three lists when `fires`. */
  function AddIf(s: Signals, fires: bool, language: seq<string>, framework: seq<string>, technology: seq<string>): Signals
  {
    Signals(s.languages + When(fires, language), s.frameworks + When(fires, framework), s.technologies + When(fires, technology))
  }

  /** The Spring condition: Go's `&&` binds tighter than `||`. */
  predicate SpringBody(b: string)
  {
    Contains(b, "spring") || (Contains(b, "csrf") && Contains(b, "org.springframework"))
  }

  predicate WordPressBody(b: string)
  {
    Contains(b, "wp-content") || Contains(b, "wp-includes")
  }

  predicate NextBody(b: string)
  {
    Contains(b, "next/data") || Contains(b, "_next")
  }

  /** The PHP body rules, in source order, on the lower-cased body `b`. */
  function PhpRules(s: Signals, b: string): Signals
  {
    var s := AddIf(s, WordPressBody(b), ["PHP"], ["wordpress"], []);
    var s := AddIf(s, Contains(b, "laravel") || Contains(b, "laravel_session"), ["PHP"], ["laravel"], []);
    var s := AddIf(s, Contains(b, "ci_session") || Contains(b, "codeigniter"), ["PHP"], ["CodeIgniter"], []);
    AddIf(s, Contains(b, "symfony") || Contains(b, "sf_"), ["PHP"], ["Symfony"], [])
  }

  /** The Python body rules. */
  function PythonRules(s: Signals, b: string): Signals
  {
    var s := AddIf(s, Contains(b, "csrfmiddlewaretoken") || Contains(b, "django"), ["Python"], ["Django"], []);
    var s := AddIf(s, Contains(b, "flask") || Contains(b, "jinja"), ["Python"], ["Flask"], []);
    AddIf(s, Contains(b, "fastapi"), ["Python"], ["FastAPI"], [])
  }

  /** The Ruby and Java body rules. */
  function RubyJavaRules(s: Signals, b: string): Signals
  {
    var s := AddIf(s, Contains(b, "rails") || Contains(b, "csrf-param"), ["Ruby"], ["Ruby on Rails"], []);
    var s := AddIf(s, Contains(b, "javax.faces") || Contains(b, "jsf"), ["Java"], ["JSF"], []);
    AddIf(s, SpringBody(b), ["Java"], ["Spring"], [])
  }

  /** The JavaScript body rules. */
  function JavaScriptRules(s: Signals, b: string): Signals
  {
    var s := AddIf(s, NextBody(b), ["JavaScript/TypeScript"], ["Next.js"], ["React"]);
    var s := AddIf(s, Contains(b, "react") || Contains(b, "reactdom"), [], [], ["React"]);
    var s := AddIf(s, Contains(b, "vue") || Contains(b, "vuejs"), [], [], ["Vue.js"]);
    var s := AddIf(s, Contains(b, "angular") || Contains(b, "ng-"), [], [], ["Angular"]);
    AddIf(s, Contains(b, "gatsby"), ["JavaScript/TypeScript"], ["Gatsby"], ["React"])
  }

  /** The body rules, in source order, applied to the lower-cased body `b`. */
  function BodyRules(s: Signals, b: string): Signals
  {
    JavaScriptRules(RubyJavaRules(PythonRules(PhpRules(s, b), b), b), b)
  }

  /** The rules for one script `src`, already lower-cased. */
  function ScriptRules(s: Signals, src: string): Signals
  {
    var s := AddIf(s, Contains(src, "next"), [], [], ["Next.js"]);
    var s := AddIf(s, Contains(src, "react"), [], [], ["React"]);
    var s := AddIf(s, Contains(src, "vue"), [], [], ["Vue.js"]);
    AddIf(s, Contains(src, "angular"), [], [], ["Angular"])
  }

  /** The script rules touch only the technologies, in the order next, react, vue, angular. */
  lemma ScriptRulesAppend(s: Signals, src: string)
    ensures var r := ScriptRules(s, src);
            && r.languages == s.languages && r.frameworks == s.frameworks
            && r.technologies == s.technologies + When(Contains(src, "next"), ["Next.js"]) + When(Contains(src, "react"), ["React"])
                                 + When(Contains(src, "vue"), ["Vue.js"]) + When(Contains(src, "angular"), ["Angular"])
  {
  }

  /** The script rules applied to each captured `src` in turn. */
  function ScriptsRules(s: Signals, srcs: seq<string>): Signals
    decreases |srcs|
  {
    if srcs == [] then s
    else ScriptRules(ScriptsRules(s, srcs[..|srcs| - 1]), Lower(srcs[|srcs| - 1]))
  }

  /** What one cookie case adds (at most one item per list). */
  datatype CookieHit = CookieHit(language: Option<string>, framework: Option<string>, technology: Option<string>)

  /** The `switch` of detectFromCookies: the first case whose substring occurs in the lower-cased cookie. */
  function CookieRule(c: string): Option<CookieHit>
  {
    if Contains(c, "laravel_session") then Some(CookieHit(Some("PHP"), Some("Laravel"), None))
    else if Contains(c, "ci_session") then Some(CookieHit(Some("PHP"), Some("CodeIgniter"), None))
    else if Contains(c, "wordpress") then Some(CookieHit(Some("PHP"), Some("WordPress"), None))
    else if Contains(c, "symfony") then Some(CookieHit(Some("PHP"), Some("Symfony"), None))
    else if Contains(c, "django") then Some(CookieHit(Some("Python"), Some("Django"), None))
    else if Contains(c, "flask") then Some(CookieHit(Some("Python"), Some("Flask"), None))
    else if Contains(c, "rails") then Some(CookieHit(Some("Ruby"), Some("Ruby on Rails"), None))
    else if Contains(c, "spring") then Some(CookieHit(Some("Java"), Some("Spring"), None))
    else if Contains(c, "next") then Some(CookieHit(Some("JavaScript/TypeScript"), Some("Next.js"), Some("React")))
    else if Contains(c, "gatsby") then Some(CookieHit(Some("JavaScript/TypeScript"), Some("Gatsby"), Some("React")))
    else if Contains(c, "react") then Some(CookieHit(None, None, Some("React")))
    else if Contains(c, "vue") then Some(CookieHit(None, None, Some("Vue.js")))
    else if Contains(c, "angular") then Some(CookieHit(None, None, Some("Angular")))
    else None
  }

  /** The list `s` after addUnique(&s, item). */
  function WithUnique(s: seq<string>, item: string): seq<string>
  {
    if item in s then s else s + [item]
  }

  /** addUnique when the case names an item for this list; the list unchanged otherwise. */
  function Merge(s: seq<string>, item: Option<string>): seq<string>
  {
    if item.Some? then WithUnique(s, item.value) else s
  }

  /** One cookie through the switch. */
  function CookieStep(s: Signals, cookie: string): Signals
  {
    match CookieRule(Lower(cookie))
    case None => s
    case Some(h) => Signals(Merge(s.languages, h.language), Merge(s.frameworks, h.framework), Merge(s.technologies, h.technology))
  }

  /** The cookies through the switch, in order. */
  function CookieRules(s: Signals, cookies: seq<string>): Signals
    decreases |cookies|
  {
    if cookies == [] then s
    else CookieStep(CookieRules(s, cookies[..|cookies| - 1]), cookies[|cookies| - 1])
  }

  /** The `switch` of detectFromHeaders on the lower-cased Server header: the first match wins. */
  function ServerTechnology(server: string): Option<string>
  {
    if Contains(server, "apache") then Some("Apache")
    else if Contains(server, "nginx") then Some("Nginx")
    else if Contains(server, "iis") then Some("IIS")
    else if Contains(server, "cloudflare") then Some("Cloudflare")
    else None
  }

  /** The header rule applied to the Server header. */
  function HeaderRules(s: Signals, server: string): Signals
  {
    match ServerTechnology(Lower(server))
    case None => s
    case Some(t) => s.(technologies := s.technologies + [t])
  }

  /** The first value of every header that has one. */
  function FirstValues(header: map<string, seq<string>>): map<string, string>
  {
    map k | k in header && |header[k]| > 0 :: header[k][0]
  }

  /** Every Set-Cookie value, in order. */
  function SetCookies(header: map<string, seq<string>>): seq<string>
  {
    if "Set-Cookie" in header then header["Set-Cookie"] else []
  }

  /** Body rules, then script rules, then cookie rules, then the header rule. */
  function Fingerprint(resp: Response): Signals
  {
    var s := ScriptsRules(BodyRules(Signals([], [], []), Lower(resp.body)), resp.scriptSrcs);
    HeaderRules(CookieRules(s, SetCookies(resp.header)), HeaderGet(resp.header, "Server"))
  }

  /** The result Detect returns for `resp`. */
  function DetectSpec(resp: Response): DetectionResult
  {
    var f := Fingerprint(resp);
    DetectionResult(resp.url, resp.statusCode, HeaderGet(resp.header, "Server"),
                    f.frameworks, f.languages, FirstValues(resp.header),
                    HeaderGet(resp.header, "Generated-By"), HeaderGet(resp.header, "X-Powered-By"),
                    SetCookies(resp.header), f.technologies)
  }

  // ---------------------------------------------------------------------
  // The detector's methods
  // ---------------------------------------------------------------------

  /** addUnique: appends `item` unless it is already present. */
  method AddUnique(slice: seq<string>, item: string) returns (r: seq<string>)
    ensures item in r
    ensures item in slice ==> r == slice
    ensures item !in slice ==> r == slice + [item]
  {
    for i := 0 to |slice|
      invariant item !in slice[..i]
    {
      if slice[i] == item {
        return slice;
      }
    }
    assert slice[..|slice|] == slice;
    return slice + [item];
  }

  /** The position of the first occurrence of `x` in `s`. */
  function IndexOf(s: seq<string>, x: string): (i: nat)
    requires x in s
    ensures i < |s| && s[i] == x && x !in s[..i]
  {
    if s[0] == x then 0
    else
      var i := 1 + IndexOf(s[1..], x);
      assert s[..i] == [s[0]] + s[1..][..i - 1];
      i
  }

  /** unique: the distinct elements of `slice`, in order of first occurrence. */
  method Unique(slice: seq<string>) returns (list: seq<string>)
    ensures Distinct(list)
    ensures forall x :: x in list <==> x in slice
    ensures forall a, b :: 0 <= a < b < |list| ==> IndexOf(slice, list[a]) < IndexOf(slice, list[b])
  {
    var keys: map<string, bool> := map[];
    list := [];
    for i := 0 to |slice|
      invariant forall x :: x in keys <==> x in list
      invariant forall x :: x in list <==> x in slice[..i]
      invariant forall a :: 0 <= a < |list| ==> list[a] in slice
      invariant Distinct(list)
      invariant forall a :: 0 <= a < |list| ==> IndexOf(slice, list[a]) < i
      invariant forall a, b :: 0 <= a < b < |list| ==> IndexOf(slice, list[a]) < IndexOf(slice, list[b])
    {
      var entry := slice[i];
      assert slice[..i + 1] == slice[..i] + [entry];
      if entry !in keys {
        var k := IndexOf(slice, entry);
        assert forall j :: 0 <= j < i ==> slice[..i][j] != entry;
        assert slice[..k + 1][k] == entry;
        keys := keys[entry := true];
        list := list + [entry];
      }
    }
    assert slice[..|slice|] == slice;
  }

  /** detectFromHeaders: at most one technology, from the Server header. */
  method DetectFromHeaders(result: DetectionState)
    modifies result
    ensures result.Found() == HeaderRules(old(result.Found()), result.server)
    ensures result.headers == old(result.headers) && result.cookies == old(result.cookies)
  {
    var server := Lower(result.server);
    match ServerTechnology(server)
    case Some(technology) =>
      result.technologies := result.technologies + [technology];
    case None =>
  }

  /** The PHP rules of detectFromBody, appended in place. */
  method DetectPhp(result: DetectionState, b: string)
    modifies result
    ensures result.Found() == PhpRules(old(result.Found()), b)
    ensures result.headers == old(result.headers) && result.cookies == old(result.cookies)
  {
    var languages, frameworks, technologies := result.languages, result.frameworks, result.technologies;
    ghost var expected := result.Found();
    if WordPressBody(b) {
      languages := languages + ["PHP"];
      frameworks := frameworks + ["wordpress"];
    }
    expected := AddIf(expected, WordPressBody(b), ["PHP"], ["wordpress"], []);
    assert Signals(languages, frameworks, technologies) == expected;
    if Contains(b, "laravel") || Contains(b, "laravel_session") {
      languages := languages + ["PHP"];
      frameworks := frameworks + ["laravel"];
    }
    expected := AddIf(expected, Contains(b, "laravel") || Contains(b, "laravel_session"), ["PHP"], ["laravel"], []);
    assert Signals(languages, frameworks, technologies) == expected;
    if Contains(b, "ci_session") || Contains(b, "codeigniter") {
      languages := languages + ["PHP"];
      frameworks := frameworks + ["CodeIgniter"];
    }
    expected := AddIf(expected, Contains(b, "ci_session") || Contains(b, "codeigniter"), ["PHP"], ["CodeIgniter"], []);
    assert Signals(languages, frameworks, technologies) == expected;
    if Contains(b, "symfony") || Contains(b, "sf_") {
      languages := languages + ["PHP"];
      frameworks := frameworks + ["Symfony"];
    }
    expected := AddIf(expected, Contains(b, "symfony") || Contains(b, "sf_"), ["PHP"], ["Symfony"], []);
    assert Signals(languages, frameworks, technologies) == expected;
    result.languages, result.frameworks, result.technologies := languages, frameworks, technologies;
  }

  /** The Python rules of detectFromBody. */
  method DetectPython(result: DetectionState, b: string)
    modifies result
    ensures result.Found() == PythonRules(old(result.Found()), b)
    ensures result.headers == old(result.headers) && result.cookies == old(result.cookies)
  {
    var languages, frameworks, technologies := result.languages, result.frameworks, result.technologies;
    ghost var expected := result.Found();
    if Contains(b, "csrfmiddlewaretoken") || Contains(b, "django") {
      languages := languages + ["Python"];
      frameworks := frameworks + ["Django"];
    }
    expected := AddIf(expected, Contains(b, "csrfmiddlewaretoken") || Contains(b, "django"), ["Python"], ["Django"], []);
    assert Signals(languages, frameworks, technologies) == expected;
    if Contains(b, "flask") || Contains(b, "jinja") {
      languages := languages + ["Python"];
      frameworks := frameworks + ["Flask"];
    }
    expected := AddIf(expected, Contains(b, "flask") || Contains(b, "jinja"), ["Python"], ["Flask"], []);
    assert Signals(languages, frameworks, technologies) == expected;
    if Contains(b, "fastapi") {
      languages := languages + ["Python"];
      frameworks := frameworks + ["FastAPI"];
    }
    expected := AddIf(expected, Contains(b, "fastapi"), ["Python"], ["FastAPI"], []);
    assert Signals(languages, frameworks, technologies) == expected;
    result.languages, result.frameworks, result.technologies := languages, frameworks, technologies;
  }

  /** The Ruby and Java rules of detectFromBody. */
  method DetectRubyJava(result: DetectionState, b: string)
    modifies result
    ensures result.Found() == RubyJavaRules(old(result.Found()), b)
    ensures result.headers == old(result.headers) && result.cookies == old(result.cookies)
  {
    var languages, frameworks, technologies := result.languages, result.frameworks, result.technologies;
    ghost var expected := result.Found();
    if Contains(b, "rails") || Contains(b, "csrf-param") {
      languages := languages + ["Ruby"];
      frameworks := frameworks + ["Ruby on Rails"];
    }
    expected := AddIf(expected, Contains(b, "rails") || Contains(b, "csrf-param"), ["Ruby"], ["Ruby on Rails"], []);
    assert Signals(languages, frameworks, technologies) == expected;
    if Contains(b, "javax.faces") || Contains(b, "jsf") {
      languages := languages + ["Java"];
      frameworks := frameworks + ["JSF"];
    }
    expected := AddIf(expected, Contains(b, "javax.faces") || Contains(b, "jsf"), ["Java"], ["JSF"], []);
    assert Signals(languages, frameworks, technologies) == expected;
    if SpringBody(b) {
      languages := languages + ["Java"];
      frameworks := frameworks + ["Spring"];
    }
    expected := AddIf(expected, SpringBody(b), ["Java"], ["Spring"], []);
    assert Signals(languages, frameworks, technologies) == expected;
    result.languages, result.frameworks, result.technologies := languages, frameworks, technologies;
  }

  /** The JavaScript rules of detectFromBody. */
  method DetectJavaScript(result: DetectionState, b: string)
    modifies result
    ensures result.Found() == JavaScriptRules(old(result.Found()), b)
    ensures result.headers == old(result.headers) && result.cookies == old(result.cookies)
  {
    var languages, frameworks, technologies := result.languages, result.frameworks, result.technologies;
    ghost var expected := result.Found();
    if NextBody(b) {
      languages := languages + ["JavaScript/TypeScript"];
      frameworks := frameworks + ["Next.js"];
      technologies := technologies + ["React"];
    }
    expected := AddIf(expected, NextBody(b), ["JavaScript/TypeScript"], ["Next.js"], ["React"]);
    assert Signals(languages, frameworks, technologies) == expected;
    if Contains(b, "react") || Contains(b, "reactdom") {
      technologies := technologies + ["React"];
    }
    expected := AddIf(expected, Contains(b, "react") || Contains(b, "reactdom"), [], [], ["React"]);
    assert Signals(languages, frameworks, technologies) == expected;
    if Contains(b, "vue") || Contains(b, "vuejs") {
      technologies := technologies + ["Vue.js"];
    }
    expected := AddIf(expected, Contains(b, "vue") || Contains(b, "vuejs"), [], [], ["Vue.js"]);
    assert Signals(languages, frameworks, technologies) == expected;
    if Contains(b, "angular") || Contains(b, "ng-") {
      technologies := technologies + ["Angular"];
    }
    expected := AddIf(expected, Contains(b, "angular") || Contains(b, "ng-"), [], [], ["Angular"]);
    assert Signals(languages, frameworks, technologies) == expected;
    if Contains(b, "gatsby") {
      languages := languages + ["JavaScript/TypeScript"];
      frameworks := frameworks + ["Gatsby"];
      technologies := technologies + ["React"];
    }
    expected := AddIf(expected, Contains(b, "gatsby"), ["JavaScript/TypeScript"], ["Gatsby"], ["React"]);
    assert Signals(languages, frameworks, technologies) == expected;
    result.languages, result.frameworks, result.technologies := languages, frameworks, technologies;
  }

  /** detectFromBody: the body rules on the lower-cased body, then the rules for each script source. */
  method DetectFromBody(result: DetectionState, body: string, scriptSrcs: seq<string>)
    modifies result
    ensures result.Found() == ScriptsRules(BodyRules(old(result.Found()), Lower(body)), scriptSrcs)
    ensures result.headers == old(result.headers) && result.cookies == old(result.cookies)
  {
    var bodyLower := Lower(body);
    DetectPhp(result, bodyLower);
    DetectPython(result, bodyLower);
    DetectRubyJava(result, bodyLower);
    DetectJavaScript(result, bodyLower);
    ghost var found := result.Found();
    assert scriptSrcs[..0] == [];

    for i := 0 to |scriptSrcs|
      invariant result.Found() == ScriptsRules(found, scriptSrcs[..i])
      invariant result.headers == old(result.headers) && result.cookies == old(result.cookies)
    {
      ghost var before := result.Found();
      var src := Lower(scriptSrcs[i]);
      var technologies := result.technologies;
      if Contains(src, "next") {
        technologies := technologies + ["Next.js"];
      }
      ghost var t1 := before.technologies + When(Contains(src, "next"), ["Next.js"]);
      assert technologies == t1;
      if Contains(src, "react") {
        technologies := technologies + ["React"];
      }
      ghost var t2 := t1 + When(Contains(src, "react"), ["React"]);
      assert technologies == t2;
      if Contains(src, "vue") {
        technologies := technologies + ["Vue.js"];
      }
      ghost var t3 := t2 + When(Contains(src, "vue"), ["Vue.js"]);
      assert technologies == t3;
      if Contains(src, "angular") {
        technologies := technologies + ["Angular"];
      }
      assert technologies == t3 + When(Contains(src, "angular"), ["Angular"]);
      result.technologies := technologies;
      ScriptRulesAppend(before, src);
      assert result.Found() == ScriptRules(before, src);
      assert scriptSrcs[..i + 1][..i] == scriptSrcs[..i];
    }
    assert scriptSrcs[..|scriptSrcs|] == scriptSrcs;
  }

  /** detectFromCookies: every cookie through the switch, additions through addUnique. */
  method DetectFromCookies(result: DetectionState)
    modifies result
    ensures result.Found() == CookieRules(old(result.Found()), result.cookies)
    ensures result.headers == old(result.headers) && result.cookies == old(result.cookies)
  {
    var cookies := result.cookies;
    for i := 0 to |cookies|
      invariant result.Found() == CookieRules(old(result.Found()), cookies[..i])
      invariant result.headers == old(result.headers) && result.cookies == cookies
    {
      assert cookies[..i + 1][..i] == cookies[..i];
      var cookieLower := Lower(cookies[i]);
      match CookieRule(cookieLower)
      case Some(hit) =>
        if hit.language.Some? {
          result.languages := AddUnique(result.languages, hit.language.value);
        }
        if hit.framework.Some? {
          result.frameworks := AddUnique(result.frameworks, hit.framework.value);
        }
        if hit.technology.Some? {
          result.technologies := AddUnique(result.technologies, hit.technology.value);
        }
      case None =>
    }
    assert cookies[..|cookies|] == cookies;
  }

  /** Detect: copy the headers, then body, cookie and header rules; the error it returns is always nil. */
  method Detect(resp: Response) returns (result: DetectionState)
    ensures fresh(result)
    ensures result.Snapshot() == DetectSpec(resp)
  {
    result := new DetectionState(resp);

    var pending := resp.header.Keys;
    while pending != {}
      invariant pending <= resp.header.Keys
      invariant result.headers == map k | k in resp.header.Keys - pending && |resp.header[k]| > 0 :: resp.header[k][0]
      invariant result.cookies == if "Set-Cookie" in resp.header.Keys - pending then SetCookies(resp.header) else []
      invariant result.Found() == Signals([], [], [])
      decreases pending
    {
      var key :| key in pending;
      var values := resp.header[key];
      if |values| > 0 {
        result.headers := result.headers[key := values[0]];
        if key == "Set-Cookie" {
          result.cookies := result.cookies + values;
        }
      }
      pending := pending - {key};
    }
    assert resp.header.Keys - pending == resp.header.Keys;

    DetectFromBody(result, resp.body, resp.scriptSrcs);
    DetectFromCookies(result);
    DetectFromHeaders(result);
  }

  // ---------------------------------------------------------------------
  // Properties of the rules
  // ---------------------------------------------------------------------

  /** addUnique only appends, and leaves a duplicate-free list duplicate-free. */
  lemma WithUniqueExtends(s: seq<string>, item: string)
    ensures s <= WithUnique(s, item) && item in WithUnique(s, item)
    ensures Distinct(s) ==> Distinct(WithUnique(s, item))
  {
  }

  /** The cookie rules only append: what was found before keeps its positions. */
  lemma {:induction false} CookieRulesExtend(s: Signals, cookies: seq<string>)
    ensures Extends(CookieRules(s, cookies), s)
    decreases |cookies|
  {
    if cookies != [] {
      var prev := CookieRules(s, cookies[..|cookies| - 1]);
      CookieRulesExtend(s, cookies[..|cookies| - 1]);
      var c := cookies[|cookies| - 1];
      match CookieRule(Lower(c))
      case None =>
      case Some(h) =>
        if h.language.Some? { WithUniqueExtends(prev.languages, h.language.value); }
        if h.framework.Some? { WithUniqueExtends(prev.frameworks, h.framework.value); }
        if h.technology.Some? { WithUniqueExtends(prev.technologies, h.technology.value); }
    }
  }

  /** The cookie rules never introduce a duplicate. */
  lemma {:induction false} CookieRulesKeepDistinct(s: Signals, cookies: seq<string>)
    requires AllDistinct(s)
    ensures AllDistinct(CookieRules(s, cookies))
    decreases |cookies|
  {
    if cookies != [] {
      var prev := CookieRules(s, cookies[..|cookies| - 1]);
      CookieRulesKeepDistinct(s, cookies[..|cookies| - 1]);
      var c := cookies[|cookies| - 1];
      match CookieRule(Lower(c))
      case None =>
      case Some(h) =>
        if h.language.Some? { WithUniqueExtends(prev.languages, h.language.value); }
        if h.framework.Some? { WithUniqueExtends(prev.frameworks, h.framework.value); }
        if h.technology.Some? { WithUniqueExtends(prev.technologies, h.technology.value); }
    }
  }

  /** Every cookie's case leaves its items in the lists for good. */
  lemma {:induction false} CookieRulesCover(s: Signals, cookies: seq<string>, j: nat)
    requires j < |cookies| && CookieRule(Lower(cookies[j])).Some?
    ensures var h := CookieRule(Lower(cookies[j])).value;
            var r := CookieRules(s, cookies);
            && (h.language.Some? ==> h.language.value in r.languages)
            && (h.framework.Some? ==> h.framework.value in r.frameworks)
            && (h.technology.Some? ==> h.technology.value in r.technologies)
    decreases |cookies|
  {
    var prefix := cookies[..|cookies| - 1];
    var prev := CookieRules(s, prefix);
    var c := cookies[|cookies| - 1];
    var r := CookieRules(s, cookies);
    assert Extends(r, prev) by {
      CookieRulesExtend(prev, [c]);
      assert [c][..0] == [];
    }
    if j < |cookies| - 1 {
      assert prefix[j] == cookies[j];
      CookieRulesCover(s, prefix, j);
    } else {
      var h := CookieRule(Lower(c)).value;
      if h.language.Some? { WithUniqueExtends(prev.languages, h.language.value); }
      if h.framework.Some? { WithUniqueExtends(prev.frameworks, h.framework.value); }
      if h.technology.Some? { WithUniqueExtends(prev.technologies, h.technology.value); }
    }
  }

  /** A cookie matching "laravel_session" and "django" is Laravel only: the first case wins. */
  lemma CookieFirstCaseWins(c: string)
    requires Contains(Lower(c), "laravel_session")
    ensures CookieStep(Signals([], [], []), c) == Signals(["PHP"], ["Laravel"], [])
  {
  }

  /** One cookie adds at most one item to each list, and only at the end. */
  lemma CookieStepAtMostOne(s: Signals, cookie: string)
    ensures var r := CookieStep(s, cookie);
            && Extends(r, s)
            && |r.languages| <= |s.languages| + 1
            && |r.frameworks| <= |s.frameworks| + 1
            && |r.technologies| <= |s.technologies| + 1
  {
  }

  /**
   * The result keeps the first value of every header that has one, under the
   * same name, and every Set-Cookie value in order.
   */
  lemma DetectCopiesHeaders(resp: Response)
    ensures var r := DetectSpec(resp);
            && (forall k :: k in r.headers <==> k in resp.header && |resp.header[k]| > 0)
            && (forall k :: k in r.headers ==> r.headers[k] == resp.header[k][0])
            && r.cookies == (if "Set-Cookie" in resp.header then resp.header["Set-Cookie"] else [])
            && r.server == HeaderGet(resp.header, "Server")
  {
  }

  /** The header rule appends at most one technology and touches nothing else. */
  lemma HeaderRuleAtMostOne(s: Signals, server: string)
    ensures var r := HeaderRules(s, server);
            && r.languages == s.languages && r.frameworks == s.frameworks
            && s.technologies <= r.technologies && |r.technologies| <= |s.technologies| + 1
    ensures Contains(Lower(server), "apache") ==> HeaderRules(s, server).technologies == s.technologies + ["Apache"]
    ensures (!Contains(Lower(server), "apache") && Contains(Lower(server), "nginx")) ==>
              HeaderRules(s, server).technologies == s.technologies + ["Nginx"]
  {
  }

  /** Appending is transitive. */
  lemma ExtendsTransitive(a: Signals, b: Signals, c: Signals)
    requires Extends(b, a) && Extends(c, b)
    ensures Extends(c, a)
  {
    assert c.languages[..|a.languages|] == c.languages[..|b.languages|][..|a.languages|];
    assert c.frameworks[..|a.frameworks|] == c.frameworks[..|b.frameworks|][..|a.frameworks|];
    assert c.technologies[..|a.technologies|] == c.technologies[..|b.technologies|][..|a.technologies|];
  }

  /** The PHP rules only append. */
  lemma PhpRulesExtend(s: Signals, b: string)
    ensures Extends(PhpRules(s, b), s)
  {
  }

  /** The Python rules only append. */
  lemma PythonRulesExtend(s: Signals, b: string)
    ensures Extends(PythonRules(s, b), s)
  {
  }

  /** The Ruby and Java rules only append. */
  lemma RubyJavaRulesExtend(s: Signals, b: string)
    ensures Extends(RubyJavaRules(s, b), s)
  {
  }

  /** The JavaScript rules only append. */
  lemma JavaScriptRulesExtend(s: Signals, b: string)
    ensures Extends(JavaScriptRules(s, b), s)
  {
  }

  /** The body rules only append: what was found before keeps its positions. */
  lemma BodyRulesExtend(s: Signals, b: string)
    ensures Extends(PhpRules(s, b), s)
    ensures Extends(BodyRules(s, b), PhpRules(s, b))
    ensures Extends(BodyRules(s, b), s)
  {
    var p := PhpRules(s, b);
    var y := PythonRules(p, b);
    var j := RubyJavaRules(y, b);
    var r := JavaScriptRules(j, b);
    PhpRulesExtend(s, b);
    PythonRulesExtend(p, b);
    RubyJavaRulesExtend(y, b);
    JavaScriptRulesExtend(j, b);
    ExtendsTransitive(p, y, j);
    ExtendsTransitive(p, j, r);
    ExtendsTransitive(s, p, r);
  }

  /** WordPress markers in the body add PHP and wordpress right after what was there. */
  lemma WordPressRule(s: Signals, b: string)
    requires WordPressBody(b)
    ensures var r := BodyRules(s, b);
            && Extends(r, s)
            && r.languages[|s.languages|] == "PHP" && r.frameworks[|s.frameworks|] == "wordpress"
  {
    var p := PhpRules(s, b);
    var r := BodyRules(s, b);
    BodyRulesExtend(s, b);
    assert p.languages[|s.languages|] == "PHP" && p.frameworks[|s.frameworks|] == "wordpress";
    assert r.languages[|s.languages|] == r.languages[..|p.languages|][|s.languages|];
    assert r.frameworks[|s.frameworks|] == r.frameworks[..|p.frameworks|][|s.frameworks|];
  }

  /** Only the Spring rule names the Spring framework: the PHP rules do not. */
  lemma PhpRulesNoSpring(s: Signals, b: string)
    requires "Spring" !in s.frameworks
    ensures "Spring" !in PhpRules(s, b).frameworks
  {
  }

  /** The Python rules do not name Spring. */
  lemma PythonRulesNoSpring(s: Signals, b: string)
    requires "Spring" !in s.frameworks
    ensures "Spring" !in PythonRules(s, b).frameworks
  {
  }

  /** The JavaScript rules do not name Spring. */
  lemma JavaScriptRulesNoSpring(s: Signals, b: string)
    requires "Spring" !in s.frameworks
    ensures "Spring" !in JavaScriptRules(s, b).frameworks
  {
  }

  /** The Spring rule fires on "spring", or on "csrf" together with "org.springframework", and nothing else adds Spring. */
  lemma SpringRule(s: Signals, b: string)
    ensures SpringBody(b) ==> "Spring" in BodyRules(s, b).frameworks
    ensures !SpringBody(b) && "Spring" !in s.frameworks ==> "Spring" !in BodyRules(s, b).frameworks
  {
    var p := PhpRules(s, b);
    var y := PythonRules(p, b);
    var j := RubyJavaRules(y, b);
    var r := JavaScriptRules(j, b);
    JavaScriptRulesExtend(j, b);
    if SpringBody(b) {
      assert j.frameworks[|j.frameworks| - 1] == "Spring";
      assert r.frameworks[|j.frameworks| - 1] == "Spring";
    } else if "Spring" !in s.frameworks {
      PhpRulesNoSpring(s, b);
      PythonRulesNoSpring(p, b);
      assert "Spring" !in j.frameworks;
      JavaScriptRulesNoSpring(j, b);
    }
  }

  /** The Next.js rule also adds the React technology. */
  lemma NextJsAddsReact(s: Signals, b: string)
    requires NextBody(b)
    ensures "Next.js" in BodyRules(s, b).frameworks && "React" in BodyRules(s, b).technologies
  {
  }
}
