# Specter core in Dafny

Specter is a web scanner written in Go. It crawls a site, fingerprints each host's
languages, frameworks and technologies from response bodies, cookies and the `Server`
header, and then runs YAML-described plugins against compatible targets. A plugin's
payload is sent as a `multipart/form-data` body, and its result is read back from a
response header.

This project models the three sequential pieces of that core and proves properties of them:

- **Detection** (`detection.dfy`, from `core/detection.go`).
  - The fingerprint rules fill a `*DetectionResult` in place. It is modelled as the class `DetectionState`.
  - Each group of rules is an imperative method proved equal to a rule function on values (`PhpRules`, `CookieRules`, `HeaderRules`, …).
  - Properties of those functions are proved as lemmas: the lists only grow, the first switch case wins, the Spring and WordPress rules, and duplicate-freedom under `addUnique`.
  - `Detect` is proved to return exactly `DetectSpec(resp)`.
- **Plugin engine** (`plugin.dfy`, from `core/plugin.go`).
  - The compatibility gate, with case-insensitive membership.
  - The multipart body builder. It is proved equal to `BuildBody`, and a parser `ParseParts` is proved to be its inverse on every part list whose names hold no `"` and whose contents hold no carriage return (`Readable`).
  - The header result extractor, both as written and corrected (see Findings).
  - The stage order of `Execute`: gate, first payload, request, extraction.
- **Crawl frontier** (`crawler.dfy`, from `core/crawler.go`).
  - The `Crawler` class owns the maps `visited`, `hostDepth` and `hostFramework`.
  - `markVisited` is an atomic check-and-insert on (domain, URL) pairs.
  - The page budget comes from `hostDepthExceeded` and `updateDepth`.
  - The blacklist filter.
  - The write-once detection cache.
  - The `href` walk over a parsed tree.
  - A sequential worklist `Crawl` stands in for the worker pool. It keeps these invariants:
    - every URL is filed under its own domain;
    - no host has more parsed pages counted than its budget `max(MaxDepth, 1)` (pages whose fetch or parse fails are not counted);
    - no (domain, URL) key is queued twice;
    - no blacklisted link is queued.

Supporting modules:
- `util.dfy`: `Option` and `Result`.
- `text.dfy`: the functions of Go's `strings` package that the code uses, over `seq<char>`, with ASCII-only case folding.
- `web.dfy`: URL, node-tree, response and request values.

Library calls are modelled as follows:
- `text/template` is the engine's `render` function.
- `regexp.MustCompile` followed by `FindStringSubmatch` is `findSubmatch`, a total function of the pattern and the header value.
- `url.QueryUnescape` is `queryUnescape`.
- `url.Parse` is the crawler's `parse`.
- `html.Parse` is the `doc` part of a `Fetch`.
- The crawler's `FrameworkDetector` is its `detect` function; the crawler invariant `Valid` holds it equal to `DetectSpec`, the result `Detect` is proved to compute.
- The script-tag regular expression is `Response.scriptSrcs`, the list of captured `src` values.
- The HTTP client is a `transport` function or a `Fetch` value.

## Model

| member | source | states |
|---|---|---|
| Detection.AddUnique | core/detection.go:284-291 | afterwards `item` is in the list; a present item leaves the list unchanged, an absent one is appended once at the end |
| Detection.Unique | core/detection.go:293-303 | result is duplicate-free, holds exactly the input's elements, in order of first occurrence |
| Detection.DetectionState.constructor | core/detection.go:32-43 | URL, status and the Server, Generated-By and X-Powered-By headers come from the response; all collections start empty |
| Detection.Detect | core/detection.go:31-65 | the returned result equals `DetectSpec(resp)`: header copy, then body rules, then cookie rules, then the Server rule; no error path |
| Detection.DetectCopiesHeaders | core/detection.go:46-53 | `Headers` holds the first value of exactly the headers that have one; `Cookies` is every Set-Cookie value in order |
| Detection.DetectFromHeaders | core/detection.go:68-85 | the lists change as `HeaderRules` says: at most one technology appended, chosen by the Server header |
| Detection.HeaderRuleAtMostOne | core/detection.go:68-85 | languages and frameworks untouched, at most one technology appended; apache wins over nginx, which wins over the rest |
| Detection.DetectPhp | core/detection.go:90-106 | the four PHP rules append in source order, as `PhpRules` |
| Detection.DetectPython | core/detection.go:108-120 | the three Python rules, as `PythonRules` |
| Detection.DetectRubyJava | core/detection.go:122-136 | the Ruby, JSF and Spring rules, as `RubyJavaRules` |
| Detection.DetectJavaScript | core/detection.go:138-157 | the five JavaScript rules, as `JavaScriptRules` |
| Detection.DetectFromBody | core/detection.go:87-180 | the result is the body rules on the lower-cased body, then the script rules on each captured `src`; headers and cookies untouched |
| Detection.ScriptRulesAppend | core/detection.go:163-178 | one `src` appends only technologies: Next.js, React, Vue.js, Angular, each when its substring occurs, in that order |
| Detection.PhpRulesExtend | core/detection.go:90-106 | the PHP rules only append |
| Detection.PythonRulesExtend | core/detection.go:108-120 | the Python rules only append |
| Detection.RubyJavaRulesExtend | core/detection.go:122-136 | the Ruby and Java rules only append |
| Detection.JavaScriptRulesExtend | core/detection.go:138-157 | the JavaScript rules only append |
| Detection.BodyRulesExtend | core/detection.go:87-157 | all body rules only append: earlier findings keep their positions |
| Detection.WordPressRule | core/detection.go:91-94 | a body with wp-content or wp-includes gets PHP and wordpress appended right after what was already there |
| Detection.SpringRule | core/detection.go:133-136 | Spring is found iff the body has "spring", or both "csrf" and "org.springframework" (`&&` binds tighter); no other rule adds Spring |
| Detection.PhpRulesNoSpring | core/detection.go:90-106 | the PHP rules never add Spring |
| Detection.PythonRulesNoSpring | core/detection.go:108-120 | the Python rules never add Spring |
| Detection.JavaScriptRulesNoSpring | core/detection.go:138-157 | the JavaScript rules never add Spring |
| Detection.NextJsAddsReact | core/detection.go:139-143 | a Next.js body adds the Next.js framework and the React technology |
| Detection.DetectFromCookies | core/detection.go:182-227 | the lists change as `CookieRules` says: each cookie through the switch, additions through `addUnique` |
| Detection.CookieFirstCaseWins | core/detection.go:186-189 | a cookie that matches laravel_session yields Laravel only, whatever later cases it also matches |
| Detection.CookieStepAtMostOne | core/detection.go:185-225 | one cookie adds at most one item to each list, at the end |
| Detection.CookieRulesExtend | core/detection.go:183-226 | the cookie rules only append |
| Detection.CookieRulesKeepDistinct | core/detection.go:183-226 | duplicate-free lists stay duplicate-free |
| Detection.CookieRulesCover | core/detection.go:183-226 | every item a cookie's case names is in the final lists |
| Detection.WithUniqueExtends | core/detection.go:284-291 | `addUnique` extends the list, contains the item afterwards, and keeps a duplicate-free list duplicate-free |
| Detection.ExtendsTransitive | core/detection.go:87-180 | appending twice is appending |
| Plugin.PluginEngine.constructor | core/plugin.go:93-97 | the engine starts with the loaded configuration and an empty context |
| Plugin.PluginEngine.StringInSlice | core/plugin.go:261-268 | true iff some element equals the search string up to case; an empty slice gives false |
| Plugin.PluginEngine.IsTargetCompatible | core/plugin.go:239-259 | true iff some requirement is set and each of framework, technology and language matches the target's list up to case |
| Plugin.NoRequirementsRejects | core/plugin.go:240-243 | a plugin with no framework, technology or language is compatible with nothing |
| Plugin.EmptyRequirementMatchesOnlyEmpty | core/plugin.go:246-268 | an empty requirement is met only by an empty list entry, not by every target |
| Plugin.CompatibleIgnoresCase | core/plugin.go:261-268 | lower-casing the requirements does not change the verdict |
| Plugin.CompatibleMonotone | core/plugin.go:239-259 | a target whose lists only grew stays compatible |
| Plugin.PluginEngine.BuildMultiPartPayload | core/plugin.go:172-205 | the result is `BuildBody`, and the context holds the rendered JSON exactly when it rendered (even if a part fails later) |
| Plugin.RenderParts | core/plugin.go:183-190 | success iff every part renders; names kept, contents rendered, in order; on failure the error of the first failing part |
| Plugin.BuildBodyContents | core/plugin.go:175-203 | the body is built iff the JSON and every part render, and is then the multipart layout of the rendered parts in declared order |
| Plugin.BuildBodyNoParts | core/plugin.go:201-203 | with no parts the body is the closing delimiter line alone |
| Plugin.PartBlockWrites | core/plugin.go:192-197 | the five writes of one part append exactly one part block |
| Plugin.BlocksAppend | core/plugin.go:183-198 | appending a part appends its block |
| Plugin.MultipartBodyCons | core/plugin.go:183-203 | the body of a non-empty part list is the first part's block followed by the body of the rest |
| Plugin.RoundTripStep | core/plugin.go:183-203 | prepending a readable part's block to a body that parses back extends the parsed list by that part |
| Plugin.MultipartRoundTrip | core/plugin.go:183-203 | parsing the body gives back every part, name and content, in order (names without quotes, contents without CR) |
| Plugin.BuildBodyReadable | core/plugin.go:172-205 | the built body parses back to the rendered parts |
| Plugin.ParseBlockOf | core/plugin.go:193-197 | one part block reads back as its part, leaving what follows |
| Plugin.ParseNamedOf | core/plugin.go:194-197 | the name ends at its closing quote, the content at its line break |
| Plugin.ParseContentOf | core/plugin.go:196-197 | the content ends at its line break |
| Plugin.ParsePartsOfBlock | core/plugin.go:193-201 | a body that starts with a part reads as that part followed by the rest's parts |
| Plugin.BlockIsNotClosing | core/plugin.go:193-201 | a part block never reads as the closing line |
| Plugin.ExtractResult | core/plugin.go:207-237 | error iff the header is missing or empty or the match does not hold exactly one capture (exactly two entries); otherwise that capture, decoded |
| Plugin.ExtractResultAsWritten | core/plugin.go:207-237 | as written: an error iff the header is empty or the match has more than two entries; an out-of-range index iff the header is present and the match has fewer than two; otherwise the decoded capture |
| Plugin.ExtractWithoutDecoding | core/plugin.go:220-233 | with no decoding configured the result is the capture itself |
| Plugin.FailedUnescapeKeepsRaw | core/plugin.go:223-228 | a failing URL decode keeps the raw capture |
| Plugin.PipeDecodingExample | core/plugin.go:231-233 | "a \| b \| c" decodes to "a\nb\nc" |
| Plugin.PipeDecodingReversible | core/plugin.go:231-233 | for a header value (no line break), writing each line break back as " \| " restores the capture: pipe decoding loses nothing |
| Plugin.ExtractAsWrittenPanicsWithoutMatch | core/plugin.go:215-220 | as written, a header the pattern does not match indexes an empty match list |
| Plugin.ExtractAsWrittenRejectsTwoGroups | core/plugin.go:216-218 | a match with two captures is refused with the same error by the code as written and by the corrected version |
| Plugin.ExtractAgreesOnOneGroup | core/plugin.go:207-237 | wherever the code as written does not panic (no header, or at least two match entries) the corrected and as-written versions agree |
| Plugin.PluginEngine.Execute | core/plugin.go:119-156 | rejected iff incompatible, with nothing built or sent and the context unchanged; with no payload nothing is sent and the context is unchanged; otherwise `Payloads[0]` is built, the request carries that body, and the outcome follows transport and extraction in that order |
| Plugin.RenderPartsPrefixError | core/plugin.go:185-190 | once a part fails, rendering stops with that error |
| Crawler.GetDomainFromURL | core/crawler.go:239-249 | fails iff re-parsing fails; otherwise the hostname with exactly one leading "www." removed, or unchanged without one |
| Crawler.DomainStripsOneWww | core/crawler.go:245-248 | "www.www.example.com" becomes "www.example.com" |
| Crawler.Crawler.constructor | core/crawler.go:40-48 | three empty maps and the `Detect` specification as detector; the crawler invariant holds |
| Crawler.Crawler.MarkVisited | core/crawler.go:218-237 | true iff the (domain, URL) pair was absent; afterwards it is present; exactly that pair is added under that domain; a failed domain changes nothing |
| Crawler.PairsAdd | core/crawler.go:226-234 | inserting a URL under a domain adds exactly its pair |
| Crawler.MarkVisitedTwice | core/crawler.go:218-237 | an immediate second call with the same URL returns false |
| Crawler.Crawler.HostDepthExceeded | core/crawler.go:143-156 | false for a host without an entry; otherwise true iff its count is at least MaxDepth |
| Crawler.Crawler.UpdateDepth | core/crawler.go:132-141 | the host's count becomes its old value (absent as 0) plus one; nothing else changes |
| Crawler.Crawler.RoomForOneMore | core/crawler.go:85-87 | a host that passes the check can take one more page within `max(MaxDepth, 1)` |
| Crawler.Crawler.Skip | core/crawler.go:98-116 | with a non-nil, non-empty blacklist, drops a link whose domain fails or is listed; a nil or empty list drops nothing |
| Crawler.NilBlacklistKeepsAll | core/crawler.go:98 | a nil blacklist keeps every link |
| Crawler.DefaultBlacklistDropsGoogle | core/config.go:29 | with the default blacklist a link to www.google.com is dropped |
| Crawler.Crawler.CollectAttrs | core/crawler.go:199-206 | collects `AttrHrefs` of the attributes in order, after what was already collected |
| Crawler.Crawler.Walk | core/crawler.go:194-213 | collects `Hrefs` of the tree in document order, after what was already collected |
| Crawler.HrefsExactly | core/crawler.go:196-211 | a URL is collected iff some href on an element node parses to it and it has a scheme and a host |
| Crawler.ChildHrefsExactly | core/crawler.go:208-210 | the same for the links below a node's children |
| Crawler.AttrHrefsExactly | core/crawler.go:199-206 | the same for one element's attributes |
| Crawler.Crawler.FetchLinks | core/crawler.go:158-216 | the host's detection (`detect` of the response, which `Valid` holds equal to `DetectSpec`) is computed and cached only if absent, and never overwritten; the cached value is emitted; only a parsed page yields links and counts toward the budget |
| Crawler.Crawler.AdmitOne | core/crawler.go:97-122 | a link is kept iff it survives the blacklist, has a domain and its key was not seen; exactly its key is added to the seen pairs when kept, none otherwise |
| Crawler.Crawler.Admit | core/crawler.go:96-128 | a link is queued only if it survives the blacklist and markVisited reports it new; queued keys are distinct and new; every surviving link is seen afterwards |
| Crawler.Crawler.Visit | core/crawler.go:91-129 | a host within budget: a failed fetch changes nothing and emits nothing; a fetched page emits the host's cached detection, caching `detect` of the page (that is, `DetectSpec`) when the host was absent; a parsed page adds one to the host's count, queues only unseen, non-blacklisted hrefs with distinct keys, and leaves every surviving href seen |
| Crawler.Crawler.Handle | core/crawler.go:82-130 | an over-budget host is neither fetched nor expanded and nothing changes; otherwise as `Visit`: the emission, the new cache entry, the new host count and the queued links; the crawler invariant (domains, budget) is kept and no cache entry is replaced |
| Crawler.Crawl | core/crawler.go:50-80 | over a worklist: the invariant holds throughout, no key is dispatched twice, no dispatched link is blacklisted; each emission is paired with its target's hostname and equals that host's cached detection, so all emissions for one host are equal |
| Crawler.KeysAppend | core/crawler.go:118-127 | appending links with new keys keeps all keys distinct |

## Left out

- Concurrency. The worker goroutines, the queue channel and the `sync.WaitGroup` in `Crawl` are replaced by one sequential worklist. Two consequences:
  - races on the unsynchronised maps are not modelled;
  - a full queue that blocks a worker is not modelled.
- Crawler.Crawl: bounded by a `fuel` count of handled targets. Without a bound the model could follow an unbounded supply of new links; the Go loop ends when the wait group drains.
- Crawler.Crawl: seeds are queued without being marked visited, as in the source. The dispatch invariant therefore covers queued links, not seeds.
- All HTTP I/O. It is abstracted as follows:
  - `SendRequest`'s client call is the `transport` parameter of `Execute`;
  - the fetch in `fetchLinks` is a `Fetch` value;
  - `http.NewRequest` failures are folded into those.
- Plugin.PluginEngine.Execute: an empty `Payloads` list makes the source panic on `Payloads[0]`; the model ends with the outcome `NoPayload` instead.
- Plugin.PluginEngine.Execute: after a failed send, the source dereferences a nil response; the model ends with `TransportFailed`.
- `SendRequest` calls `req.Header.Set` before checking the `NewRequest` error, so an invalid method or URL together with configured headers dereferences a nil request. This path is not modelled.
- The User-Agent header set in `fetchLinks`, header name canonicalisation, the client timeout, and the proxy and TLS transport setup in `NewPluginEngine` are not modelled.
- Plugin.MultipartRoundTrip: the round trip is proved only for `Readable` parts. The source writes names and contents without escaping, so a name holding `"` or a content holding a carriage return does not read back unambiguously.
- Crawler.Crawl: the budget counts parsed pages only (`updateDepth` runs after a successful parse). A host whose pages fail to fetch or parse is never counted, so it can be requested any number of times; the model proves the bound on counted pages, not on requests.
- `regexp.MustCompile` panics on a malformed `extract_regex` (core/plugin.go:214). The model takes `findSubmatch` as total, so that panic is not modelled.
- Reading the plugin file and YAML decoding. The engine is built from an already parsed `PluginConfig`.
- Detection.Detect: the body and the parse input are treated as separate inputs. In the source, `Detect` reads up to 100000 bytes with one `Read`, and `html.Parse` then reads the same body. The model takes `Response.body` as what that read returned and the parsed document as a separate input, so it does not capture that the parser sees only the unread rest.
- Case folding is ASCII only; Go's `ToLower` and `EqualFold` also fold other Unicode letters.
- Strings are character sequences rather than bytes.
- `PrintResults` and all `fmt` output.
- `cmd/root.go`, `main.go` and the defaults constructor in `core/config.go` are not part of this model, apart from the default blacklist, which one lemma uses.
- Detection.AddUnique: the source updates the caller's slice through a pointer; the model passes the list in and returns the new one.
- Detection.DetectFromHeaders: the Go `switch` on `result.Server` is modelled by `ServerTechnology`; the commented-out X-Powered-By rule has no behaviour.

## Findings

| source | as written | input that shows it | evidently intended | confidence | as-written member | corrected member |
|---|---|---|---|---|---|---|
| core/plugin.go:216-220 | `if len(matches) > 2` errors, then `matches[1]` is read | a present header that the pattern does not match: `FindStringSubmatch` returns nil, and `matches[1]` is out of range (a panic) | `if len(matches) != 2` errors, so exactly one capture is accepted and `matches[1]` is read only when it exists | high (not executed) | Plugin.ExtractAsWrittenPanicsWithoutMatch | Plugin.ExtractResult |
