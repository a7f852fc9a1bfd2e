/**
 * The crawl frontier: which URLs have been seen (per domain), how many pages
 * of each host have been crawled, and the one detection kept per host; the
 * filter that decides which discovered links are queued; and the walk that
 * collects absolute links from a parsed page.
 *
 * `url.Parse` is the crawler's `parse` function; a fetch is given as its
 * outcome (a response and the parsed document, or a failure).
 */
module Crawler {
  import opened Util
  import opened Text
  import opened Web
  import opened Detection

  datatype CrawlerOptions = CrawlerOptions(
    maxDepth: int,
    userAgent: string,
    blacklistDomains: Option<seq<string>>,  // None is Go's nil slice
    queueSize: int,
    workers: int)

  /** The outcome of fetching a page: a transport failure, or the response with the result of parsing its markup. */
  datatype Fetch = FetchFailed(error: string) | Fetched(resp: Response, doc: Result<Node>)

  /** `url.Parse`. */
  type UrlParser = string -> Result<Url>

  // ---------------------------------------------------------------------
  // Domains
  // ---------------------------------------------------------------------

  /** GetDomainFromURL: the hostname of the re-parsed URL, without one leading "www.". */
  function GetDomainFromURL(parse: UrlParser, u: Url): (r: Result<string>)
    ensures r.Err? <==> parse(u.text).Err?
    ensures r.Ok? && HasPrefix(parse(u.text).value.hostname, "www.") ==> "www." + r.value == parse(u.text).value.hostname
    ensures r.Ok? && !HasPrefix(parse(u.text).value.hostname, "www.") ==> r.value == parse(u.text).value.hostname
  {
    match parse(u.text)
    case Err(e) => Err("error parsing  URL: " + e)
    case Ok(parsed) => Ok(TrimPrefix(parsed.hostname, "www."))
  }

  /** Only one "www." is removed. */
  lemma DomainStripsOneWww(parse: UrlParser, u: Url)
    requires parse(u.text).Ok? && parse(u.text).value.hostname == "www.www.example.com"
    ensures GetDomainFromURL(parse, u) == Ok("www.example.com")
  {
    assert HasPrefix("www.www.example.com", "www.");
    assert "www.www.example.com"[4..] == "www.example.com";
  }

  /** The key markVisited files a URL under: its domain and its text. */
  function Key(parse: UrlParser, u: Url): (string, string)
    requires GetDomainFromURL(parse, u).Ok?
  {
    (GetDomainFromURL(parse, u).value, u.text)
  }

  /** The (domain, URL) pairs recorded in a visited map. */
  function Pairs(visited: map<string, set<string>>): set<(string, string)>
  {
    set d, k | d in visited && k in visited[d] :: (d, k)
  }

  /** Recording one more URL under a domain adds exactly its pair. */
  lemma PairsAdd(visited: map<string, set<string>>, d: string, k: string)
    ensures Pairs(visited[d := (if d in visited then visited[d] else {}) + {k}]) == Pairs(visited) + {(d, k)}
  {
    var after := visited[d := (if d in visited then visited[d] else {}) + {k}];
    forall p | p in Pairs(after) ensures p in Pairs(visited) + {(d, k)} {
      var (d', k') := p;
      assert d' in after && k' in after[d'];
    }
    forall p | p in Pairs(visited) + {(d, k)} ensures p in Pairs(after) {
      var (d', k') := p;
      if p != (d, k) {
        assert d' in visited && k' in visited[d'];
        assert k' in after[d'];
      } else {
        assert k in after[d];
      }
    }
  }

  /** The keys of a list of links whose domains are known. */
  function KeySet(parse: UrlParser, links: seq<Url>): set<(string, string)>
  {
    set l | l in links && GetDomainFromURL(parse, l).Ok? :: Key(parse, l)
  }

  /** Every link has a domain, and no two links share a key. */
  predicate DistinctKeys(parse: UrlParser, links: seq<Url>)
  {
    && (forall i :: 0 <= i < |links| ==> GetDomainFromURL(parse, links[i]).Ok?)
    && (forall i, j :: 0 <= i < j < |links| ==> Key(parse, links[i]) != Key(parse, links[j]))
  }

  /** The blacklist filter of handle: with a non-nil, non-empty list, drop a link whose domain is unknown or listed. */
  predicate Dropped(opts: CrawlerOptions, parse: UrlParser, link: Url)
  {
    && opts.blacklistDomains.Some?
    && |opts.blacklistDomains.value| > 0
    && (GetDomainFromURL(parse, link).Err? || GetDomainFromURL(parse, link).value in opts.blacklistDomains.value)
  }

  /** A nil blacklist keeps every link, even one whose domain cannot be found. */
  lemma NilBlacklistKeepsAll(opts: CrawlerOptions, parse: UrlParser, link: Url)
    requires opts.blacklistDomains.None?
    ensures !Dropped(opts, parse, link)
  {
  }

  /** With the default blacklist, a link to www.google.com is dropped. */
  lemma DefaultBlacklistDropsGoogle(opts: CrawlerOptions, parse: UrlParser, link: Url)
    requires opts.blacklistDomains == Some(["google.com", "facebook.com", "twitter.com", "linkedin.com", "github.com",
                                            "instagram.com", "youtube.com", "wikipedia.org", "amazon.com", "netflix.com",
                                            "googletagmanager.com"])
    requires parse(link.text).Ok? && parse(link.text).value.hostname == "www.google.com"
    ensures Dropped(opts, parse, link)
  {
    assert HasPrefix("www.google.com", "www.");
    assert "www.google.com"[4..] == "google.com";
  }

  // ---------------------------------------------------------------------
  // Links in a parsed page
  // ---------------------------------------------------------------------

  /** An absolute URL: both a scheme and a host. */
  predicate Absolute(u: Url)
  {
    u.scheme != "" && u.host != ""
  }

  /** The absolute URLs that the `href` attributes among `attrs` parse to, in order. */
  function AttrHrefs(parse: UrlParser, attrs: seq<Attr>): seq<Url>
  {
    if attrs == [] then []
    else
      var last := attrs[|attrs| - 1];
      var resolved := parse(last.val);
      AttrHrefs(parse, attrs[..|attrs| - 1])
      + if last.key == "href" && resolved.Ok? && Absolute(resolved.value) then [resolved.value] else []
  }

  /** The links of a node's own attributes: only element nodes have them. */
  function OwnHrefs(parse: UrlParser, n: Node): seq<Url>
  {
    if n.kind == ElementNode then AttrHrefs(parse, n.attrs) else []
  }

  /** The links the walk collects from `n` and everything below it, in document order. */
  function Hrefs(parse: UrlParser, n: Node): seq<Url>
    decreases n, 1
  {
    OwnHrefs(parse, n) + ChildHrefs(parse, n, |n.children|)
  }

  /** The links below the first `j` children of `n`. */
  function ChildHrefs(parse: UrlParser, n: Node, j: nat): seq<Url>
    requires j <= |n.children|
    decreases n, 0, j
  {
    if j == 0 then [] else ChildHrefs(parse, n, j - 1) + Hrefs(parse, n.children[j - 1])
  }

  /** Every `href` value on an element node of the tree. */
  function HrefValues(n: Node): set<string>
    decreases n, 1
  {
    (if n.kind == ElementNode then set a | a in n.attrs && a.key == "href" :: a.val else {})
    + ChildHrefValues(n, |n.children|)
  }

  /** The `href` values below the first `j` children of `n`. */
  function ChildHrefValues(n: Node, j: nat): set<string>
    requires j <= |n.children|
    decreases n, 0, j
  {
    if j == 0 then {} else ChildHrefValues(n, j - 1) + HrefValues(n.children[j - 1])
  }

  /** A URL is among the attribute links iff some `href` among the attributes parses to it and it is absolute. */
  lemma {:induction false} AttrHrefsExactly(parse: UrlParser, attrs: seq<Attr>, u: Url)
    ensures u in AttrHrefs(parse, attrs) <==>
            Absolute(u) && exists a :: a in attrs && a.key == "href" && parse(a.val) == Ok(u)
  {
    if attrs != [] {
      var init := attrs[..|attrs| - 1];
      var last := attrs[|attrs| - 1];
      AttrHrefsExactly(parse, init, u);
      assert attrs == init + [last];
      if u in AttrHrefs(parse, attrs) && u !in AttrHrefs(parse, init) {
        assert last in attrs;
      }
      if Absolute(u) && (exists a :: a in attrs && a.key == "href" && parse(a.val) == Ok(u)) {
        var a :| a in attrs && a.key == "href" && parse(a.val) == Ok(u);
        if a !in init {
          assert a == last;
        }
      }
    }
  }

  /**
   * The walk collects exactly the absolute URLs that some `href` on an element
   * node of the tree parses to.
   */
  lemma {:induction false} HrefsExactly(parse: UrlParser, n: Node, u: Url)
    ensures u in Hrefs(parse, n) <==> Absolute(u) && exists v :: v in HrefValues(n) && parse(v) == Ok(u)
    decreases n, 1
  {
    ChildHrefsExactly(parse, n, |n.children|, u);
    if n.kind == ElementNode {
      AttrHrefsExactly(parse, n.attrs, u);
      if Absolute(u) && exists a :: a in n.attrs && a.key == "href" && parse(a.val) == Ok(u) {
        var a :| a in n.attrs && a.key == "href" && parse(a.val) == Ok(u);
        assert a.val in HrefValues(n);
      }
    }
  }

  /** The same, for the first `j` children. */
  lemma {:induction false} ChildHrefsExactly(parse: UrlParser, n: Node, j: nat, u: Url)
    requires j <= |n.children|
    ensures u in ChildHrefs(parse, n, j) <==> Absolute(u) && exists v :: v in ChildHrefValues(n, j) && parse(v) == Ok(u)
    decreases n, 0, j
  {
    if j > 0 {
      ChildHrefsExactly(parse, n, j - 1, u);
      HrefsExactly(parse, n.children[j - 1], u);
    }
  }

  /** Every visited URL is filed under its own domain, and no domain set is empty. */
  predicate Filed(parse: UrlParser, visited: map<string, set<string>>)
  {
    && (forall d :: d in visited ==> visited[d] != {})
    && (forall d, k :: d in visited && k in visited[d] ==>
          parse(k).Ok? && TrimPrefix(parse(k).value.hostname, "www.") == d)
  }

  /** Every counted host has between one and `budget` pages. */
  predicate WithinBudget(hostDepth: map<string, int>, budget: int)
  {
    forall h :: h in hostDepth ==> 1 <= hostDepth[h] <= budget
  }

  // ---------------------------------------------------------------------
  // The crawler's state
  // ---------------------------------------------------------------------

  class Crawler {
    const opts: CrawlerOptions
    const parse: UrlParser
    const detect: Response -> DetectionResult
    var visited: map<string, set<string>>
    var hostDepth: map<string, int>
    var hostFramework: map<string, DetectionResult>

    /** NewCrawler: the options, the detector and three empty maps. */
    constructor (opts: CrawlerOptions, parse: UrlParser)
      ensures this.opts == opts && this.parse == parse
      ensures visited == map[] && hostDepth == map[] && hostFramework == map[]
      ensures Valid()
    {
      this.opts := opts;
      this.parse := parse;
      this.detect := DetectSpec;
      visited := map[];
      hostDepth := map[];
      hostFramework := map[];
    }

    /** The most pages of one host that are ever crawled. */
    function Budget(): int
      reads this
    {
      if opts.maxDepth < 1 then 1 else opts.maxDepth
    }

    /**
     * What the crawler's maps keep: every visited URL is filed under its own
     * domain, no domain set is empty, and no host has been crawled more than
     * its budget allows.
     */
    ghost predicate Valid()
      reads this
    {
      Filed(parse, visited) && WithinBudget(hostDepth, Budget()) && DetectsBySpec()
    }

    /**
     * The detector the crawler runs is the one `Detect` computes. The
     * trigger keeps the rule pipeline folded until a `DetectSpec` term is
     * on hand, so contracts about the cache can speak of `detect`.
     */
    ghost predicate DetectsBySpec()
      reads this
    {
      forall resp {:trigger DetectSpec(resp)} :: detect(resp) == DetectSpec(resp)
    }

    /** The (domain, URL) pairs seen so far. */
    function Seen(): set<(string, string)>
      reads this
    {
      Pairs(visited)
    }

    /** markVisited: records the URL under its domain; true iff it was not there before. */
    method MarkVisited(u: Url) returns (added: bool)
      modifies this
      ensures GetDomainFromURL(parse, u).Err? ==> !added && visited == old(visited)
      ensures GetDomainFromURL(parse, u).Ok? ==>
                var d := GetDomainFromURL(parse, u).value;
                && (added <==> Key(parse, u) !in old(Seen()))
                && visited == old(visited)[d := (if d in old(visited) then old(visited)[d] else {}) + {u.text}]
                && Seen() == old(Seen()) + {Key(parse, u)}
      ensures hostDepth == old(hostDepth) && hostFramework == old(hostFramework)
      ensures old(Valid()) ==> Valid()
    {
      var key := u.text;
      var domain := GetDomainFromURL(parse, u);
      if domain.Err? {
        return false;
      }
      var d := domain.value;
      if d !in visited {
        visited := visited[d := {}];
      }
      PairsAdd(old(visited), d, key);
      if key in visited[d] {
        assert old(visited)[d] + {key} == old(visited)[d];
        return false;
      }
      visited := visited[d := visited[d] + {key}];
      return true;
    }

    /** hostDepthExceeded: a host without an entry is never over budget. */
    function HostDepthExceeded(link: Url): (exceeded: bool)
      reads this
      ensures link.hostname !in hostDepth ==> !exceeded
      ensures link.hostname in hostDepth ==> (exceeded <==> hostDepth[link.hostname] >= opts.maxDepth)
    {
      var hostname := link.hostname;
      if hostname !in hostDepth then false
      else if hostDepth[hostname] < opts.maxDepth then false
      else true
    }

    /** A host that is not over budget can be crawled once more within its budget. */
    lemma RoomForOneMore(link: Url)
      requires Valid() && !HostDepthExceeded(link)
      ensures (if link.hostname in hostDepth then hostDepth[link.hostname] else 0) + 1 <= Budget()
    {
    }

    /** updateDepth: one more page of this host; an absent host counts from 0. */
    method UpdateDepth(link: Url)
      modifies this
      ensures hostDepth == old(hostDepth)[link.hostname := (if link.hostname in old(hostDepth) then old(hostDepth)[link.hostname] else 0) + 1]
      ensures visited == old(visited) && hostFramework == old(hostFramework)
    {
      var hostname := link.hostname;
      var total := if hostname in hostDepth then hostDepth[hostname] else 0;
      if hostname !in hostDepth {
        hostDepth := hostDepth[hostname := 0];
      }
      hostDepth := hostDepth[hostname := total + 1];
    }

    /** The blacklist loop of handle: every entry is compared with the link's domain. */
    method Skip(link: Url) returns (skip: bool)
      ensures skip <==> Dropped(opts, parse, link)
    {
      skip := false;
      if opts.blacklistDomains.None? {
        return;
      }
      var blacklist := opts.blacklistDomains.value;
      for i := 0 to |blacklist|
        invariant !skip
        invariant i > 0 ==> GetDomainFromURL(parse, link).Ok? && GetDomainFromURL(parse, link).value !in blacklist[..i]
      {
        var domain := GetDomainFromURL(parse, link);
        if domain.Err? {
          skip := true;
          break;
        }
        if domain.value == blacklist[i] {
          skip := true;
          break;
        }
        assert blacklist[..i + 1] == blacklist[..i] + [blacklist[i]];
      }
      if !skip && |blacklist| > 0 {
        assert blacklist[..|blacklist|] == blacklist;
      }
    }

    /** The attribute loop of the walk closure: each `href` that parses to an absolute URL is collected. */
    method CollectAttrs(attrs: seq<Attr>, collected: seq<Url>) returns (out: seq<Url>)
      ensures out == collected + AttrHrefs(parse, attrs)
    {
      out := collected;
      for i := 0 to |attrs|
        invariant out == collected + AttrHrefs(parse, attrs[..i])
      {
        assert attrs[..i + 1][..i] == attrs[..i];
        var attr := attrs[i];
        if attr.key == "href" {
          var resolved := parse(attr.val);
          if resolved.Ok? && resolved.value.scheme != "" && resolved.value.host != "" {
            out := out + [resolved.value];
          }
        }
      }
      assert attrs[..|attrs|] == attrs;
    }

    /** The walk closure of fetchLinks: the node's own href links, then each child's, depth first. */
    method Walk(n: Node, collected: seq<Url>) returns (out: seq<Url>)
      ensures out == collected + Hrefs(parse, n)
      decreases n, 1
    {
      out := collected;
      if n.kind == ElementNode {
        out := CollectAttrs(n.attrs, collected);
      }
      ghost var own := out;
      for j := 0 to |n.children|
        invariant out == own + ChildHrefs(parse, n, j)
      {
        out := Walk(n.children[j], out);
      }
    }

    /**
     * fetchLinks on a fetched page: the host's detection is computed and
     * cached only when absent, the cached value is emitted, and only a page
     * that parses has its links collected and counts towards the budget.
     */
    method FetchLinks(target: Url, page: Fetch) returns (links: Result<seq<Url>>, emitted: Option<DetectionResult>)
      requires DetectsBySpec()
      modifies this
      ensures page.FetchFailed? ==>
                links.Err? && emitted == None
                && visited == old(visited) && hostDepth == old(hostDepth) && hostFramework == old(hostFramework)
      ensures page.Fetched? ==>
                && hostFramework == (if target.hostname in old(hostFramework) then old(hostFramework)
                                     else old(hostFramework)[target.hostname := detect(page.resp)])
                && emitted == Some(hostFramework[target.hostname])
      ensures page.Fetched? && page.doc.Err? ==> links.Err? && hostDepth == old(hostDepth)
      ensures page.Fetched? && page.doc.Ok? ==>
                && links == Ok(Hrefs(parse, page.doc.value))
                && hostDepth == old(hostDepth)[target.hostname := (if target.hostname in old(hostDepth) then old(hostDepth)[target.hostname] else 0) + 1]
      ensures visited == old(visited)
    {
      if page.FetchFailed? {
        return Err(page.error), None;
      }
      var resp := page.resp;
      var hostname := target.hostname;
      if hostname !in hostFramework {
        var detectionResult := Detect(resp);
        hostFramework := hostFramework[hostname := detectionResult.Snapshot()];
      }
      emitted := Some(hostFramework[hostname]);

      if page.doc.Err? {
        return Err(page.doc.error), emitted;
      }
      var collected := Walk(page.doc.value, []);
      assert collected == Hrefs(parse, page.doc.value);
      UpdateDepth(target);
      return Ok(collected), emitted;
    }

    /** One link of handle's loop: kept iff it survives the blacklist and markVisited reports it new. */
    method AdmitOne(link: Url) returns (added: bool)
      requires Valid()
      modifies this
      ensures Valid()
      ensures hostDepth == old(hostDepth) && hostFramework == old(hostFramework)
      ensures added <==> !Dropped(opts, parse, link) && GetDomainFromURL(parse, link).Ok? && Key(parse, link) !in old(Seen())
      ensures Seen() == if added then old(Seen()) + {Key(parse, link)} else old(Seen())
      ensures !Dropped(opts, parse, link) && GetDomainFromURL(parse, link).Ok? ==> Key(parse, link) in Seen()
    {
      var skip := Skip(link);
      if skip {
        return false;
      }
      added := MarkVisited(link);
    }

    /**
     * The links loop of handle: a link survives the blacklist, then is queued
     * (with one more pending task) only if markVisited reports it new.
     */
    method Admit(links: seq<Url>) returns (enqueued: seq<Url>)
      requires Valid()
      modifies this
      ensures Valid()
      ensures hostDepth == old(hostDepth) && hostFramework == old(hostFramework)
      ensures DistinctKeys(parse, enqueued)
      ensures forall l :: l in enqueued ==> l in links && !Dropped(opts, parse, l) && Key(parse, l) !in old(Seen())
      ensures Seen() == old(Seen()) + KeySet(parse, enqueued)
      ensures forall l :: l in links && !Dropped(opts, parse, l) && GetDomainFromURL(parse, l).Ok? ==> Key(parse, l) in Seen()
    {
      enqueued := [];
      for i := 0 to |links|
        invariant Valid()
        invariant hostDepth == old(hostDepth) && hostFramework == old(hostFramework)
        invariant DistinctKeys(parse, enqueued)
        invariant forall l :: l in enqueued ==> l in links[..i] && !Dropped(opts, parse, l) && Key(parse, l) !in old(Seen())
        invariant Seen() == old(Seen()) + KeySet(parse, enqueued)
        invariant forall l :: l in links[..i] && !Dropped(opts, parse, l) && GetDomainFromURL(parse, l).Ok? ==> Key(parse, l) in Seen()
      {
        var link := links[i];
        assert links[..i + 1] == links[..i] + [link];
        ghost var seen := Seen();
        var added := AdmitOne(link);
        assert seen <= Seen();
        if added {
          assert Key(parse, link) !in KeySet(parse, enqueued);
          assert KeySet(parse, [link]) == {Key(parse, link)};
          KeysAppend(parse, enqueued, [link]);
          enqueued := enqueued + [link];
        }
      }
      assert links[..|links|] == links;
    }

    /**
     * handle past its budget check: fetch, then queue every link that
     * survives the blacklist and has not been seen.
     */
    method Visit(target: Url, page: Fetch) returns (enqueued: seq<Url>, emitted: Option<DetectionResult>)
      requires Valid() && !HostDepthExceeded(target)
      modifies this
      ensures Valid()
      ensures DistinctKeys(parse, enqueued)
      ensures forall l :: l in enqueued ==> !Dropped(opts, parse, l) && Key(parse, l) !in old(Seen())
      ensures Seen() == old(Seen()) + KeySet(parse, enqueued)
      ensures page.FetchFailed? ==>
                enqueued == [] && emitted == None
                && visited == old(visited) && hostDepth == old(hostDepth) && hostFramework == old(hostFramework)
      ensures page.Fetched? ==>
                && hostFramework == (if target.hostname in old(hostFramework) then old(hostFramework)
                                     else old(hostFramework)[target.hostname := detect(page.resp)])
                && emitted == Some(hostFramework[target.hostname])
      ensures page.Fetched? && page.doc.Err? ==>
                enqueued == [] && visited == old(visited) && hostDepth == old(hostDepth)
      ensures page.Fetched? && page.doc.Ok? ==>
                && hostDepth == old(hostDepth)[target.hostname := (if target.hostname in old(hostDepth) then old(hostDepth)[target.hostname] else 0) + 1]
                && (forall l :: l in enqueued ==> l in Hrefs(parse, page.doc.value))
                && (forall l :: l in Hrefs(parse, page.doc.value) && !Dropped(opts, parse, l) && GetDomainFromURL(parse, l).Ok? ==> Key(parse, l) in Seen())
    {
      RoomForOneMore(target);
      var links;
      links, emitted := FetchLinks(target, page);
      if links.Err? {
        return [], emitted;
      }
      assert page.Fetched? && page.doc.Ok?;
      ghost var fetched := (hostDepth, hostFramework);
      assert Valid();
      enqueued := Admit(links.value);
      assert (hostDepth, hostFramework) == fetched;
    }

    /**
     * handle: a host over budget is skipped and nothing changes; otherwise
     * the page is visited, its detection emitted and its links queued.
     */
    method Handle(target: Url, page: Fetch) returns (enqueued: seq<Url>, emitted: Option<DetectionResult>)
      requires Valid()
      modifies this
      ensures Valid()
      ensures old(HostDepthExceeded(target)) ==>
                enqueued == [] && emitted == None
                && visited == old(visited) && hostDepth == old(hostDepth) && hostFramework == old(hostFramework)
      ensures DistinctKeys(parse, enqueued)
      ensures forall l :: l in enqueued ==> !Dropped(opts, parse, l) && Key(parse, l) !in old(Seen())
      ensures Seen() == old(Seen()) + KeySet(parse, enqueued)
      ensures !old(HostDepthExceeded(target)) && page.FetchFailed? ==>
                enqueued == [] && emitted == None
                && visited == old(visited) && hostDepth == old(hostDepth) && hostFramework == old(hostFramework)
      ensures !old(HostDepthExceeded(target)) && page.Fetched? ==>
                && hostFramework == (if target.hostname in old(hostFramework) then old(hostFramework)
                                     else old(hostFramework)[target.hostname := detect(page.resp)])
                && emitted == Some(hostFramework[target.hostname])
      ensures !old(HostDepthExceeded(target)) && page.Fetched? && page.doc.Err? ==>
                enqueued == [] && visited == old(visited) && hostDepth == old(hostDepth)
      ensures !old(HostDepthExceeded(target)) && page.Fetched? && page.doc.Ok? ==>
                && hostDepth == old(hostDepth)[target.hostname := (if target.hostname in old(hostDepth) then old(hostDepth)[target.hostname] else 0) + 1]
                && (forall l :: l in enqueued ==> l in Hrefs(parse, page.doc.value))
                && (forall l :: l in Hrefs(parse, page.doc.value) && !Dropped(opts, parse, l) && GetDomainFromURL(parse, l).Ok? ==> Key(parse, l) in Seen())
      ensures emitted.Some? ==> target.hostname in hostFramework && emitted.value == hostFramework[target.hostname]
      ensures forall h :: h in old(hostFramework) ==> h in hostFramework && hostFramework[h] == old(hostFramework[h])
    {
      if HostDepthExceeded(target) {
        return [], None;
      }
      enqueued, emitted := Visit(target, page);
    }
  }

  /** The URL of a seed or queued target. */
  type Target = Url

  /**
   * Crawl, one worker at a time: seeds are queued as given, each target taken
   * from the front is handled, and what it queues goes to the back. `pages`
   * is the network; `fuel` bounds the number of targets handled.
   */
  method Crawl(c: Crawler, seeds: seq<Target>, pages: Target -> Fetch, fuel: nat)
    returns (emitted: seq<(string, DetectionResult)>, dispatched: seq<Url>, handled: nat)
    requires c.Valid() && c.visited == map[]
    modifies c
    ensures c.Valid()
    ensures handled <= fuel
    ensures DistinctKeys(c.parse, dispatched)
    ensures forall l :: l in dispatched ==> !Dropped(c.opts, c.parse, l)
    ensures c.Seen() == KeySet(c.parse, dispatched)
    ensures forall i :: 0 <= i < |emitted| ==> emitted[i].0 in c.hostFramework && c.hostFramework[emitted[i].0] == emitted[i].1
    ensures forall i, j :: 0 <= i < |emitted| && 0 <= j < |emitted| && emitted[i].0 == emitted[j].0 ==> emitted[i].1 == emitted[j].1
  {
    var queue := seeds;
    emitted := [];
    dispatched := [];
    handled := 0;
    assert c.Seen() == {};
    while queue != [] && handled < fuel
      invariant c.Valid()
      invariant handled <= fuel
      invariant DistinctKeys(c.parse, dispatched)
      invariant forall l :: l in dispatched ==> !Dropped(c.opts, c.parse, l)
      invariant c.Seen() == KeySet(c.parse, dispatched)
      invariant forall i :: 0 <= i < |emitted| ==> emitted[i].0 in c.hostFramework && c.hostFramework[emitted[i].0] == emitted[i].1
      decreases fuel - handled
    {
      var target := queue[0];
      queue := queue[1..];
      ghost var before := dispatched;
      var enqueued, found := c.Handle(target, pages(target));
      if found.Some? {
        emitted := emitted + [(target.hostname, found.value)];
      }
      queue := queue + enqueued;
      dispatched := dispatched + enqueued;
      KeysAppend(c.parse, before, enqueued);
      handled := handled + 1;
    }
  }

  /** Appending links whose keys are new keeps the keys distinct, and adds their keys. */
  lemma KeysAppend(parse: UrlParser, a: seq<Url>, b: seq<Url>)
    requires DistinctKeys(parse, a) && DistinctKeys(parse, b)
    requires forall l :: l in b ==> Key(parse, l) !in KeySet(parse, a)
    ensures DistinctKeys(parse, a + b)
    ensures KeySet(parse, a + b) == KeySet(parse, a) + KeySet(parse, b)
  {
    var ab := a + b;
    forall i, j | 0 <= i < j < |ab| ensures Key(parse, ab[i]) != Key(parse, ab[j]) {
      if j >= |a| && i < |a| {
        assert ab[j] in b;
        assert ab[i] in a;
      }
    }
  }

  /** Marking the same URL twice: the second call reports it as seen. */
  method MarkVisitedTwice(c: Crawler, u: Url) returns (first: bool, second: bool)
    requires GetDomainFromURL(c.parse, u).Ok?
    modifies c
    ensures second == false
    ensures first <==> Key(c.parse, u) !in old(c.Seen())
  {
    first := c.MarkVisited(u);
    second := c.MarkVisited(u);
  }
}
