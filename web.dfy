/**
 * The values the scanner receives from Go's net/url, net/http and
 * golang.org/x/net/html packages, as plain data.
 */
module Web {

  /**
   * A parsed `*url.URL`: its `Scheme`, its `Host` (which may carry a port),
   * `Hostname()` (the host without the port) and `String()`.
   */
  datatype Url = Url(scheme: string, host: string, hostname: string, text: string)

  /** One attribute of a markup element. */
  datatype Attr = Attr(key: string, val: string)

  datatype NodeType = ErrorNode | TextNode | DocumentNode | ElementNode | CommentNode | DoctypeNode | RawNode

  /** A node of the tree `html.Parse` returns; `children` lists FirstChild, then each NextSibling. */
  datatype Node = Node(kind: NodeType, attrs: seq<Attr>, children: seq<Node>)

  /**
   * A fetched response. `header` maps each header name to its values;
   * `body` is what one read of the body returned; `scriptSrcs` are the `src`
   * values the script-tag pattern captures in that body.
   */
  datatype Response = Response(url: Url, statusCode: int, header: map<string, seq<string>>, body: string, scriptSrcs: seq<string>)

  /** An outgoing request: HTTP method (`verb`), target URL, body and the headers set on it. */
  datatype Request = Request(verb: string, url: string, body: string, header: map<string, string>)

  /** `Header.Get`: the first value stored under `key`, or "" when there is none. */
  function HeaderGet(header: map<string, seq<string>>, key: string): string
  {
    if key in header && |header[key]| > 0 then header[key][0] else ""
  }
}
