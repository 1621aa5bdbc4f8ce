/** A request as the proxy receives it and, before forwarding it, readdresses it. */
module Incoming {
  import opened Wrappers
  import opened Http
  import opened RequestCodec

  class HttpRequest {
    const verb: string
    const path: string
    const query: string
    const headers: Headers
    const cookies: seq<Cookie>
    const tokenJSON: Option<seq<string>>
    var host: string
    var urlHost: string
    var scheme: string

    constructor (verb: string, path: string, query: string, headers: Headers, cookies: seq<Cookie>,
                 tokenJSON: Option<seq<string>>, host: string)
      ensures this.verb == verb && this.path == path && this.query == query && this.headers == headers
      ensures this.cookies == cookies && this.tokenJSON == tokenJSON
      ensures this.host == host && urlHost == "" && scheme == ""
    {
      this.verb, this.path, this.query, this.headers := verb, path, query, headers;
      this.cookies, this.tokenJSON, this.host := cookies, tokenJSON, host;
      urlHost, scheme := "", "";
    }

    /** The request as it would be sent on with this body. */
    function Message(body: Bytes): Message
      reads this
    {
      RequestCodec.Message.Message(verb, scheme, host, path, query, headers, body)
    }

    method Readdress(route: string, scheme: string)
      modifies this
      ensures host == route && urlHost == route && this.scheme == scheme
    {
      this.host, this.urlHost, this.scheme := route, route, scheme;
    }
  }
}
