/** The part of net/http the proxy relies on: a response whose first status wins. */
module Http {
  import opened Wrappers

  newtype Byte = x: int | 0 <= x < 256
  type Bytes = seq<Byte>

  /** A cookie as a request carries it. */
  datatype Cookie = Cookie(name: string, value: string)

  /** A Set-Cookie header; `expired` means its expiry date lies in the past. */
  datatype SetCookie = SetCookie(name: string, value: string, expired: bool)

  /** Where a redirect points: back to the proxy, or to the auth service. */
  datatype Location = Here(url: string) | Auth(returnTo: string)

  /** What the client receives. Headers leave with the status line, so a cookie or a
      location added after it is lost, and a second status is ignored. */
  datatype Response = Response(
    status: Option<int>,
    cookies: seq<SetCookie>,
    location: Option<Location>,
    body: Bytes)
  {
    function WriteHeader(code: int): Response {
      if status.None? then this.(status := Some(code)) else this
    }

    function AddCookie(c: SetCookie): Response {
      if status.None? then this.(cookies := cookies + [c]) else this
    }

    function Redirect(to: Location, code: int): Response {
      if status.None? then this.(status := Some(code), location := Some(to)) else this
    }

    function Write(stuff: Bytes): Response {
      WriteHeader(200).(body := body + stuff)
    }
  }

  const EMPTY := Response(None, [], None, [])

  class ResponseWriter {
    var sent: Response

    constructor ()
      ensures sent == EMPTY
    {
      sent := EMPTY;
    }

    method WriteHeader(code: int)
      modifies this
      ensures sent == old(sent).WriteHeader(code)
    {
      if sent.status.None? {
        sent := sent.(status := Some(code));
      }
    }

    method Write(stuff: Bytes)
      modifies this
      ensures sent == old(sent).Write(stuff)
    {
      WriteHeader(200);
      sent := sent.(body := sent.body + stuff);
    }

    method AddCookie(c: SetCookie)
      modifies this
      ensures sent == old(sent).AddCookie(c)
    {
      if sent.status.None? {
        sent := sent.(cookies := sent.cookies + [c]);
      }
    }

    method Redirect(to: Location, code: int)
      modifies this
      ensures sent == old(sent).Redirect(to, code)
    {
      if sent.status.None? {
        sent := sent.(location := Some(to));
      }
      WriteHeader(code);
    }

    /** HandleError: the status of an internal error. */
    method HandleError()
      modifies this
      ensures sent == old(sent).WriteHeader(500)
    {
      WriteHeader(500);
    }
  }
}
