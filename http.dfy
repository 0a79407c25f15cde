/** The two HTTP rules the downloader applies to replies: the status check
    of raise_for_status, and the decision of the direct MP3 attempt. */
module Http {
  import opened Common

  /** A reply: status code, body bytes and the client's decoding of the body
      as text; or no reply at all (the client raised a connection error). */
  datatype Response = Reply(status: int, content: seq<byte>, text: string) | NoReply

  predicate IsErrorStatus(status: int)
  {
    400 <= status < 600
  }

  predicate Succeeded(resp: Response)
  {
    resp.Reply? && !IsErrorStatus(resp.status)
  }

  /** The exception a GET of url raises, if any: a connection failure, or
      raise_for_status on a 4xx or 5xx reply. */
  function RaiseForStatus(url: string, resp: Response): (e: Option<Error>)
    ensures e.None? <==> Succeeded(resp)
    ensures e.Some? ==> e.value.ConnectionFailed? || e.value.HttpStatus?
    ensures resp.NoReply? ==> e == Some(ConnectionFailed(url))
    ensures resp.Reply? && IsErrorStatus(resp.status) ==> e == Some(HttpStatus(url, resp.status))
  {
    match resp
    case NoReply => Some(ConnectionFailed(url))
    case Reply(status, _, _) => if IsErrorStatus(status) then Some(HttpStatus(url, status)) else None
  }

  /** The three ways the direct MP3 download can end. */
  datatype DirectOutcome = Saved | NotAvailable | Raised(error: Error)

  /** The direct download of the advertised audio file: 403 and 404 mean the
      song is only streamed with DRM, any other failure raises, and a reply
      that passes the status check is saved. */
  function TryDownloadMp3(url: string, resp: Response): (d: DirectOutcome)
    ensures d == NotAvailable <==> resp.Reply? && (resp.status == 403 || resp.status == 404)
    ensures d == Saved <==> Succeeded(resp)
  {
    match resp
    case NoReply => Raised(ConnectionFailed(url))
    case Reply(status, _, _) =>
      if status == 403 || status == 404 then NotAvailable
      else if IsErrorStatus(status) then Raised(HttpStatus(url, status))
      else Saved
  }
}
