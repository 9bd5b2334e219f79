/** The extractor: one authenticated GET of the recently-played endpoint for
    the last twelve hours, fifty plays at most. */
module Extractor {
  import opened Wrappers
  import opened Errors
  import opened Records
  import Auth

  const RecentlyPlayedUrl := "https://api.spotify.com/v1/me/player/recently-played"
  /** The lookback window, twelve hours, in milliseconds. */
  const LookbackMs: nat := 12 * 60 * 60 * 1000
  /** The page size; the endpoint allows no more. */
  const PageLimit := "50"

  datatype RecentRequest = RecentRequest(url: string, authorization: string, limit: string, after: int)

  /** The `items` member of the endpoint's JSON reply. */
  datatype ItemsField = Absent | Null | Items(items: seq<PlayEvent>)

  /** The endpoint's JSON reply, which the job hands on as it is. */
  datatype Extracted = Extracted(items: ItemsField)

  /** The `after` bound, in milliseconds since the epoch, for a clock reading
      `nowMs`. */
  function AfterBound(nowMs: int): (after: int)
    ensures after < nowMs
  {
    nowMs - LookbackMs
  }

  /** The endpoint returns the plays strictly after its `after` bound. */
  predicate Admitted(playedMs: int, after: int) {
    playedMs > after
  }

  /** A play less than twelve hours before the clock reading `nowMs`. */
  predicate Recent(playedMs: int, nowMs: int) {
    nowMs - playedMs < LookbackMs
  }

  /** The GET the extractor issues with access token `token` at time `nowMs`. */
  function RecentRequestFor(token: string, nowMs: int): (r: RecentRequest)
    ensures r.url == RecentlyPlayedUrl && r.limit == "50"
    ensures Auth.BearerToken(r.authorization) == Some(token)
    ensures forall t :: Admitted(t, r.after) <==> Recent(t, nowMs)
  {
    Auth.BearerTokenRoundTrip(token);
    RecentRequest(RecentlyPlayedUrl, Auth.BearerAuthorization(token), PageLimit, AfterBound(nowMs))
  }

  /** The extractor counts the reply's items before returning it, so a reply
      without an `items` list aborts the run here. */
  function CheckExtracted(reply: Extracted): (r: Result<Extracted, Fatal>)
    ensures r.Success? <==> reply.items.Items?
    ensures r.Success? ==> r.value == reply
    ensures reply.items.Absent? ==> r == Failure(KeyError("items"))
    ensures reply.items.Null? ==> r.Failure? && r.error.TypeError?
  {
    match reply.items
    case Absent => Failure(KeyError("items"))
    case Null => Failure(TypeError("object of type 'NoneType' has no len()"))
    case Items(_) => Success(reply)
  }
}
