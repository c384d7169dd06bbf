/**
 * The `/api/streams/stop` route: after the same bearer-token check as the
 * start route, mark the stream offline in the global feed. Its own copy of
 * `streamFeedsRequest` authenticates with the API key where the start route
 * uses the secret; both are inputs here and are kept as written.
 */
module StopRoute {
  import opened Wrappers
  import opened JsStrings
  import opened StreamsRoute

  const StopFailedError := "Failed to stop stream"

  datatype UpdateExtra = UpdateExtra(isLive: bool)

  /** The update sent to the feed: the stream's key and one extra field. */
  datatype UpdateData = UpdateData(foreignId: string, extra: UpdateExtra)

  function MarkOffline(roomId: string): (u: UpdateData)
    ensures u.foreignId == StreamKey(roomId) && !u.extra.isLive
  {
    UpdateData(StreamKey(roomId), UpdateExtra(false))
  }

  /** The feed path of one stream. */
  function StopEndpoint(roomId: string): (e: string)
    ensures e == GlobalFeedEndpoint + roomId + "/"
  {
    "/streams/global/" + roomId + "/"
  }

  /** The parsed request body; `roomId` may be missing, and is then interpolated as "undefined". */
  datatype StopBody = StopBody(roomId: Option<string>)

  /**
   * `POST`: verify the token, read `roomId` from the body (None when the body
   * is not JSON), send the update; every failure is the same 500.
   */
  function Post(authHeader: Option<string>, body: Option<StopBody>, jwtVerify: string -> Result<Claims, string>,
                apiKey: string, feedsOk: bool): (r: Handled<UpdateData>)
    ensures r.response == Response(200, OkBody) || r.response == Response(500, ErrorBody(StopFailedError))
    ensures BearerToken(authHeader).Failure? ==> r.request.None? && r.response.status == 500
    ensures r.request.Some? <==> VerifyToken(authHeader, jwtVerify).Success? && body.Some?
    ensures r.request.Some? ==> var room := Interpolate(body.value.roomId);
      r.request.value == FeedsCall(StopEndpoint(room), "PUT", apiKey, Some(MarkOffline(room)))
    ensures r.response.status == 200 <==> r.request.Some? && feedsOk
  {
    var failed := Response(500, ErrorBody(StopFailedError));
    match VerifyToken(authHeader, jwtVerify)
    case Failure(_) => Handled(failed, None)
    case Success(_) =>
      match body
      case None => Handled(failed, None)
      case Some(b) =>
        var room := Interpolate(b.roomId);
        var call := FeedsCall(StopEndpoint(room), "PUT", apiKey, Some(MarkOffline(room)));
        Handled(if feedsOk then Response(200, OkBody) else failed, Some(call))
  }

  /** Stopping a room updates the very activity that starting it created: the same key, now not live. */
  lemma StopTargetsStartedStream(sub: string, req: StartRequest, now: string, encode: string -> string)
    ensures MarkOffline(req.roomId).foreignId == ActivityData(sub, req, now, encode).foreignId
    ensures ActivityData(sub, req, now, encode).extra.isLive && !MarkOffline(req.roomId).extra.isLive
  {
  }
}
