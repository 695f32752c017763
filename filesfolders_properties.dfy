/**
  Properties of the `filesfolders` decision layer that relate several calls:
  how `checkForError` treats wrapped and bare responses, that its content-type
  test is exact, the endpoint table, and how the operations' settlements
  compare with one another.
 */
module FilesFoldersProperties {
  import opened JsString
  import opened FilesFolders

  // ---------------------------------------------------------------------
  // checkForError
  // ---------------------------------------------------------------------

  /** A response with headers gives the same verdict bare, as `[response]`, or as `[response, body]`. */
  lemma WrappedSameAsBare(response: Response, rest: seq<Value>)
    requires response.headers.Some?
    ensures CheckForError(Arr([Resp(response)] + rest)) == CheckForError(Resp(response))
  {
    assert Unwrap(Arr([Resp(response)] + rest)) == Resp(response);
  }

  /** An array whose first element has no headers is examined as it is, and an array is never a failure page. */
  lemma WrappedHeaderlessIsClean(items: seq<Value>)
    requires |items| > 0 && !HasHeaders(items[0])
    ensures CheckForError(Arr(items)) == None
  {
  }

  /** The content type is compared for equality: `text/html` with a charset parameter is not flagged. */
  lemma ContentTypeIsExact(response: Response)
    requires response.headers.Some? && "content-type" in response.headers.value
    requires response.headers.value["content-type"] != "text/html"
    ensures CheckForError(Resp(response)) == None
    ensures CheckForError(Arr([Resp(response)])) == None
  {
    WrappedSameAsBare(response, []);
  }

  lemma CharsetNotFlagged(page: string)
    ensures CheckForError(Resp(Response(Some(map["content-type" := "text/html; charset=utf-8"]), Some(page)))) == None
  {
    var headers := map["content-type" := "text/html; charset=utf-8"];
    assert |headers["content-type"]| != |"text/html"|;
    ContentTypeIsExact(Response(Some(headers), Some(page)));
  }

  /** Missing headers, a missing content type or a missing body are never flagged. */
  lemma MissingPartsAreClean(headers: map<string, string>, body: Option<string>)
    ensures CheckForError(Resp(Response(None, body))) == None
    ensures "content-type" !in headers ==> CheckForError(Resp(Response(Some(headers), body))) == None
    ensures CheckForError(Resp(Response(Some(headers), None))) == None
  {
  }

  /** A body that holds only a proper prefix of the marker is not flagged, whatever the headers. */
  lemma TruncatedMarkerNotFlagged(headers: map<string, string>, j: nat)
    requires j < |UnauthorizedMarker|
    ensures CheckForError(Resp(Response(Some(headers), Some(UnauthorizedMarker[..j])))) == None
  {
    forall k | OccursAt(UnauthorizedMarker[..j], UnauthorizedMarker, k)
      ensures false
    {
    }
  }

  /** The marker anywhere inside an HTML body is flagged. */
  lemma MarkerInsidePageFlagged(before: string, after: string)
    ensures CheckForError(Resp(Response(Some(map["content-type" := "text/html"]),
                                        Some(before + UnauthorizedMarker + after))))
            == Some(InvalidCredentials)
  {
    var body := before + UnauthorizedMarker + after;
    assert body[|before|..|before| + |UnauthorizedMarker|] == UnauthorizedMarker;
    assert OccursAt(body, UnauthorizedMarker, |before|);
  }

  /** Markup around a flagged body never clears the verdict: the marker is still found, shifted. */
  lemma FlagSurvivesSurroundingText(headers: map<string, string>, body: string, before: string, after: string)
    requires CheckForError(Resp(Response(Some(headers), Some(body)))).Some?
    ensures CheckForError(Resp(Response(Some(headers), Some(before + body + after)))) == Some(InvalidCredentials)
  {
    var k :| OccursAt(body, UnauthorizedMarker, k);
    var page := before + body + after;
    var n := |UnauthorizedMarker|;
    assert page[|before| + k..|before| + k + n] == body[k..k + n];
    assert OccursAt(page, UnauthorizedMarker, |before| + k);
  }

  // ---------------------------------------------------------------------
  // Request construction
  // ---------------------------------------------------------------------

  /** The directory flag only appends a suffix: `mkDir(p)` and `mkFile(p + '/')` issue the same request, and so do `rmDir(p)` and `rmFile(p + '/?recursive=true')`. */
  lemma DirectoryIsSuffix(cfg: Config, p: string, packing: Packing, t: Transport)
    ensures MkDir(cfg, p, packing, t) == MkFile(cfg, p + "/", packing, t)
    ensures RmDir(cfg, p, packing, t) == RmFile(cfg, p + "/?recursive=true", packing, t)
  {
  }

  /** `mkDir` and `list` address the same URL with different verbs. */
  lemma ListAddressesDirectory(cfg: Config, p: string, packing: Packing, t: Transport, u: Transport)
    ensures List(cfg, p, packing, t).requests[0].url == MkDir(cfg, p, packing, u).requests[0].url
    ensures List(cfg, p, packing, t).requests[0].verb == GET && MkDir(cfg, p, packing, u).requests[0].verb == PUT
  {
  }

  // ---------------------------------------------------------------------
  // Settlement
  // ---------------------------------------------------------------------

  /**
    `mk` and `rm` settle identically on the same transport result, and the
    outcome never carries the transport error: a failure resolves with
    `undefined`.
   */
  lemma MutationsSettleAlike(cfg: Config, p: string, q: string, isDir: bool, packing: Packing, t: Transport)
    ensures Mk(cfg, p, isDir, packing, t).outcome == Rm(cfg, q, isDir, packing, t).outcome
    ensures forall reason :: Mk(cfg, p, isDir, packing, t).outcome != Rejected(reason)
  {
  }

  /** The promise library's packing changes what `list` resolves with, never whether or why it rejects. */
  lemma ListIgnoresPacking(cfg: Config, target: string, t: Transport)
    ensures List(cfg, target, SingleValue, t).outcome.Rejected? == List(cfg, target, MultiArgs, t).outcome.Rejected?
    ensures List(cfg, target, SingleValue, t).outcome.Rejected? ==>
              List(cfg, target, SingleValue, t).outcome == List(cfg, target, MultiArgs, t).outcome
  {
    if t.Ok? && t.response.headers.Some? {
      WrappedSameAsBare(t.response, [Str(t.body)]);
    }
  }

  /** `list` on the bare response and the three job reads settle alike; only `getWebjobLog` resolves with the body. */
  lemma ReadsSettleAlike(cfg: Config, target: string, name: string, url: string, t: Transport)
    ensures List(cfg, target, SingleValue, t).outcome == GetWebjobInfo(cfg, name, t).outcome
    ensures GetWebjobInfo(cfg, name, t).outcome == TriggerWebjob(cfg, name, t).outcome
    ensures GetWebjobLog(cfg, url, t).outcome.Rejected? == GetWebjobInfo(cfg, name, t).outcome.Rejected?
    ensures t.Ok? && GetWebjobLog(cfg, url, t).outcome.Resolved? ==> GetWebjobLog(cfg, url, t).outcome.value == Str(t.body)
  {
  }

  /**
    When the `request` library delivers the same text as `body` and as
    `response.body`, a log that `getWebjobLog` resolves with is never the
    text of an HTML authentication-failure page.
   */
  lemma LogIsNeverFailurePage(cfg: Config, url: string, t: Transport)
    requires BodyMirrored(t)
    requires t.Ok? && t.response.headers.Some? && "content-type" in t.response.headers.value
    requires t.response.headers.value["content-type"] == "text/html"
    ensures GetWebjobLog(cfg, url, t).outcome.Resolved? ==>
              !Contains(GetWebjobLog(cfg, url, t).outcome.value.text, UnauthorizedMarker)
  {
  }

  /** `upload` does not screen its response: a failure page that `getWebjobInfo` rejects, `upload` resolves with. */
  lemma UploadDoesNotScreen(cfg: Config, source: string, target: string, name: string, response: Response, body: string)
    requires IsAuthFailurePage(Resp(response))
    ensures Upload(cfg, source, true, target, Ok(response, body)).outcome == Resolved(Resp(response))
    ensures GetWebjobInfo(cfg, name, Ok(response, body)).outcome == Rejected(Message(InvalidCredentials))
  {
  }

  /** A missing source is reported the same way whatever the transport would have done, and nothing is sent. */
  lemma MissingSourceIssuesNothing(cfg: Config, source: string, target: string, t: Transport, u: Transport)
    ensures Upload(cfg, source, false, target, t) == Upload(cfg, source, false, target, u)
    ensures Upload(cfg, source, false, target, t).requests == []
    ensures Upload(cfg, source, false, target, t).outcome.Rejected?
  {
  }

  /** Once the DELETE has completed, its response makes no difference to `uploadWebjob`. */
  lemma DeleteStatusIgnored(cfg: Config, source: string, name: string, d1: Transport, d2: Transport, put: Transport)
    requires d1.Ok? && d2.Ok?
    ensures UploadWebjob(cfg, source, name, d1, put) == UploadWebjob(cfg, source, name, d2, put)
  {
  }

  /** The DELETE precedes the PUT and both address the same job URL. */
  lemma DeleteBeforePut(cfg: Config, source: string, name: string, del: Transport, put: Transport)
    requires del.Ok?
    ensures UploadWebjob(cfg, source, name, del, put).requests[0].verb == DELETE
    ensures UploadWebjob(cfg, source, name, del, put).requests[1].verb == PUT
    ensures UploadWebjob(cfg, source, name, del, put).requests[0].url == UploadWebjob(cfg, source, name, del, put).requests[1].url
            == GetWebjobInfo(cfg, name, put).requests[0].url
  {
  }
}
