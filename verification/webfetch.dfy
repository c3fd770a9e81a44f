/** `SnapchatDL._web_fetch_story`: classify the HTTP response, cut the
    embedded data block out of the page, decode it, and read the user's
    profile and story list out of the decoded tree. The HTTP request itself
    and `json.loads` are parameters: the response arrives as a status and a
    body, and the decoder as a function that yields `None` where `json.loads`
    raises ValueError. */
module WebFetch {
  import opened Wrappers
  import opened JsonValue
  import NextData

  /** `requests.codes.ok`. */
  const StatusOk: int := 200

  datatype Response = Response(status: int, body: string)

  /** Why APIResponseError was raised; only the log line differs. */
  datatype ApiReason =
    | NotFound404                  // status 404
    | BadStatus(code: int)         // any other status but 200
    | ParseFailed(err: PyError)    // IndexError, KeyError or ValueError while reading the page

  /** How `_web_fetch_story` ends. `UserNotFound` is UserNotFoundError, which
      the `except` clause does not name; `Escaped` is an exception the clause
      does not catch either (TypeError, from a tree of the wrong shape). */
  datatype FetchOutcome =
    | ApiError(reason: ApiReason)
    | UserNotFound
    | Escaped(err: PyError)
    | Fetched(stories: Json, userInfo: Json)

  /** The exceptions the `except (IndexError, KeyError, ValueError)` clause
      turns into APIResponseError. */
  predicate Caught(e: PyError) {
    e == IndexError || e == KeyError || e == ValueError
  }

  /** An exception raised inside the `try` of `_web_fetch_story`. It is kept
      either as the reason logged with APIResponseError or as the exception
      that leaves the method, and TypeError is the only one that leaves. */
  function Fail(e: PyError): (r: FetchOutcome)
    ensures r == ApiError(ParseFailed(e)) || r == Escaped(e)
    ensures r.Escaped? <==> e == TypeError
  {
    if Caught(e) then ApiError(ParseFailed(e)) else Escaped(e)
  }

  /** `content["props"]["pageProps"]`: it succeeds exactly when both keys
      lead through dicts, and a failure is KeyError or TypeError, never
      IndexError. */
  function PageProps(content: Json): (r: Result<Json, PyError>)
    ensures r.Ok? <==> Walk(content, ["props", "pageProps"]).Some?
    ensures r.Ok? ==> r.value == Walk(content, ["props", "pageProps"]).value
    ensures r.Err? ==> r.error == KeyError || r.error == TypeError
  {
    GetChainIsWalk(content, "props", "pageProps");
    var props :- Get(content, "props");
    Get(props, "pageProps")
  }

  /** `util_web_user_info`: the profile variant the profile's `$case` names. */
  function UserInfo(content: Json): Result<Option<Json>, PyError> {
    var page :- PageProps(content);
    var present :- Contains(page, "userProfile");
    if !present then Ok(None)
    else
      var profile :- Get(page, "userProfile");
      var fieldId :- Get(profile, "$case");
      var info :- Subscript(profile, fieldId);
      Ok(Some(info))
  }

  /** `util_web_story`: the story's snap list, or an empty list without one. */
  function StoryList(content: Json): Result<Json, PyError> {
    var page :- PageProps(content);
    var present :- Contains(page, "story");
    if !present then Ok(JArr([]))
    else
      var story :- Get(page, "story");
      Get(story, "snapList")
  }

  /** The `try` block after decoding: the user info first, then the stories.
      Every APIResponseError it raises comes from an exception the `except`
      clause names, and the only exception that escapes is TypeError. */
  function Interpret(content: Json): (r: FetchOutcome)
    ensures r.ApiError? ==> r.reason.ParseFailed? && Caught(r.reason.err)
    ensures r.Escaped? ==> r.err == TypeError
  {
    match UserInfo(content)
    case Err(e) => Fail(e)
    case Ok(None) => UserNotFound
    case Ok(Some(info)) =>
      match StoryList(content)
      case Err(e) => Fail(e)
      case Ok(stories) => Fetched(stories, info)
  }

  /** `_web_fetch_story` on a response. */
  function FetchStory(response: Response, decode: string -> Option<Json>): (r: FetchOutcome)
    ensures response.status != StatusOk ==> r.ApiError? && !r.reason.ParseFailed?
    ensures r.ApiError? && r.reason.ParseFailed? ==> Caught(r.reason.err)
    ensures r.Escaped? ==> r.err == TypeError
  {
    if response.status != StatusOk then
      if response.status == 404 then ApiError(NotFound404) else ApiError(BadStatus(response.status))
    else
      match NextData.FirstPayload(response.body)
      case None => ApiError(ParseFailed(IndexError))
      case Some(raw) =>
        match decode(raw)
        case None => ApiError(ParseFailed(ValueError))
        case Some(content) => Interpret(content)
  }

  /** Any status but 200 raises APIResponseError whatever the body holds and
      without decoding it; 404 and the other statuses differ only in the
      reason, which only the log line shows. */
  lemma NonOkStatus(status: int, body: string, body': string, decode: string -> Option<Json>, decode': string -> Option<Json>)
    requires status != StatusOk
    ensures FetchStory(Response(status, body), decode) == FetchStory(Response(status, body'), decode')
    ensures FetchStory(Response(status, body), decode) == ApiError(if status == 404 then NotFound404 else BadStatus(status))
  {
  }

  /** A page without the embedded data block raises APIResponseError (from
      the IndexError of `[0]` on an empty match list). */
  lemma MissingBlock(body: string, decode: string -> Option<Json>)
    requires NextData.NoMatchIn(body, 0, |body| + 1)
    ensures FetchStory(Response(StatusOk, body), decode) == ApiError(ParseFailed(IndexError))
  {
    NextData.FirstPayloadLeftmost(body);
  }

  /** The only text handed to the decoder is the leftmost block's payload:
      pages with the same payload, read with decoders that agree on it, end
      the same way. */
  lemma OnlyPayloadDecoded(body: string, body': string, decode: string -> Option<Json>, decode': string -> Option<Json>)
    requires NextData.FirstPayload(body) == NextData.FirstPayload(body')
    requires NextData.FirstPayload(body).Some? ==>
               decode(NextData.FirstPayload(body).value) == decode'(NextData.FirstPayload(body).value)
    ensures FetchStory(Response(StatusOk, body), decode) == FetchStory(Response(StatusOk, body'), decode')
  {
  }

  /** A payload the decoder rejects raises APIResponseError; a decoded one is
      read by `Interpret`. */
  lemma DecodedPayload(body: string, decode: string -> Option<Json>)
    requires NextData.FirstPayload(body).Some?
    ensures decode(NextData.FirstPayload(body).value).None? ==>
              FetchStory(Response(StatusOk, body), decode) == ApiError(ParseFailed(ValueError))
    ensures decode(NextData.FirstPayload(body).value).Some? ==>
              FetchStory(Response(StatusOk, body), decode) == Interpret(decode(NextData.FirstPayload(body).value).value)
  {
  }

  /** A decoded document that is not a dict makes `content["props"]` raise
      TypeError, which the `except` clause does not catch. */
  lemma NonObjectDocument(content: Json)
    requires !content.JObj?
    ensures Interpret(content) == Escaped(TypeError)
  {
  }

  /** A document without `props`, or whose `props` dict lacks `pageProps`,
      raises APIResponseError. */
  lemma MissingPageProps(content: Json)
    requires content.JObj?
    requires "props" !in content.fields
             || (content.fields["props"].JObj? && "pageProps" !in content.fields["props"].fields)
    ensures Interpret(content) == ApiError(ParseFailed(KeyError))
  {
  }

  /** `content["props"]["pageProps"]` is the dict `page`. */
  predicate HasPage(content: Json, page: Json) {
    Walk(content, ["props", "pageProps"]) == Some(page) && page.JObj?
  }

  /** A page without `userProfile` raises UserNotFoundError, whether or not
      it has a story: the profile is read first. */
  lemma AbsentProfile(content: Json, page: Json)
    requires HasPage(content, page) && "userProfile" !in page.fields
    ensures Interpret(content) == UserNotFound
  {
  }

  /** A profile dict without `$case` raises APIResponseError. */
  lemma MissingCase(content: Json, page: Json)
    requires HasPage(content, page) && "userProfile" in page.fields
    requires page.fields["userProfile"].JObj? && "$case" !in page.fields["userProfile"].fields
    ensures Interpret(content) == ApiError(ParseFailed(KeyError))
  {
  }

  /** The user info is the variant of the profile that its `$case` names; a
      `$case` naming no variant raises APIResponseError. */
  lemma ProfileVariant(content: Json, page: Json, c: string)
    requires HasPage(content, page) && "userProfile" in page.fields
    requires Walk(page.fields["userProfile"], ["$case"]) == Some(JStr(c))
    ensures var profile := page.fields["userProfile"].fields;
            && (c !in profile ==> Interpret(content) == ApiError(ParseFailed(KeyError)))
            && (c in profile ==> UserInfo(content) == Ok(Some(profile[c])))
            && (Interpret(content).Fetched? ==> c in profile && Interpret(content).userInfo == profile[c])
  {
    var profile := page.fields["userProfile"];
    assert Get(profile, "$case") == Ok(JStr(c));
  }

  /** Once the user info is read: a page without `story` has an empty story
      list, which is not an error; otherwise the list is `story.snapList`,
      passed on exactly as decoded; a story without `snapList` raises
      APIResponseError. */
  lemma StoryOfPage(content: Json, page: Json, info: Json)
    requires HasPage(content, page) && UserInfo(content) == Ok(Some(info))
    ensures "story" !in page.fields ==> Interpret(content) == Fetched(JArr([]), info)
    ensures Walk(page, ["story", "snapList"]).Some? ==>
              Interpret(content) == Fetched(Walk(page, ["story", "snapList"]).value, info)
    ensures "story" in page.fields && page.fields["story"].JObj? && "snapList" !in page.fields["story"].fields ==>
              Interpret(content) == ApiError(ParseFailed(KeyError))
  {
    GetChainIsWalk(page, "story", "snapList");
  }
}
