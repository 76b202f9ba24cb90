/**
 * The remote service client, as request descriptors. Each call is described by
 * the request it sends; the network itself is not modelled, and what a call
 * receives back is an input (`Settled`) of whoever awaits it.
 */
module Api {
  import opened Outcomes
  import Storage

  const BaseUrl: string := "https://assignment.stage.crafto.app"
  const MediaUploadUrl: string := "https://crafto.app/crafto/v1.0/media/assignment/upload"
  const DefaultLimit: int := 20
  const DefaultOffset: int := 0

  /** A quote record as the feed renders it: image, caption, author and creation time. */
  datatype Quote = Quote(text: string, mediaUrl: string, username: string, createdAt: string)

  /** A file picked in the browser; only what the client looks at. */
  datatype MediaFile = MediaFile(name: string, size: nat, mimeType: string)

  datatype HttpMethod = Get | Post

  datatype Body =
    | NoBody
    | Json(fields: seq<(string, string)>)
    | Multipart(parts: seq<(string, MediaFile)>)

  datatype Request = Request(
    verb: HttpMethod,
    url: string,
    params: seq<(string, int)>,
    headers: seq<(string, string)>,
    body: Body)

  /** The value of the first header called `name`, if any. */
  function Lookup(headers: seq<(string, string)>, name: string): (v: Option<string>)
    ensures v.Some? ==> exists i :: 0 <= i < |headers| && headers[i] == (name, v.value) &&
                                    forall j :: 0 <= j < i ==> headers[j].0 != name
    ensures v.None? <==> forall i :: 0 <= i < |headers| ==> headers[i].0 != name
  {
    if headers == [] then None
    else if headers[0].0 == name then Some(headers[0].1)
    else Lookup(headers[1..], name)
  }

  function Header(r: Request, name: string): Option<string> {
    Lookup(r.headers, name)
  }

  /** `login(username, otp)`: a JSON POST with no credential. */
  function Login(username: string, otp: string): (r: Request)
    ensures r.verb == Post && r.url == BaseUrl + "/login" && r.params == []
    ensures r.body == Json([("username", username), ("otp", otp)])
    ensures Header(r, "Authorization") == None
  {
    Request(Post, BaseUrl + "/login", [], [], Json([("username", username), ("otp", otp)]))
  }

  /** `uploadMedia(file)`: a multipart POST whose single field `file` is the file, with no credential. */
  function UploadMedia(file: MediaFile): (r: Request)
    ensures r.verb == Post && r.url == MediaUploadUrl && r.params == []
    ensures r.body == Multipart([("file", file)])
    ensures Header(r, "Content-Type") == Some("multipart/form-data")
    ensures Header(r, "Authorization") == None
  {
    Request(Post, MediaUploadUrl, [], [("Content-Type", "multipart/form-data")], Multipart([("file", file)]))
  }

  /** `createQuote(text, mediaUrl)`: the stored token is sent verbatim, "" without a session. */
  function CreateQuote(session: map<string, string>, text: string, mediaUrl: string): (r: Request)
    ensures r.verb == Post && r.url == BaseUrl + "/postQuote" && r.params == []
    ensures r.body == Json([("text", text), ("mediaUrl", mediaUrl)])
    ensures Header(r, "Authorization") == Some(Storage.Token(session))
    ensures Header(r, "Content-Type") == Some("application/json")
  {
    var headers := [("Authorization", Storage.Token(session)), ("Content-Type", "application/json")];
    assert headers[0].0 != "Content-Type" by { assert headers[0].0[0] != "Content-Type"[0]; }
    assert headers[1..] == [("Content-Type", "application/json")];
    assert Lookup(headers, "Content-Type") == Lookup(headers[1..], "Content-Type");
    Request(Post, BaseUrl + "/postQuote", [], headers, Json([("text", text), ("mediaUrl", mediaUrl)]))
  }

  /** `getQuotes(limit, offset)`; an omitted argument (`None`, JavaScript's `undefined`) takes its default. */
  function GetQuotes(session: map<string, string>, limit: Option<int>, offset: Option<int>): (r: Request)
    ensures r.verb == Get && r.url == BaseUrl + "/getQuotes" && r.body == NoBody
    ensures r.params == [("limit", limit.GetOr(DefaultLimit)), ("offset", offset.GetOr(DefaultOffset))]
    ensures limit.None? && offset.None? ==> r.params == [("limit", 20), ("offset", 0)]
    ensures Header(r, "Authorization") == Some(Storage.Token(session))
  {
    Request(Get, BaseUrl + "/getQuotes",
            [("limit", limit.GetOr(DefaultLimit)), ("offset", offset.GetOr(DefaultOffset))],
            [("Authorization", Storage.Token(session))],
            NoBody)
  }

  /** The `data` property of the response body of `getQuotes`. */
  datatype DataField = ArrayData(quotes: seq<Quote>) | NotAnArray

  /**
   * The response body of `getQuotes`: `null`/`undefined`, whose property read
   * throws, or any other value, whose `data` property is read.
   */
  datatype QuotesBody = NullishBody | Payload(data: DataField)

  /** What the promise returned by `getQuotes` settles to, given how the HTTP call settled. */
  function GetQuotesResult(response: Settled<QuotesBody>): (r: Settled<seq<Quote>>)
    ensures r.Rejected? <==> response.Rejected? || response.value.NullishBody?
    ensures r.Resolved? && response.value.data.ArrayData? ==> r.value == response.value.data.quotes
    ensures r.Resolved? && response.value.data.NotAnArray? ==> r.value == []
  {
    match response
    case Rejected => Rejected
    case Resolved(NullishBody) => Rejected
    case Resolved(Payload(ArrayData(quotes))) => Resolved(quotes)
    case Resolved(Payload(NotAnArray)) => Resolved([])
  }

  /** Of the four calls, exactly the two that reach the quotes service carry the session token. */
  lemma CredentialOnlyOnQuoteCalls(session: map<string, string>, username: string, otp: string,
                                   file: MediaFile, text: string, mediaUrl: string, limit: Option<int>, offset: Option<int>)
    ensures Header(Login(username, otp), "Authorization").None?
    ensures Header(UploadMedia(file), "Authorization").None?
    ensures Header(CreateQuote(session, text, mediaUrl), "Authorization") == Some(Storage.Token(session))
    ensures Header(GetQuotes(session, limit, offset), "Authorization") == Some(Storage.Token(session))
    ensures Header(GetQuotes(Storage.Cleared(session), limit, offset), "Authorization") == Some("")
  {
  }
}
