/** The boundary to everything the services talk to: an abstract log of the
    requests sent to the application's API, and the environment a call reads. */
module Http {
  import opened Common
  import opened Entities
  import Auth

  datatype Verb = Get | Post | Put | Delete

  datatype Header = Header(name: string, value: string)

  /** One part of a multipart form, in `FormData.append` order. `MetadataPart`
      stands for `JSON.stringify` of the metadata; the serialisation itself is not
      modelled. */
  datatype FormPart = FilePart(field: string, file: FileInfo) | MetadataPart(field: string, metadata: MediaMetadata)

  datatype Body =
    | NoBody
    | CategoryBody(category: CategoryCreate)
    | TemplateBody(template: TemplateCreate)
    | MultipartBody(parts: seq<FormPart>)

  /** A request as it leaves the browser: through axios to a full URL, or through
      the Amplify API client to a path of a named endpoint. */
  datatype Request =
    | AxiosRequest(verb: Verb, url: string, headers: seq<Header>, body: Body)
    | AmplifyRequest(verb: Verb, api: string, path: string, headers: seq<Header>, body: Body)

  /** An axios response; the services hand back only `data`. */
  datatype Response<+T> = Response(status: nat, data: T)

  /** `response.data` of an awaited axios call, or the error it threw. */
  function DataOf<T>(reply: Outcome<Response<T>>): (r: Outcome<T>)
    ensures reply.Ok? <==> r.Ok?
    ensures reply.Ok? ==> r.value == reply.value.data
    ensures reply.Throw? ==> r.exn == reply.exn
  {
    match reply
    case Ok(resp) => Ok(resp.data)
    case Throw(e) => Throw(e)
  }

  /** `Authorization: Bearer <ID-token JWT>`. */
  function BearerIdToken(tokens: Auth.Tokens): Header
  {
    Header("Authorization", "Bearer " + tokens.idJwt)
  }

  /** `getAuthHeader()` of the category and media services: read the current
      session afresh and attach its ID token; a session failure propagates. */
  function IdTokenHeaders(session: Outcome<Auth.Tokens>): (r: Outcome<seq<Header>>)
    ensures r.Ok? <==> session.Ok?
    ensures r.Ok? ==> r.value == [Header("Authorization", "Bearer " + session.value.idJwt)]
    ensures r.Throw? ==> r.exn == session.exn
  {
    match session
    case Ok(tokens) => Ok([BearerIdToken(tokens)])
    case Throw(e) => Throw(e)
  }

  /** What a call reads from outside the code at the moment it runs: the
      configured API endpoint (`NEXT_PUBLIC_API_ENDPOINT`), what
      `Auth.currentAuthenticatedUser()` yields and what `Auth.currentSession()`
      yields. A fresh `Env` is passed to every call, so nothing is cached. */
  datatype Env = Env(apiUrl: string, user: Outcome<Auth.CognitoUser>, session: Outcome<Auth.Tokens>)

  /** The requests sent to the application's API, in order. Traffic to the
      identity provider is not part of this log. */
  class Network {
    var sent: seq<Request>

    constructor ()
      ensures sent == []
    {
      sent := [];
    }

    method Send(r: Request)
      modifies this
      ensures sent == old(sent) + [r]
    {
      sent := sent + [r];
    }
  }
}
