/** The template client of lib/services/template-service.ts: calls through the
    Amplify API client to endpoint `api`, path `/admin/templates[/<id>]`. The
    mutating calls first require the admin role; errors are logged and rethrown
    unchanged. */
module TemplateService {
  import opened Common
  import opened Entities
  import opened Http
  import Auth

  const ApiName: string := "api"
  const TemplatesPath: string := "/admin/templates"

  /** The error the mutating calls throw for a caller without the admin role. */
  const Unauthorized: Exception := Error("Unauthorized: Admin access required")

  /** `/admin/templates/${id}`: the collection path, a slash, then the id unchanged. */
  function ItemPath(id: string): (path: string)
    ensures StartsWith(path, TemplatesPath + "/")
    ensures path[|TemplatesPath| + 1..] == id
  {
    var prefix := TemplatesPath + "/";
    assert (prefix + id)[..|prefix|] == prefix;
    prefix + id
  }

  /** The endpoint's `custom_header` (lib/aws-config.ts): the ACCESS token and a
      JSON content type, or no headers at all when the session cannot be read. */
  function AmplifyHeaders(session: Outcome<Auth.Tokens>): (headers: seq<Header>)
    ensures session.Throw? ==> headers == []
    ensures session.Ok? ==> |headers| == 2 && headers[0] == Header("Authorization", "Bearer " + session.value.accessJwt)
    ensures session.Ok? ==> headers[1] == Header("Content-Type", "application/json")
  {
    match session
    case Ok(tokens) => [Header("Authorization", "Bearer " + tokens.accessJwt), Header("Content-Type", "application/json")]
    case Throw(_) => []
  }

  /** `getTemplates`: no role check; the reply is returned or rethrown as is. */
  method GetTemplates(net: Network, env: Env, reply: Outcome<seq<Template>>) returns (r: Outcome<seq<Template>>)
    modifies net
    ensures net.sent == old(net.sent) + [AmplifyRequest(Get, ApiName, TemplatesPath, AmplifyHeaders(env.session), NoBody)]
    ensures r == reply
  {
    net.Send(AmplifyRequest(Get, ApiName, TemplatesPath, AmplifyHeaders(env.session), NoBody));
    r := reply;
  }

  /** `createTemplate`: role check before anything is sent, then one POST whose
      reply is returned or rethrown as is. */
  method CreateTemplate(net: Network, env: Env, template: TemplateCreate, reply: Outcome<Template>)
    returns (r: Outcome<Template>)
    modifies net
    ensures !Auth.IsAdmin(env.user) ==> r == Throw(Unauthorized) && net.sent == old(net.sent)
    ensures Auth.IsAdmin(env.user) ==>
      && net.sent == old(net.sent) + [AmplifyRequest(Post, ApiName, TemplatesPath, AmplifyHeaders(env.session), TemplateBody(template))]
      && r == reply
  {
    if !Auth.IsAdmin(env.user) {
      return Throw(Unauthorized);
    }
    net.Send(AmplifyRequest(Post, ApiName, TemplatesPath, AmplifyHeaders(env.session), TemplateBody(template)));
    r := reply;
  }

  /** `updateTemplate`: role check before anything is sent, then one PUT to the
      item path. */
  method UpdateTemplate(net: Network, env: Env, id: string, template: TemplateCreate, reply: Outcome<Template>)
    returns (r: Outcome<Template>)
    modifies net
    ensures !Auth.IsAdmin(env.user) ==> r == Throw(Unauthorized) && net.sent == old(net.sent)
    ensures Auth.IsAdmin(env.user) ==>
      && net.sent == old(net.sent) + [AmplifyRequest(Put, ApiName, ItemPath(id), AmplifyHeaders(env.session), TemplateBody(template))]
      && r == reply
  {
    if !Auth.IsAdmin(env.user) {
      return Throw(Unauthorized);
    }
    net.Send(AmplifyRequest(Put, ApiName, ItemPath(id), AmplifyHeaders(env.session), TemplateBody(template)));
    r := reply;
  }

  /** `deleteTemplate`: role check before anything is sent, then one DELETE. */
  method DeleteTemplate(net: Network, env: Env, id: string, reply: Outcome<()>)
    returns (r: Outcome<()>)
    modifies net
    ensures !Auth.IsAdmin(env.user) ==> r == Throw(Unauthorized) && net.sent == old(net.sent)
    ensures Auth.IsAdmin(env.user) ==>
      && net.sent == old(net.sent) + [AmplifyRequest(Delete, ApiName, ItemPath(id), AmplifyHeaders(env.session), NoBody)]
      && r == reply
  {
    if !Auth.IsAdmin(env.user) {
      return Throw(Unauthorized);
    }
    net.Send(AmplifyRequest(Delete, ApiName, ItemPath(id), AmplifyHeaders(env.session), NoBody));
    r := reply;
  }
}
