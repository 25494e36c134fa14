/** The category client of lib/services/category-service.ts: axios calls to
    `<API_URL>/admin/categories[/<id>]` with the ID token; the mutating calls
    first require the admin role. */
module CategoryService {
  import opened Common
  import opened Entities
  import opened Http
  import Auth

  const CategoriesPath: string := "/admin/categories"

  /** The error the mutating calls throw for a caller without the admin role. */
  const Unauthorized: Exception := Error("Unauthorized: Admin access required")

  /** `${API_URL}/admin/categories`. */
  function CollectionUrl(apiUrl: string): string
  {
    apiUrl + CategoriesPath
  }

  /** `${API_URL}/admin/categories/${id}`: the collection URL, a slash, then the
      id unchanged. */
  function ItemUrl(apiUrl: string, id: string): (url: string)
    ensures StartsWith(url, CollectionUrl(apiUrl) + "/")
    ensures url[|CollectionUrl(apiUrl)| + 1..] == id
  {
    var prefix := CollectionUrl(apiUrl) + "/";
    assert (prefix + id)[..|prefix|] == prefix;
    prefix + id
  }

  /** Distinct ids address distinct categories. */
  lemma ItemUrlInjective(apiUrl: string, a: string, b: string)
    requires ItemUrl(apiUrl, a) == ItemUrl(apiUrl, b)
    ensures a == b
  {
    var n := |CollectionUrl(apiUrl)| + 1;
    assert a == ItemUrl(apiUrl, a)[n..];
  }

  /** `getCategories`: no role check, but the ID token is still attached. */
  method GetCategories(net: Network, env: Env, reply: Outcome<Response<seq<Category>>>)
    returns (r: Outcome<seq<Category>>)
    modifies net
    ensures env.session.Throw? ==> r == Throw(env.session.exn) && net.sent == old(net.sent)
    ensures env.session.Ok? ==>
      && net.sent == old(net.sent) + [AxiosRequest(Get, CollectionUrl(env.apiUrl), [BearerIdToken(env.session.value)], NoBody)]
      && r == DataOf(reply)
  {
    var headers := IdTokenHeaders(env.session);
    if headers.Throw? {
      return Throw(headers.exn);
    }
    assert headers.value == [BearerIdToken(env.session.value)];
    net.Send(AxiosRequest(Get, CollectionUrl(env.apiUrl), headers.value, NoBody));
    r := DataOf(reply);
  }

  /** `createCategory`: role check, then the token, then one POST. */
  method CreateCategory(net: Network, env: Env, category: CategoryCreate, reply: Outcome<Response<Category>>)
    returns (r: Outcome<Category>)
    modifies net
    ensures !Auth.IsAdmin(env.user) ==> r == Throw(Unauthorized) && net.sent == old(net.sent)
    ensures Auth.IsAdmin(env.user) && env.session.Throw? ==> r == Throw(env.session.exn) && net.sent == old(net.sent)
    ensures Auth.IsAdmin(env.user) && env.session.Ok? ==>
      && net.sent == old(net.sent) + [AxiosRequest(Post, CollectionUrl(env.apiUrl), [BearerIdToken(env.session.value)], CategoryBody(category))]
      && r == DataOf(reply)
  {
    if !Auth.IsAdmin(env.user) {
      return Throw(Unauthorized);
    }
    var headers := IdTokenHeaders(env.session);
    if headers.Throw? {
      return Throw(headers.exn);
    }
    assert headers.value == [BearerIdToken(env.session.value)];
    net.Send(AxiosRequest(Post, CollectionUrl(env.apiUrl), headers.value, CategoryBody(category)));
    r := DataOf(reply);
  }

  /** `updateCategory`: role check, then the token, then one PUT to the item URL. */
  method UpdateCategory(net: Network, env: Env, id: string, category: CategoryCreate, reply: Outcome<Response<Category>>)
    returns (r: Outcome<Category>)
    modifies net
    ensures !Auth.IsAdmin(env.user) ==> r == Throw(Unauthorized) && net.sent == old(net.sent)
    ensures Auth.IsAdmin(env.user) && env.session.Throw? ==> r == Throw(env.session.exn) && net.sent == old(net.sent)
    ensures Auth.IsAdmin(env.user) && env.session.Ok? ==>
      && net.sent == old(net.sent) + [AxiosRequest(Put, ItemUrl(env.apiUrl, id), [BearerIdToken(env.session.value)], CategoryBody(category))]
      && r == DataOf(reply)
  {
    if !Auth.IsAdmin(env.user) {
      return Throw(Unauthorized);
    }
    var headers := IdTokenHeaders(env.session);
    if headers.Throw? {
      return Throw(headers.exn);
    }
    assert headers.value == [BearerIdToken(env.session.value)];
    net.Send(AxiosRequest(Put, ItemUrl(env.apiUrl, id), headers.value, CategoryBody(category)));
    r := DataOf(reply);
  }

  /** `deleteCategory`: role check, then the token, then one DELETE; resolves
      with nothing. */
  method DeleteCategory(net: Network, env: Env, id: string, reply: Outcome<Response<()>>)
    returns (r: Outcome<()>)
    modifies net
    ensures !Auth.IsAdmin(env.user) ==> r == Throw(Unauthorized) && net.sent == old(net.sent)
    ensures Auth.IsAdmin(env.user) && env.session.Throw? ==> r == Throw(env.session.exn) && net.sent == old(net.sent)
    ensures Auth.IsAdmin(env.user) && env.session.Ok? ==>
      && net.sent == old(net.sent) + [AxiosRequest(Delete, ItemUrl(env.apiUrl, id), [BearerIdToken(env.session.value)], NoBody)]
      && (r.Ok? <==> reply.Ok?)
      && (reply.Throw? ==> r.exn == reply.exn)
  {
    if !Auth.IsAdmin(env.user) {
      return Throw(Unauthorized);
    }
    var headers := IdTokenHeaders(env.session);
    if headers.Throw? {
      return Throw(headers.exn);
    }
    assert headers.value == [BearerIdToken(env.session.value)];
    net.Send(AxiosRequest(Delete, ItemUrl(env.apiUrl, id), headers.value, NoBody));
    r := if reply.Ok? then Ok(()) else Throw(reply.exn);
  }
}
