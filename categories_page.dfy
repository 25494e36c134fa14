/** The category management page of app/admin/categories/page.tsx: the form
    schema and the page state that loading, saving, deleting and choosing a
    category to edit update.

    The form has no default values, so `reset()` empties it. Each asynchronous
    handler runs to completion inside one method; the request it sends goes
    through `CategoryService` and its reply is a parameter. */
module CategoriesPage {
  import opened Common
  import opened Entities
  import opened Http
  import Auth
  import CategoryService

  const NameMessage: string := "Category name must be at least 2 characters"

  const LoadFailedMessage: string := "Failed to load categories"
  const SaveFailedMessage: string := "Failed to save category"
  const DeleteFailedMessage: string := "Failed to delete category"
  const CreatedMessage: string := "Category created successfully"
  const UpdatedMessage: string := "Category updated successfully"
  const DeletedMessage: string := "Category deleted successfully"

  /** The values of a form with no defaults: both of its text inputs read as empty. */
  const EmptyForm: CategoryCreate := CategoryCreate("", Some(""))

  /** `categorySchema`: only the name is checked; the description is free. */
  function CategoryIssues(c: CategoryCreate): (messages: seq<string>)
    ensures messages == [] <==> |c.name| >= 2
    ensures messages != [] ==> messages == [NameMessage]
  {
    if |c.name| >= 2 then [] else [NameMessage]
  }

  /** A save succeeds exactly when the caller is an admin, the session can be
      read and the API accepts the request. */
  predicate Saves(env: Env, reply: Outcome<Response<Category>>)
  {
    Auth.IsAdmin(env.user) && env.session.Ok? && reply.Ok?
  }

  /** The error a save that does not succeed throws, in the order the service
      meets them: the role, the session, the API. */
  function SaveError(env: Env, reply: Outcome<Response<Category>>): (e: Exception)
    requires !Saves(env, reply)
    ensures !Auth.IsAdmin(env.user) ==> e == CategoryService.Unauthorized
    ensures Auth.IsAdmin(env.user) && env.session.Throw? ==> e == env.session.exn
    ensures Auth.IsAdmin(env.user) && env.session.Ok? ==> e == reply.exn
  {
    if !Auth.IsAdmin(env.user) then CategoryService.Unauthorized
    else if env.session.Throw? then env.session.exn
    else reply.exn
  }

  /** The request one save sends, if any: an update of the selected category or
      a creation. */
  function SaveRequests(selected: Option<Category>, env: Env, data: CategoryCreate): (rs: seq<Request>)
    ensures rs == [] <==> !Auth.IsAdmin(env.user) || env.session.Throw?
    ensures |rs| <= 1
    ensures forall r :: r in rs ==> r.AxiosRequest? && r.body == CategoryBody(data) && r.headers == [BearerIdToken(env.session.value)]
    ensures rs != [] && selected.Some? ==> rs[0].verb == Put && rs[0].url == CategoryService.ItemUrl(env.apiUrl, selected.value.id)
    ensures rs != [] && selected.None? ==> rs[0].verb == Post && rs[0].url == CategoryService.CollectionUrl(env.apiUrl)
  {
    if !Auth.IsAdmin(env.user) || env.session.Throw? then []
    else if selected.Some? then
      [AxiosRequest(Put, CategoryService.ItemUrl(env.apiUrl, selected.value.id), [BearerIdToken(env.session.value)], CategoryBody(data))]
    else
      [AxiosRequest(Post, CategoryService.CollectionUrl(env.apiUrl), [BearerIdToken(env.session.value)], CategoryBody(data))]
  }

  /** The requests `loadCategories` sends: none when the session cannot be read. */
  function ListRequests(env: Env): (rs: seq<Request>)
    ensures |rs| <= 1 && (rs == [] <==> env.session.Throw?)
  {
    if env.session.Throw? then []
    else [AxiosRequest(Get, CategoryService.CollectionUrl(env.apiUrl), [BearerIdToken(env.session.value)], NoBody)]
  }

  class Page {
    var categories: seq<Category>
    var isLoading: bool
    var selected: Option<Category>
    var isAdminUser: bool
    /** The current values of the category form. */
    var form: CategoryCreate
    var toasts: seq<Toast>

    constructor ()
      ensures categories == [] && !isLoading && selected == None && !isAdminUser
      ensures form == EmptyForm && toasts == []
    {
      categories, isLoading, selected, isAdminUser := [], false, None, false;
      form, toasts := EmptyForm, [];
    }

    /** `checkAdminStatus`: the role as `isAdmin()` reports it now. */
    method CheckAdminStatus(env: Env)
      modifies this`isAdminUser
      ensures isAdminUser == Auth.IsAdmin(env.user)
    {
      isAdminUser := Auth.IsAdmin(env.user);
    }

    /** `loadCategories`: replace the list with the reply, or keep it and show
        exactly one error toast. */
    method LoadCategories(net: Network, env: Env, reply: Outcome<Response<seq<Category>>>)
      modifies this`categories, this`toasts, net
      ensures net.sent == old(net.sent) + ListRequests(env)
      ensures env.session.Ok? && reply.Ok? ==> categories == reply.value.data && toasts == old(toasts)
      ensures !(env.session.Ok? && reply.Ok?) ==> categories == old(categories) && toasts == old(toasts) + [ErrorToast(LoadFailedMessage)]
    {
      var r := CategoryService.GetCategories(net, env, reply);
      if r.Ok? {
        categories := r.value;
      } else {
        toasts := toasts + [ErrorToast(LoadFailedMessage)];
      }
    }

    /** The user edits the form's inputs. */
    method Input(values: CategoryCreate)
      modifies this`form
      ensures form == values
    {
      form := values;
    }

    /** The edit button: only the selection changes; the form keeps whatever
        it holds. */
    method Edit(c: Category)
      modifies this`selected
      ensures selected == Some(c)
    {
      selected := Some(c);
    }

    /** `onSubmit(data)`: update the selected category or create one. On success
        a toast, a reload, the form emptied and the selection cleared; on
        failure one error toast and nothing else. `isLoading` ends false either way. */
    method Submit(net: Network, env: Env, data: CategoryCreate,
                  reply: Outcome<Response<Category>>, listReply: Outcome<Response<seq<Category>>>)
      modifies this`isLoading, this`categories, this`toasts, this`form, this`selected, net
      ensures !isLoading
      ensures Saves(env, reply) ==>
        && net.sent == old(net.sent) + SaveRequests(old(selected), env, data) + ListRequests(env)
        && selected == None && form == EmptyForm
        && categories == (if listReply.Ok? then listReply.value.data else old(categories))
        && toasts == old(toasts) + [SuccessToast(if old(selected).Some? then UpdatedMessage else CreatedMessage)]
                                 + (if listReply.Ok? then [] else [ErrorToast(LoadFailedMessage)])
      ensures !Saves(env, reply) ==>
        && net.sent == old(net.sent) + SaveRequests(old(selected), env, data)
        && selected == old(selected) && form == old(form) && categories == old(categories)
        && toasts == old(toasts) + [ErrorToast(MessageOr(SaveError(env, reply), SaveFailedMessage))]
    {
      isLoading := true;
      var r: Outcome<Category>;
      if selected.Some? {
        r := CategoryService.UpdateCategory(net, env, selected.value.id, data, reply);
      } else {
        r := CategoryService.CreateCategory(net, env, data, reply);
      }
      if r.Ok? {
        toasts := toasts + [SuccessToast(if selected.Some? then UpdatedMessage else CreatedMessage)];
        LoadCategories(net, env, listReply);
        form := EmptyForm;
        selected := None;
      } else {
        toasts := toasts + [ErrorToast(MessageOr(r.exn, SaveFailedMessage))];
      }
      isLoading := false;
    }

    /** `handleSubmit(onSubmit)` on the current form: a short name stops the
        save before any request. */
    method HandleSubmit(net: Network, env: Env, reply: Outcome<Response<Category>>, listReply: Outcome<Response<seq<Category>>>)
      modifies this`isLoading, this`categories, this`toasts, this`form, this`selected, net
      ensures CategoryIssues(old(form)) != [] ==>
        && net.sent == old(net.sent) && selected == old(selected) && form == old(form) && categories == old(categories)
        && toasts == old(toasts) && isLoading == old(isLoading)
      ensures CategoryIssues(old(form)) == [] ==> old(net.sent) + SaveRequests(old(selected), env, old(form)) <= net.sent
    {
      if CategoryIssues(form) != [] {
        return;
      }
      Submit(net, env, form, reply, listReply);
    }

    /** `handleDelete(id)`: nothing without confirmation; otherwise delete,
        then a toast and a reload, or one error toast. */
    method HandleDelete(net: Network, env: Env, id: string, confirmed: bool,
                        reply: Outcome<Response<()>>, listReply: Outcome<Response<seq<Category>>>)
      modifies this`categories, this`toasts, net
      ensures !confirmed ==> net.sent == old(net.sent) && categories == old(categories) && toasts == old(toasts)
      ensures confirmed && (!Auth.IsAdmin(env.user) || env.session.Throw?) ==>
        && net.sent == old(net.sent) && categories == old(categories)
        && toasts == old(toasts) + [ErrorToast(MessageOr(if Auth.IsAdmin(env.user) then env.session.exn else CategoryService.Unauthorized, DeleteFailedMessage))]
      ensures confirmed && Auth.IsAdmin(env.user) && env.session.Ok? ==>
        && old(net.sent) < net.sent
        && net.sent[|old(net.sent)|] == AxiosRequest(Delete, CategoryService.ItemUrl(env.apiUrl, id), [BearerIdToken(env.session.value)], NoBody)
      ensures confirmed && Auth.IsAdmin(env.user) && env.session.Ok? && reply.Ok? ==>
        && net.sent == old(net.sent) + [net.sent[|old(net.sent)|]] + ListRequests(env)
        && categories == (if listReply.Ok? then listReply.value.data else old(categories))
        && toasts == old(toasts) + [SuccessToast(DeletedMessage)] + (if listReply.Ok? then [] else [ErrorToast(LoadFailedMessage)])
      ensures confirmed && Auth.IsAdmin(env.user) && env.session.Ok? && reply.Throw? ==>
        && |net.sent| == |old(net.sent)| + 1 && categories == old(categories)
        && toasts == old(toasts) + [ErrorToast(MessageOr(reply.exn, DeleteFailedMessage))]
    {
      if !confirmed {
        return;
      }
      var r := CategoryService.DeleteCategory(net, env, id, reply);
      if r.Ok? {
        toasts := toasts + [SuccessToast(DeletedMessage)];
        LoadCategories(net, env, listReply);
      } else {
        toasts := toasts + [ErrorToast(MessageOr(r.exn, DeleteFailedMessage))];
      }
    }
  }
}
