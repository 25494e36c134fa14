/** The template management page of app/admin/templates/page.tsx: the form
    schema, the editable list of fields, and the page state that submission,
    deletion and editing update.

    The form is react-hook-form state: `form` holds its current values and
    `defaults` its default values, which `reset(values)` replaces and `reset()`
    restores. Each asynchronous handler runs to completion inside one method;
    the request it sends goes through `TemplateService` and its reply is a
    parameter. */
module TemplatesPage {
  import opened Common
  import opened Entities
  import opened Http
  import Auth
  import TemplateService

  const FieldTypes: set<string> := {"string", "number", "date", "boolean"}

  const FieldNameMessage: string := "Field name must be at least 2 characters"
  const LabelMessage: string := "Label must be at least 2 characters"
  const TemplateNameMessage: string := "Template name must be at least 2 characters"
  const NoFieldsMessage: string := "At least one field is required"

  const LoadFailedMessage: string := "Failed to load templates"
  const SaveFailedMessage: string := "Failed to save template"
  const DeleteFailedMessage: string := "Failed to delete template"
  const CreatedMessage: string := "Template created successfully"
  const UpdatedMessage: string := "Template updated successfully"
  const DeletedMessage: string := "Template deleted successfully"

  // ---------------------------------------------------------------------------
  // The schema

  /** What a validation issue reports. */
  datatype Code = FieldNameTooShort | InvalidType(received: string) | LabelTooShort | TemplateNameTooShort | NoFields

  /** A validation issue: about the template itself, or about the field at an
      index of `fields`. */
  datatype FormIssue = AtTemplate(code: Code) | AtField(index: nat, code: Code)

  /** The message shown for an issue; an invalid type gets zod's own wording. */
  function Message(c: Code): string
  {
    match c
    case FieldNameTooShort => FieldNameMessage
    case InvalidType(received) => "Invalid enum value. Expected 'string' | 'number' | 'date' | 'boolean', received '" + received + "'"
    case LabelTooShort => LabelMessage
    case TemplateNameTooShort => TemplateNameMessage
    case NoFields => NoFieldsMessage
  }

  /** One refinement of a schema: no issue when the check passes, else `issue`. */
  function Check(ok: bool, issue: FormIssue): (issues: seq<FormIssue>)
    ensures issues == [] <==> ok
    ensures forall e :: e in issues <==> !ok && e == issue
  {
    if ok then [] else [issue]
  }

  /** What `fieldSchema` demands of a field. */
  predicate FieldValid(f: TemplateField)
  {
    |f.name| >= 2 && f.kind in FieldTypes && |f.labelText| >= 2
  }

  /** `fieldSchema` on the field at `index`. */
  function FieldIssues(index: nat, f: TemplateField): (issues: seq<FormIssue>)
    ensures issues == [] <==> FieldValid(f)
    ensures forall e :: e in issues ==> e.AtField? && e.index == index
  {
    var a := Check(|f.name| >= 2, AtField(index, FieldNameTooShort));
    var b := Check(f.kind in FieldTypes, AtField(index, InvalidType(f.kind)));
    var c := Check(|f.labelText| >= 2, AtField(index, LabelTooShort));
    assert forall e :: e in a + b + c <==> e in a || e in b || e in c;
    a + b + c
  }

  /** Each failed check of a field is reported, at that field's index, exactly
      when the check fails. */
  lemma FieldIssueMessages(index: nat, f: TemplateField)
    ensures AtField(index, FieldNameTooShort) in FieldIssues(index, f) <==> |f.name| < 2
    ensures AtField(index, InvalidType(f.kind)) in FieldIssues(index, f) <==> f.kind !in FieldTypes
    ensures AtField(index, LabelTooShort) in FieldIssues(index, f) <==> |f.labelText| < 2
  {
    var a := Check(|f.name| >= 2, AtField(index, FieldNameTooShort));
    var b := Check(f.kind in FieldTypes, AtField(index, InvalidType(f.kind)));
    var c := Check(|f.labelText| >= 2, AtField(index, LabelTooShort));
    assert FieldIssues(index, f) == a + b + c;
    assert forall e :: e in a + b + c <==> e in a || e in b || e in c;
  }

  /** The element issues of `fields[from..]`, each reported at its own index. */
  function ElementIssues(fields: seq<TemplateField>, from: nat): (issues: seq<FormIssue>)
    requires from <= |fields|
    ensures forall e :: e in issues ==> e.AtField? && from <= e.index < |fields|
    decreases |fields| - from
  {
    if from == |fields| then [] else FieldIssues(from, fields[from]) + ElementIssues(fields, from + 1)
  }

  /** The element issues vanish exactly when every remaining field passes. */
  lemma {:induction false} ElementIssuesEmpty(fields: seq<TemplateField>, from: nat)
    requires from <= |fields|
    ensures ElementIssues(fields, from) == [] <==> forall i :: from <= i < |fields| ==> FieldValid(fields[i])
    decreases |fields| - from
  {
    if from < |fields| {
      ElementIssuesEmpty(fields, from + 1);
      var head, tail := FieldIssues(from, fields[from]), ElementIssues(fields, from + 1);
      assert ElementIssues(fields, from) == head + tail;
      if head + tail == [] {
        assert |head| == 0 && |tail| == 0;
        forall i | from <= i < |fields| ensures FieldValid(fields[i]) {
          assert i == from || from + 1 <= i;
        }
      } else if head == [] {
        assert tail != [];
      }
    }
  }

  /** Every element issue is reported at the index of a field that fails. */
  lemma {:induction false} ElementIssuesAt(fields: seq<TemplateField>, from: nat)
    requires from <= |fields|
    ensures forall e :: e in ElementIssues(fields, from) ==>
      e.AtField? && from <= e.index < |fields| && e in FieldIssues(e.index, fields[e.index])
    decreases |fields| - from
  {
    if from < |fields| {
      ElementIssuesAt(fields, from + 1);
      var head, tail := FieldIssues(from, fields[from]), ElementIssues(fields, from + 1);
      assert ElementIssues(fields, from) == head + tail;
      forall e: FormIssue | e in head + tail
        ensures e.AtField? && from <= e.index < |fields| && e in FieldIssues(e.index, fields[e.index])
      {
        if e !in head {
          assert e in tail;
        }
      }
    }
  }

  /** `templateSchema`: the name, the optional description, then the field
      array (its length first, then its elements). */
  function TemplateIssues(t: TemplateCreate): (issues: seq<FormIssue>)
    ensures AtTemplate(TemplateNameTooShort) in issues <==> |t.name| < 2
    ensures AtTemplate(NoFields) in issues <==> |t.fields| == 0
    ensures forall e :: e in issues && e.AtField? ==> e.index < |t.fields|
  {
    Check(|t.name| >= 2, AtTemplate(TemplateNameTooShort))
    + Check(|t.fields| >= 1, AtTemplate(NoFields))
    + ElementIssues(t.fields, 0)
  }

  /** The schema accepts a template exactly when its name has two characters,
      it has a field, and every field is valid. */
  lemma TemplateValidIff(t: TemplateCreate)
    ensures TemplateIssues(t) == [] <==>
      && |t.name| >= 2
      && |t.fields| >= 1
      && forall i :: 0 <= i < |t.fields| ==> |t.fields[i].name| >= 2 && t.fields[i].kind in FieldTypes && |t.fields[i].labelText| >= 2
  {
    ElementIssuesEmpty(t.fields, 0);
  }

  /** The field-level messages of a template are exactly those of its fields. */
  lemma FieldIssueReported(t: TemplateCreate, i: nat, e: FormIssue)
    requires i < |t.fields| && e in FieldIssues(i, t.fields[i])
    ensures e in TemplateIssues(t)
  {
    ElementIssuesSuffix(t.fields, 0, i, e);
  }

  lemma {:induction false} ElementIssuesSuffix(fields: seq<TemplateField>, from: nat, i: nat, e: FormIssue)
    requires from <= i < |fields| && e in FieldIssues(i, fields[i])
    ensures e in ElementIssues(fields, from)
    decreases i - from
  {
    var head, tail := FieldIssues(from, fields[from]), ElementIssues(fields, from + 1);
    assert ElementIssues(fields, from) == head + tail;
    if from < i {
      ElementIssuesSuffix(fields, from + 1, i, e);
      assert e in tail;
    } else {
      assert e in head;
    }
  }

  // ---------------------------------------------------------------------------
  // The field list

  /** `{ name: '', type: 'string', required: true, label: '' }`. */
  const DefaultField: TemplateField := TemplateField("", "string", true, "")

  /** The form's initial values: an empty name and the single default field. */
  const DefaultForm: TemplateCreate := TemplateCreate("", None, [DefaultField])

  /** The initial form is refused, at its name and at its field's name and label. */
  lemma DefaultFormInvalid()
    ensures AtTemplate(TemplateNameTooShort) in TemplateIssues(DefaultForm)
    ensures AtField(0, FieldNameTooShort) in TemplateIssues(DefaultForm)
    ensures AtField(0, LabelTooShort) in TemplateIssues(DefaultForm)
    ensures AtField(0, InvalidType("string")) !in TemplateIssues(DefaultForm)
  {
    assert ElementIssues(DefaultForm.fields, 1) == [];
  }

  /** `fields.filter((_, i) => i !== index)`. */
  function WithoutIndex(fields: seq<TemplateField>, index: int): (r: seq<TemplateField>)
    ensures |r| == if 0 <= index < |fields| then |fields| - 1 else |fields|
    ensures forall x :: x in r ==> x in fields
  {
    if fields == [] then []
    else (if index == 0 then [] else [fields[0]]) + WithoutIndex(fields[1..], index - 1)
  }

  /** Filtering by index removes exactly that position (when it exists) and
      keeps the others in order. */
  lemma {:induction false} WithoutIndexAt(fields: seq<TemplateField>, index: int)
    ensures 0 <= index < |fields| ==> WithoutIndex(fields, index) == fields[..index] + fields[index + 1..]
    ensures !(0 <= index < |fields|) ==> WithoutIndex(fields, index) == fields
  {
    if fields != [] {
      WithoutIndexAt(fields[1..], index - 1);
      if index == 0 {
        assert fields[..0] + fields[1..] == fields[1..];
      } else if 0 < index < |fields| {
        assert [fields[0]] + (fields[1..][..index - 1] + fields[1..][index..]) == fields[..index] + fields[index + 1..];
      } else {
        assert [fields[0]] + fields[1..] == fields;
      }
    }
  }

  /** Removing the field just added restores the list. */
  lemma AddThenRemove(fields: seq<TemplateField>)
    ensures WithoutIndex(fields + [DefaultField], |fields|) == fields
  {
    WithoutIndexAt(fields + [DefaultField], |fields|);
    assert (fields + [DefaultField])[..|fields|] == fields;
  }

  // ---------------------------------------------------------------------------
  // The page

  /** The requests one save sends: none for a non-admin, else an update of the
      selected template or a creation. */
  function SaveRequests(selected: Option<Template>, env: Env, data: TemplateCreate): (rs: seq<Request>)
    ensures !Auth.IsAdmin(env.user) <==> rs == []
    ensures |rs| <= 1
    ensures forall r :: r in rs ==>
      && r.AmplifyRequest? && r.api == TemplateService.ApiName
      && r.headers == TemplateService.AmplifyHeaders(env.session) && r.body == TemplateBody(data)
    ensures Auth.IsAdmin(env.user) && selected.Some? ==> rs[0].verb == Put && rs[0].path == TemplateService.ItemPath(selected.value.id)
    ensures Auth.IsAdmin(env.user) && selected.None? ==> rs[0].verb == Post && rs[0].path == TemplateService.TemplatesPath
  {
    if !Auth.IsAdmin(env.user) then []
    else if selected.Some? then
      [AmplifyRequest(Put, TemplateService.ApiName, TemplateService.ItemPath(selected.value.id), TemplateService.AmplifyHeaders(env.session), TemplateBody(data))]
    else
      [AmplifyRequest(Post, TemplateService.ApiName, TemplateService.TemplatesPath, TemplateService.AmplifyHeaders(env.session), TemplateBody(data))]
  }

  /** The list request `loadTemplates` sends. */
  function ListRequest(env: Env): Request
  {
    AmplifyRequest(Get, TemplateService.ApiName, TemplateService.TemplatesPath, TemplateService.AmplifyHeaders(env.session), NoBody)
  }

  /** The error a save throws when it does not succeed. */
  function SaveError(env: Env, reply: Outcome<Template>): (e: Exception)
    requires !(Auth.IsAdmin(env.user) && reply.Ok?)
    ensures !Auth.IsAdmin(env.user) ==> e == TemplateService.Unauthorized
    ensures Auth.IsAdmin(env.user) ==> e == reply.exn
  {
    if Auth.IsAdmin(env.user) then reply.exn else TemplateService.Unauthorized
  }

  class Page {
    var templates: seq<Template>
    var isLoading: bool
    var selected: Option<Template>
    var isAdminUser: bool
    var dialogOpen: bool
    /** The current values of the template form. */
    var form: TemplateCreate
    /** The values `reset()` restores. */
    var defaults: TemplateCreate
    var toasts: seq<Toast>

    constructor ()
      ensures templates == [] && !isLoading && selected == None && !isAdminUser && !dialogOpen
      ensures form == DefaultForm && defaults == DefaultForm && toasts == []
    {
      templates, isLoading, selected, isAdminUser, dialogOpen := [], false, None, false, false;
      form, defaults, toasts := DefaultForm, DefaultForm, [];
    }

    /** `checkAdminStatus`: the role as `isAdmin()` reports it now. */
    method CheckAdminStatus(env: Env)
      modifies this`isAdminUser
      ensures isAdminUser == Auth.IsAdmin(env.user)
    {
      isAdminUser := Auth.IsAdmin(env.user);
    }

    /** `loadTemplates`: replace the list with the reply, or keep it and show
        one error toast. */
    method LoadTemplates(net: Network, env: Env, reply: Outcome<seq<Template>>)
      modifies this`templates, this`toasts, net
      ensures net.sent == old(net.sent) + [ListRequest(env)]
      ensures reply.Ok? ==> templates == reply.value && toasts == old(toasts)
      ensures reply.Throw? ==> templates == old(templates) && toasts == old(toasts) + [ErrorToast(LoadFailedMessage)]
    {
      var r := TemplateService.GetTemplates(net, env, reply);
      if r.Ok? {
        templates := r.value;
      } else {
        toasts := toasts + [ErrorToast(LoadFailedMessage)];
      }
    }

    /** The user edits the form's inputs. */
    method Input(values: TemplateCreate)
      modifies this`form
      ensures form == values
    {
      form := values;
    }

    /** `addField`: one default field appended; the others untouched. */
    method AddField()
      modifies this`form
      ensures form.name == old(form.name) && form.description == old(form.description)
      ensures |form.fields| == |old(form.fields)| + 1
      ensures form.fields[..|old(form.fields)|] == old(form.fields) && form.fields[|old(form.fields)|] == DefaultField
    {
      form := form.(fields := form.fields + [DefaultField]);
    }

    /** `removeField(index)`. The page offers it only while there are at least
        two fields, so the list never becomes empty that way. */
    method RemoveField(index: int)
      modifies this`form
      ensures form == old(form).(fields := WithoutIndex(old(form.fields), index))
      ensures 0 <= index < |old(form.fields)| ==> form.fields == old(form.fields)[..index] + old(form.fields)[index + 1..]
      ensures |old(form.fields)| > 1 && 0 <= index < |old(form.fields)| ==> |form.fields| == |old(form.fields)| - 1 >= 1
    {
      WithoutIndexAt(form.fields, index);
      form := form.(fields := WithoutIndex(form.fields, index));
    }

    /** The edit button: select the template, load its values into the form
        (they become the defaults too) and open the dialog. */
    method Edit(t: Template)
      modifies this`selected, this`form, this`defaults, this`dialogOpen
      ensures selected == Some(t) && dialogOpen
      ensures form == TemplateCreate(t.name, t.description, t.fields) && defaults == form
    {
      selected := Some(t);
      form := TemplateCreate(t.name, t.description, t.fields);
      defaults := form;
      dialogOpen := true;
    }

    /** `onOpenChange`: opening or closing the dialog touches nothing else. */
    method SetDialogOpen(open: bool)
      modifies this`dialogOpen
      ensures dialogOpen == open
    {
      dialogOpen := open;
    }

    /** `onSubmit(data)`: update the selected template or create one. On success
        a toast, a reload, the form reset, the selection cleared and the dialog
        closed; on failure an error toast and nothing else. */
    method Submit(net: Network, env: Env, data: TemplateCreate, reply: Outcome<Template>, listReply: Outcome<seq<Template>>)
      modifies this`isLoading, this`templates, this`toasts, this`form, this`selected, this`dialogOpen, net
      ensures !isLoading
      ensures Auth.IsAdmin(env.user) && reply.Ok? ==>
        && net.sent == old(net.sent) + SaveRequests(old(selected), env, data) + [ListRequest(env)]
        && selected == None && !dialogOpen && form == defaults
        && templates == (if listReply.Ok? then listReply.value else old(templates))
        && toasts == old(toasts) + [SuccessToast(if old(selected).Some? then UpdatedMessage else CreatedMessage)]
                                 + (if listReply.Ok? then [] else [ErrorToast(LoadFailedMessage)])
      ensures !(Auth.IsAdmin(env.user) && reply.Ok?) ==>
        && net.sent == old(net.sent) + SaveRequests(old(selected), env, data)
        && selected == old(selected) && dialogOpen == old(dialogOpen)
        && form == old(form) && templates == old(templates)
        && toasts == old(toasts) + [ErrorToast(MessageOr(SaveError(env, reply), SaveFailedMessage))]
    {
      isLoading := true;
      var r: Outcome<Template>;
      if selected.Some? {
        r := TemplateService.UpdateTemplate(net, env, selected.value.id, data, reply);
      } else {
        r := TemplateService.CreateTemplate(net, env, data, reply);
      }
      if r.Ok? {
        toasts := toasts + [SuccessToast(if selected.Some? then UpdatedMessage else CreatedMessage)];
        LoadTemplates(net, env, listReply);
        form := defaults;
        selected := None;
        dialogOpen := false;
      } else {
        toasts := toasts + [ErrorToast(MessageOr(r.exn, SaveFailedMessage))];
      }
      isLoading := false;
    }

    /** `handleSubmit(onSubmit)` on the current form: issues stop the save
        before any request. */
    method HandleSubmit(net: Network, env: Env, reply: Outcome<Template>, listReply: Outcome<seq<Template>>)
      modifies this`isLoading, this`templates, this`toasts, this`form, this`selected, this`dialogOpen, net
      ensures TemplateIssues(old(form)) != [] ==>
        && net.sent == old(net.sent) && selected == old(selected) && form == old(form) && templates == old(templates)
        && toasts == old(toasts) && dialogOpen == old(dialogOpen) && isLoading == old(isLoading)
      ensures TemplateIssues(old(form)) == [] && Auth.IsAdmin(env.user) ==>
        |net.sent| > |old(net.sent)| && net.sent[|old(net.sent)|] == SaveRequests(old(selected), env, old(form))[0]
    {
      if TemplateIssues(form) != [] {
        return;
      }
      Submit(net, env, form, reply, listReply);
    }

    /** `handleDelete(id)`: nothing without confirmation; otherwise delete,
        then a toast and a reload, or an error toast. */
    method HandleDelete(net: Network, env: Env, id: string, confirmed: bool, reply: Outcome<()>, listReply: Outcome<seq<Template>>)
      modifies this`templates, this`toasts, net
      ensures !confirmed ==> net.sent == old(net.sent) && templates == old(templates) && toasts == old(toasts)
      ensures confirmed && !Auth.IsAdmin(env.user) ==>
        net.sent == old(net.sent) && templates == old(templates)
        && toasts == old(toasts) + [ErrorToast(TemplateService.Unauthorized.message)]
      ensures confirmed && Auth.IsAdmin(env.user) ==>
        old(net.sent) < net.sent && net.sent[|old(net.sent)|] == AmplifyRequest(Delete, TemplateService.ApiName, TemplateService.ItemPath(id), TemplateService.AmplifyHeaders(env.session), NoBody)
      ensures confirmed && Auth.IsAdmin(env.user) && reply.Ok? ==>
        |net.sent| == |old(net.sent)| + 2 && net.sent[|old(net.sent)| + 1] == ListRequest(env)
        && templates == (if listReply.Ok? then listReply.value else old(templates))
        && toasts == old(toasts) + [SuccessToast(DeletedMessage)] + (if listReply.Ok? then [] else [ErrorToast(LoadFailedMessage)])
      ensures confirmed && Auth.IsAdmin(env.user) && reply.Throw? ==>
        |net.sent| == |old(net.sent)| + 1 && templates == old(templates)
        && toasts == old(toasts) + [ErrorToast(MessageOr(reply.exn, DeleteFailedMessage))]
    {
      if !confirmed {
        return;
      }
      var r := TemplateService.DeleteTemplate(net, env, id, reply);
      if r.Ok? {
        toasts := toasts + [SuccessToast(DeletedMessage)];
        LoadTemplates(net, env, listReply);
      } else {
        toasts := toasts + [ErrorToast(MessageOr(r.exn, DeleteFailedMessage))];
      }
    }
  }
}
