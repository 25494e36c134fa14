# Media management portal admin console, modelled in Dafny

This project models the core of an admin console for an S3-backed media library.
The console is a Next.js application. An administrator signs in through Amazon
Cognito and then does three things:

- manages **categories** through a REST API reached with axios;
- manages **templates** (named lists of typed fields) through the Amplify API client;
- **uploads images** into a category, with per-file progress.

A route guard (`middleware.ts`) sends requests for admin pages without an
`authToken` cookie to the login page.

The model follows the program's structure, one module per source file:

| module | file | models |
|---|---|---|
| `Common`, `Entities` | common.dfy, entities.dfy | the shared records, thrown values, toasts |
| `Http` | http.dfy | the request log `Network`, and `Env`: the API URL plus what the identity provider answers when a call runs |
| `Auth` | auth.dfy | `lib/auth.ts`: sign-in, sign-out and current-user wrappers; the `isAdmin` role check |
| `Middleware` | middleware.dfy | `middleware.ts` and its matcher |
| `MediaService` | media_service.dfy | `lib/services/media-service.ts` |
| `CategoryService` | category_service.dfy | `lib/services/category-service.ts` |
| `TemplateService` | template_service.dfy | `lib/services/template-service.ts`, including the endpoint headers it gets from `lib/aws-config.ts` |
| `UploadPage` | upload_page.dfy | `app/admin/upload/page.tsx` |
| `TemplatesPage` | templates_page.dfy | `app/admin/templates/page.tsx` |
| `CategoriesPage` | categories_page.dfy | `app/admin/categories/page.tsx` |

The services are methods that append to a request log (`Http.Network.sent`).
The reply of the remote API is a parameter, so every outcome is covered.
Each page is a class whose fields are the page's React state. Each event handler
is a method that states the page's whole new state.

Behaviours of the code as written that the proofs make explicit:

- **Upload progress.** A progress or failure callback replaces the entry with
  a copy `{ ...f, progress }`. The copy has a new object identity. Later callbacks
  for the same file compare against the original object, so they match nothing.
  Only the first update per file ever shows (`UploadPage.FirstUpdateWins`).
- **Lost file data.** The copy made by object spread keeps only the entry's own
  properties. It loses the `File` getters (`name`, `size`, `type`), so the model
  gives a copy `file == None`.
- **Failure branch never taken.** Every per-file upload catches its own error, so
  `Promise.all` always fulfils. The "Some files failed" branch is unreachable
  (`UploadPage.BatchNeverRejects`). A batch always reports success and empties the
  list, including entries marked "Upload failed" (`UploadPage.Page.OnBatchSettled`).
- **Leaked previews.** Only the previews of the files captured at submit time are
  revoked. A file dropped while a batch runs is cleared from the list, but its
  preview URL stays live. The model tracks such URLs in the ghost set `leaked`.
- **Form reset after editing a template.** `reset(template)` makes the edited
  template the form's new default values. After a successful save, `reset()`
  therefore restores that template's values, not the empty form
  (`TemplatesPage.Page.Submit`: `form == old(defaults)`).
- **Editing a category.** The edit button only selects the category. The form is
  not filled with its values.
- **Different tokens.** Template calls carry the Cognito *access* token through
  the endpoint's custom header. Category and media calls carry the *ID* token.
  If the session cannot be read, template calls go out without headers, while
  category and media calls fail before sending anything.
- **Guard and matcher disagree.** The guard tests a plain string prefix, so
  `/administrator` would be redirected. The matcher `/admin/:path*` never hands
  that path to the guard (`Middleware.PrefixNotSegment`).

## Model

| member | source | states |
|---|---|---|
| Common.MessageOr | app/admin/templates/page.tsx:97-102 | an `Error` yields its message, any other thrown value the fallback text |
| Http.DataOf | lib/services/category-service.ts:24-28 | a call yields `response.data` when the request succeeds and rethrows the same error otherwise |
| Http.IdTokenHeaders | lib/services/category-service.ts:17-22 | the header is `Authorization: Bearer` + the ID-token JWT of the session read now; a session failure propagates unchanged |
| Auth.GroupsOf | lib/auth.ts:21 | the groups are the `cognito:groups` claim, or empty when the claim is missing |
| Auth.SignIn | lib/auth.ts:18-32 | never throws; exactly one of user and error is set; success carries the email and the claim's groups; a rejection is returned as the error |
| Auth.SignOut | lib/auth.ts:34-41 | never throws; the error is null exactly when sign-out succeeded, else it is what was thrown |
| Auth.GetCurrentUser | lib/auth.ts:43-57 | same result shape as sign-in, for the currently authenticated user |
| Auth.IsAdmin | lib/auth.ts:59-66 | true exactly when a current user with a session exists and its groups contain `Admin`; recomputed from what is passed, nothing cached |
| Auth.NoUserIsNotAdmin | lib/auth.ts:61-65 | no current user (including a rejection) means not admin |
| Auth.MissingGroupsClaimIsNotAdmin | lib/auth.ts:46 | without the groups claim the groups are empty and the user is not admin |
| Auth.AdminMatchIsExact | lib/auth.ts:62 | the group name is matched exactly: `admin` and `Admins` do not count, `Admin` among others does |
| Middleware.Middleware | middleware.ts:4-14 | redirect to `/auth/login` exactly when the path starts with `/admin` and the cookie is absent; otherwise pass through |
| Middleware.Route | middleware.ts:16-18 | paths outside the matcher (the predicate `MatcherAccepts`, which stands for `config.matcher`) always pass through; matched paths get the guard's answer |
| Middleware.CookieValueIgnored | middleware.ts:6-9 | any cookie value lets the request through; only presence is checked |
| Middleware.PrefixNotSegment | middleware.ts:9 | `/administrator` is redirected by the guard but never reaches it through the matcher |
| Middleware.RouteRedirectsIff | middleware.ts:9-18 | a request is redirected exactly when the matcher selects it and it has no cookie, and then to the login page |
| MediaService.RoundedPercent | lib/services/media-service.ts:46 | the result is the integer nearest to `loaded*100/total`, halves rounded up |
| MediaService.PercentInRange | lib/services/media-service.ts:46 | for `0 <= loaded <= total` the percentage lies in 0..100 |
| MediaService.CompleteIsHundred | lib/services/media-service.ts:46 | a finished transfer reports exactly 100 |
| MediaService.PercentMonotone | lib/services/media-service.ts:46 | more bytes sent never reports a smaller percentage |
| MediaService.ProgressReport | lib/services/media-service.ts:44-48 | the callback fires exactly when one was supplied and the event has a non-zero total, with the rounded percentage |
| MediaService.Reports | lib/services/media-service.ts:44-48 | a stream of progress events yields at most one report per event |
| MediaService.NoCallbackNoReports | lib/services/media-service.ts:44-45 | without a callback no event reports anything |
| MediaService.ReportsInRange | lib/services/media-service.ts:44-48 | every reported value lies in 0..100 when no event overshoots its total |
| MediaService.UploadMedia | lib/services/media-service.ts:32-51 | no admin check; a session failure sends nothing and rethrows; else exactly one POST to `<API>/admin/media` with the bearer ID token and the multipart type, a `file` part then a `metadata` part; the reports are those of the events; the POST's failure is rethrown |
| MediaService.GetMediaByCategory | lib/services/media-service.ts:53-57 | no admin check; one GET to `<API>/admin/media/<categoryId>` with the ID token, returning the body |
| CategoryService.ItemUrl | lib/services/category-service.ts:44 | the item URL is the collection URL, a slash, then the id unchanged |
| CategoryService.ItemUrlInjective | lib/services/category-service.ts:44 | distinct ids give distinct item URLs |
| CategoryService.GetCategories | lib/services/category-service.ts:24-28 | no admin check but the ID token is attached; one GET to the collection URL (`CollectionUrl`, the API URL followed by `/admin/categories`) returning the body; a session failure sends nothing |
| CategoryService.CreateCategory | lib/services/category-service.ts:30-37 | a non-admin gets the Unauthorized error and no request is sent; the role is checked before the session is read; else one POST with the category |
| CategoryService.UpdateCategory | lib/services/category-service.ts:39-46 | as create, with one PUT to the item URL |
| CategoryService.DeleteCategory | lib/services/category-service.ts:48-54 | as create, with one DELETE to the item URL; resolves with nothing or rethrows |
| TemplateService.ItemPath | lib/services/template-service.ts:52 | the item path is `/admin/templates/` followed by the id unchanged |
| TemplateService.AmplifyHeaders | lib/aws-config.ts:24-35 | the endpoint's headers carry the access token and a JSON content type, or are empty when the session cannot be read |
| TemplateService.GetTemplates | lib/services/template-service.ts:22-30 | no admin check; one GET of `/admin/templates` on endpoint `api`; the reply is returned or rethrown unchanged |
| TemplateService.CreateTemplate | lib/services/template-service.ts:32-45 | a non-admin gets the Unauthorized error and no request is sent; else one POST whose reply is returned or rethrown unchanged |
| TemplateService.UpdateTemplate | lib/services/template-service.ts:47-60 | as create, with one PUT to the item path |
| TemplateService.DeleteTemplate | lib/services/template-service.ts:62-72 | as create, with one DELETE to the item path |
| UploadPage.MetadataIssues | app/admin/upload/page.tsx:23-27 | metadata is valid exactly when the category id has a character and the title two; each failing field gets its own message; the description is free |
| UploadPage.RejectionToasts | app/admin/upload/page.tsx:61-69 | one toast per refused file, in order, each `RejectionToast`: the file's name, a colon, and its first reason |
| UploadPage.AdmissionErrors | app/admin/upload/page.tsx:47-51 | a file is admitted exactly when its size is at most 10 MiB and its type is JPEG, PNG or WebP; a wrong type is the first reason given |
| UploadPage.Accepted | app/admin/upload/page.tsx:52 | the accepted files are exactly the dropped files the dropzone admits |
| UploadPage.Rejections | app/admin/upload/page.tsx:61-62 | every refused file has a rejection carrying its reasons, and only dropped files are rejected |
| UploadPage.PartitionSizes | app/admin/upload/page.tsx:47-69 | every dropped file is either accepted or rejected, never both and never neither |
| UploadPage.NewEntriesFresh | app/admin/upload/page.tsx:53-58 | each accepted file becomes one entry, in order, with progress 0, no error, and an identity and a preview URL that are new and distinct |
| UploadPage.Copy | app/admin/upload/page.tsx:103 | the spread copy gets a new identity, drops the `File`, keeps the preview, and changes only the progress (or, at line 111, only the error) |
| UploadPage.Without | app/admin/upload/page.tsx:73 | the filter keeps exactly the entries not identical to the removed one |
| UploadPage.WithoutAt | app/admin/upload/page.tsx:73 | with distinct identities, removing by identity removes exactly one position and keeps the rest in order |
| UploadPage.FirstUpdateWins | app/admin/upload/page.tsx:100-113 | once an update has replaced a file's entry, any later update for that file changes nothing |
| UploadPage.RewriteFrame | app/admin/upload/page.tsx:101-105 | an update (`Rewrite`, the `prev.map` at lines 102-104 and 110-112) changes only the entry identical to its file; positions and preview URLs are kept |
| UploadPage.FileTask | app/admin/upload/page.tsx:92-115 | the per-file task fulfils whether its upload succeeds or throws, because the catch only marks the entry |
| UploadPage.All | app/admin/upload/page.tsx:91-116 | `Promise.all` rejects exactly when one of its promises rejects |
| UploadPage.BatchNeverRejects | app/admin/upload/page.tsx:91-133 | whatever each upload does, the batch fulfils, so the failure toast is unreachable |
| UploadPage.UploadCalls | app/admin/upload/page.tsx:92-99 | one upload call per listed file, in order, each for that file with the form data and the file's name as `filename` (`UploadMetadata`, lines 96-99) |
| UploadPage.StartUploads | app/admin/upload/page.tsx:92-99 | the loop makes exactly the calls `UploadCalls` describes |
| UploadPage.Page.constructor | app/admin/upload/page.tsx:38-39 | the page starts with no files, not uploading, with no preview URLs |
| UploadPage.Page.OnDrop | app/admin/upload/page.tsx:52-60 | accepted files are appended after the existing entries, in drop order, each with progress 0 and a new preview URL; nothing else changes |
| UploadPage.Page.OnDropRejected | app/admin/upload/page.tsx:61-69 | exactly one error toast `<name>: <first reason>` per refused file, in order |
| UploadPage.Page.Drop | app/admin/upload/page.tsx:47-70 | a drop appends the admitted files and raises one toast per refused file |
| UploadPage.Page.RemoveFile | app/admin/upload/page.tsx:72-77 | the entry identical to the removed one is dropped, the others keep their order, and its preview URL is revoked |
| UploadPage.Page.OnSubmit | app/admin/upload/page.tsx:79-99 | with no files, one error toast and no upload; else the list is captured, uploading starts, and the calls `UploadCalls` gives for the captured list are made |
| UploadPage.Page.HandleSubmit | app/admin/upload/page.tsx:145 | invalid metadata stops the submission before any upload; valid metadata submits |
| UploadPage.Page.OnUploadProgress | app/admin/upload/page.tsx:100-106 | a progress report rewrites only the entry identical to its file |
| UploadPage.Page.OnUploadFailed | app/admin/upload/page.tsx:108-114 | a failed upload marks only the entry identical to its file with "Upload failed" |
| UploadPage.Page.Apply | app/admin/upload/page.tsx:101-113 | a per-file update replaces the entries identical to the file by a copy with a new identity; the list's invariants are kept |
| UploadPage.Page.OnBatchSettled | app/admin/upload/page.tsx:118-136 | the batch ends with the success toast, the captured previews revoked, the list empty and uploading off; previews of files dropped meanwhile stay live |
| TemplatesPage.FieldIssues | app/admin/templates/page.tsx:18-23 | a field is valid exactly when its name and label have two characters and its type is one of string, number, date, boolean |
| TemplatesPage.FieldIssueMessages | app/admin/templates/page.tsx:18-23 | each failed check is reported with its own message at that field's index, and only then |
| TemplatesPage.ElementIssuesEmpty | app/admin/templates/page.tsx:28 | the field array has no element issue exactly when every field is valid |
| TemplatesPage.ElementIssuesAt | app/admin/templates/page.tsx:28 | every element issue points at a field that fails it |
| TemplatesPage.ElementIssues | app/admin/templates/page.tsx:28 | every issue of the field array is reported at the index of a field from the checked position on |
| TemplatesPage.TemplateIssues | app/admin/templates/page.tsx:25-29 | the name issue is reported exactly when the name is shorter than 2, the missing-field issue exactly when there is no field, and every field issue points at an existing field |
| TemplatesPage.TemplateValidIff | app/admin/templates/page.tsx:25-29 | a template is valid exactly when its name has two characters, it has a field, and every field is valid |
| TemplatesPage.FieldIssueReported | app/admin/templates/page.tsx:25-29 | every issue of a field is reported for the whole template |
| TemplatesPage.DefaultFormInvalid | app/admin/templates/page.tsx:43-45 | the initial form is refused at its name and its field's name and label, but not at the field's type |
| TemplatesPage.WithoutIndex | app/admin/templates/page.tsx:80 | filtering by index shortens the list by one exactly when the index exists, and keeps only fields of the list |
| TemplatesPage.WithoutIndexAt | app/admin/templates/page.tsx:78-81 | removing index `i` removes exactly that element and keeps the others in order; an index out of range changes nothing |
| TemplatesPage.AddThenRemove | app/admin/templates/page.tsx:73-81 | removing the field just added restores the list |
| TemplatesPage.SaveRequests | app/admin/templates/page.tsx:86-91 | a save sends nothing for a non-admin, else exactly one request to endpoint `api` with the access-token headers: an update of the selected template's path or a creation |
| TemplatesPage.SaveError | app/admin/templates/page.tsx:97-102 | a failed save reports the role error for a non-admin, else the API's error |
| TemplatesPage.Page.constructor | app/admin/templates/page.tsx:34-46 | the page starts with no templates, no selection, dialog closed, and the one-field default form |
| TemplatesPage.Page.CheckAdminStatus | app/admin/templates/page.tsx:55-58 | the admin flag is what the role check answers now |
| TemplatesPage.Page.LoadTemplates | app/admin/templates/page.tsx:60-71 | one GET of the collection (`ListRequest`); the list is replaced by the reply, or kept unchanged with exactly one error toast |
| TemplatesPage.Page.Input | app/admin/templates/page.tsx:146 | typing replaces the form values |
| TemplatesPage.Page.AddField | app/admin/templates/page.tsx:73-76 | one default field is appended; existing fields, name and description are unchanged |
| TemplatesPage.Page.RemoveField | app/admin/templates/page.tsx:78-81 | the field at the index is removed and the others keep their order; with more than one field, as the page requires, at least one remains |
| TemplatesPage.Page.Edit | app/admin/templates/page.tsx:287-290 | the template is selected, its values fill the form and become its defaults, and the dialog opens |
| TemplatesPage.Page.SetDialogOpen | app/admin/templates/page.tsx:129 | opening or closing the dialog changes nothing else, not even the selection |
| TemplatesPage.Page.Submit | app/admin/templates/page.tsx:83-106 | update when a template is selected, create otherwise; success toasts, reloads, resets the form, clears the selection and closes the dialog; failure shows one error toast and keeps selection, dialog and form; loading ends false |
| TemplatesPage.Page.HandleSubmit | app/admin/templates/page.tsx:140 | an invalid form sends nothing and changes nothing; a valid one is saved |
| TemplatesPage.Page.HandleDelete | app/admin/templates/page.tsx:108-122 | nothing happens without confirmation; else a delete of the item path, then a success toast and a reload, or one error toast |
| CategoriesPage.CategoryIssues | app/admin/categories/page.tsx:16-19 | a category form is valid exactly when the name has two characters; the description is free |
| CategoriesPage.SaveError | app/admin/categories/page.tsx:76-81 | a failed save reports the role error, else the session error, else the API error |
| CategoriesPage.SaveRequests | app/admin/categories/page.tsx:66-72 | a save sends nothing for a non-admin or without a session, else exactly one request with the ID token: a PUT to the selected category's URL or a POST to the collection |
| CategoriesPage.ListRequests | app/admin/categories/page.tsx:50-53 | a load sends at most one request, and none when the session cannot be read |
| CategoriesPage.Page.constructor | app/admin/categories/page.tsx:29-38 | the page starts with no categories, no selection and an empty form |
| CategoriesPage.Page.CheckAdminStatus | app/admin/categories/page.tsx:45-48 | the admin flag is what the role check answers now |
| CategoriesPage.Page.LoadCategories | app/admin/categories/page.tsx:50-61 | the list is replaced by the reply, or kept unchanged with exactly one error toast |
| CategoriesPage.Page.Input | app/admin/categories/page.tsx:122 | typing replaces the form values |
| CategoriesPage.Page.Edit | app/admin/categories/page.tsx:163 | choosing edit only sets the selection; the form keeps its values |
| CategoriesPage.Page.Submit | app/admin/categories/page.tsx:63-85 | update when a category is selected, create otherwise; success toasts, reloads, empties the form and clears the selection; failure shows one error toast and keeps the selection and form; loading ends false |
| CategoriesPage.Page.HandleSubmit | app/admin/categories/page.tsx:119 | a short name sends nothing and changes nothing; a valid form is saved |
| CategoriesPage.Page.HandleDelete | app/admin/categories/page.tsx:87-101 | nothing happens without confirmation; else a delete of the item URL, then a success toast and a reload, or one error toast |

## Left out

- Rendering, dialogs, and navigation after sign-in are not modelled. Toasts are an append-only log of values. The answer of `confirm()` is a parameter.
- Timing is not modelled. Each asynchronous handler runs to completion inside one method. A reload the code starts without awaiting completes inside the method that starts it, so interleavings with later events are not covered.
- The upload batch is a sequence of events (progress, failure, settlement) that the caller may order arbitrarily. The concurrency itself is not modelled.
- axios, Amplify (`Auth.*`, `API.*`), `FormData`, `JSON.stringify`, and `URL.createObjectURL`/`revokeObjectURL` are outside code. They appear as request values, reply parameters and counter-allocated handles.
- MediaService.UploadMedia: the `metadata` part stands for the JSON text of the metadata; the serialisation is not modelled.
- react-dropzone's matching and error wording are not visible. The model admits exactly the three listed MIME types, up to 10 MiB. It gives a wrong type before a size error. The wording of a reason is a parameter.
- UploadPage.AdmissionErrors states the intended three-type rule, not the library's. react-dropzone 14 very likely admits every `image/*` type under the `'image/*'` key, so a small GIF would be accepted by the page but refused by the model.
- `Math.round` on floats is replaced by the exact integer rounding of `loaded*100/total`, halves up. Non-negative byte counts are assumed.
- zod counts string length in UTF-16 code units. The model counts characters of a Dafny string.
- A text input that was never touched is modelled as the empty string: both fields of the category form start, and are reset to, `""`. An untouched template description is modelled as absent.
- UploadPage.Page.HandleSubmit takes the metadata form's values as a parameter, so the wiring of the category select is not modelled. At app/admin/upload/page.tsx:150 the select calls the registered `onChange` with a target that has no `name`. react-hook-form looks the field up by that name, so the chosen category very likely never reaches the form values. An untouched select leaves `categoryId` undefined, which zod reports as "Required", not "Category is required". If both hold, every submission of the page fails validation. `UploadPage.MetadataIssues` cannot express an undefined value.
- zod reports an out-of-range field type with its default wording. The `InvalidType` case of `TemplatesPage.Message` spells that wording out but is not checked against the library.
- Middleware.MatcherAccepts: the `/admin/:path*` pattern is approximated as "`/admin`, or a path under `/admin/`".
- The login page, the dashboard, the admin layout, the header, the landing page and the `useCategories` hook are not part of this model. They hold forms, navigation and fixed figures without logic of their own.
- Error logging to the console is not modelled.
- No code shown here sets or clears the `authToken` cookie that the route guard reads, so the cookie's life cycle is not modelled.
- UploadPage.Page.OnSubmit requires that no batch is running. The page disables the submit button while uploading, so a second batch cannot start.
- UploadPage.Page.HandleSubmit: the valid case is stated through the number of upload calls and the captured list. The details are those of `UploadPage.Page.OnSubmit`.
- TemplatesPage.Page.HandleSubmit: the valid case states only the first request sent. The rest is what `TemplatesPage.Page.Submit` states.
- CategoriesPage.Page.HandleSubmit: the valid case states only that the save's requests are sent first. The rest is what `CategoriesPage.Page.Submit` states.
- `isLoading` is true only while a save is in flight. Because handlers run atomically, the model shows only its final value, false.
