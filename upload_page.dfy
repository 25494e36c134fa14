/** The upload page of app/admin/upload/page.tsx: file admission, the list of
    pending files with their preview handles, and one batch submission modelled
    as the sequence of events it consists of.

    JavaScript object identity is modelled by a reference number drawn from a
    counter: a dropped `File` gets a fresh one, and every `{ ...f, progress }`
    or `{ ...f, error }` copy gets another. Preview handles (object URLs) are
    drawn from a second counter; `live` holds those not yet revoked. */
module UploadPage {
  import opened Common
  import opened Entities

  const MaxFileSize: nat := 10 * 1024 * 1024
  const AcceptedImageTypes: seq<string> := ["image/jpeg", "image/png", "image/webp"]

  const NoFilesMessage: string := "Please select at least one file to upload"
  const AllUploadedMessage: string := "All files uploaded successfully"
  const UploadFailedMessage: string := "Upload failed"

  // ---------------------------------------------------------------------------
  // Metadata form

  /** The values of the metadata form. */
  datatype MetadataForm = MetadataForm(categoryId: string, title: string, description: Option<string>)

  /** A validation issue: the field it is about and its message. */
  datatype Issue = Issue(field: string, message: string)

  /** `metadataSchema`: a category must be chosen and the title must have at
      least two characters; the description is free. */
  function MetadataIssues(m: MetadataForm): (issues: seq<Issue>)
    ensures issues == [] <==> |m.categoryId| >= 1 && |m.title| >= 2
    ensures Issue("categoryId", "Category is required") in issues <==> |m.categoryId| < 1
    ensures Issue("title", "Title is required") in issues <==> |m.title| < 2
    ensures |issues| <= 2
  {
    (if |m.categoryId| >= 1 then [] else [Issue("categoryId", "Category is required")])
    + (if |m.title| >= 2 then [] else [Issue("title", "Title is required")])
  }

  /** `{ ...data, filename: file.name }`. */
  function UploadMetadata(data: MetadataForm, file: FileInfo): MediaMetadata
  {
    MediaMetadata(data.categoryId, data.title, data.description, file.name)
  }

  // ---------------------------------------------------------------------------
  // Admission of dropped files

  /** The reasons the dropzone gives for refusing a file, in the order it checks them. */
  datatype DropError = FileInvalidType | FileTooLarge

  /** A refused file and its (non-empty) list of reasons. */
  datatype Rejection = Rejection(file: FileInfo, first: DropError, rest: seq<DropError>)

  /** The reasons the configured dropzone (`accept`, `maxSize`) refuses a file. */
  function AdmissionErrors(f: FileInfo): (errors: seq<DropError>)
    ensures errors == [] <==> f.size <= MaxFileSize && f.mime in AcceptedImageTypes
    ensures FileInvalidType in errors <==> f.mime !in AcceptedImageTypes
    ensures FileTooLarge in errors <==> f.size > MaxFileSize
    ensures f.mime !in AcceptedImageTypes ==> errors[0] == FileInvalidType
  {
    (if f.mime in AcceptedImageTypes then [] else [FileInvalidType])
    + (if f.size <= MaxFileSize then [] else [FileTooLarge])
  }

  predicate Admitted(f: FileInfo)
  {
    AdmissionErrors(f) == []
  }

  /** The files the dropzone hands to `onDrop`, in drop order. */
  function Accepted(dropped: seq<FileInfo>): (accepted: seq<FileInfo>)
    ensures forall f :: f in accepted <==> f in dropped && Admitted(f)
    ensures |accepted| <= |dropped|
  {
    if dropped == [] then []
    else (if Admitted(dropped[0]) then [dropped[0]] else []) + Accepted(dropped[1..])
  }

  /** The rejections the dropzone hands to `onDropRejected`, in drop order. */
  function Rejections(dropped: seq<FileInfo>): (rejections: seq<Rejection>)
    ensures forall r :: r in rejections ==> r.file in dropped && [r.first] + r.rest == AdmissionErrors(r.file)
    ensures forall f :: f in dropped && !Admitted(f) ==> exists r :: r in rejections && r.file == f
  {
    if dropped == [] then []
    else
      var errors := AdmissionErrors(dropped[0]);
      (if errors == [] then [] else [Rejection(dropped[0], errors[0], errors[1..])]) + Rejections(dropped[1..])
  }

  /** Every dropped file lands in exactly one of the two lists. */
  lemma {:induction false} PartitionSizes(dropped: seq<FileInfo>)
    ensures |Accepted(dropped)| + |Rejections(dropped)| == |dropped|
  {
    if dropped != [] {
      PartitionSizes(dropped[1..]);
    }
  }

  /** The toast for one refused file: `${file.name}: ${errors[0].message}`,
      where `message` is the dropzone's wording of a reason. */
  function RejectionToast(r: Rejection, message: DropError -> string): Toast
  {
    ErrorToast(r.file.name + ": " + message(r.first))
  }

  /** One toast per refused file, in the order the files were refused. */
  function RejectionToasts(rejections: seq<Rejection>, message: DropError -> string): (ts: seq<Toast>)
    ensures |ts| == |rejections|
    ensures forall i :: 0 <= i < |rejections| ==> ts[i] == RejectionToast(rejections[i], message)
  {
    seq(|rejections|, i requires 0 <= i < |rejections| => RejectionToast(rejections[i], message))
  }

  // ---------------------------------------------------------------------------
  // The list of pending files

  type Ref = nat
  type Handle = nat

  /** One element of `files`. `file` is the `File` behind it: a copy made by
      object spread keeps only the own properties (preview, progress, error),
      so a copy has none. */
  datatype Entry = Entry(ref: Ref, file: Option<FileInfo>, preview: Handle, progress: Option<int>, error: Option<string>)

  /** The update a per-file callback applies. */
  datatype Update = Progress(percent: int) | Failed

  /** One call of `MediaService.uploadMedia`: the file, its metadata, and the
      identity the call's callbacks compare list entries against. */
  datatype UploadCall = UploadCall(target: Ref, file: FileInfo, metadata: MediaMetadata)

  function NewEntries(accepted: seq<FileInfo>, firstRef: Ref, firstHandle: Handle): (entries: seq<Entry>)
    ensures |entries| == |accepted|
  {
    seq(|accepted|, i requires 0 <= i < |accepted| => Entry(firstRef + i, Some(accepted[i]), firstHandle + i, Some(0), None))
  }

  /** Each accepted file becomes one entry, in order, with progress 0, no error,
      and an identity and a preview drawn fresh from the counters. */
  lemma NewEntriesFresh(accepted: seq<FileInfo>, firstRef: Ref, firstHandle: Handle)
    ensures forall i :: 0 <= i < |accepted| ==>
      && NewEntries(accepted, firstRef, firstHandle)[i].file == Some(accepted[i])
      && NewEntries(accepted, firstRef, firstHandle)[i].progress == Some(0)
      && NewEntries(accepted, firstRef, firstHandle)[i].error == None
      && firstRef <= NewEntries(accepted, firstRef, firstHandle)[i].ref < firstRef + |accepted|
      && firstHandle <= NewEntries(accepted, firstRef, firstHandle)[i].preview < firstHandle + |accepted|
    ensures DistinctRefs(NewEntries(accepted, firstRef, firstHandle))
    ensures DistinctPreviews(NewEntries(accepted, firstRef, firstHandle))
  {
  }

  ghost function Previews(s: seq<Entry>): set<Handle>
  {
    set e | e in s :: e.preview
  }

  /** The prefix of the new entries grows by the entry built from the next file. */
  lemma NewEntriesStep(accepted: seq<FileInfo>, firstRef: Ref, firstHandle: Handle, i: nat)
    requires i < |accepted|
    ensures NewEntries(accepted, firstRef, firstHandle)[..i + 1]
         == NewEntries(accepted, firstRef, firstHandle)[..i] + [Entry(firstRef + i, Some(accepted[i]), firstHandle + i, Some(0), None)]
  {
    var entries := NewEntries(accepted, firstRef, firstHandle);
    assert entries[..i + 1] == entries[..i] + [entries[i]];
  }

  lemma PreviewsSnoc(s: seq<Entry>, e: Entry)
    ensures Previews(s + [e]) == Previews(s) + {e.preview}
  {
    assert forall x :: x in s + [e] <==> x in s || x == e;
  }

  ghost predicate DistinctRefs(s: seq<Entry>)
  {
    forall i, j :: 0 <= i < j < |s| ==> s[i].ref != s[j].ref
  }

  ghost predicate DistinctPreviews(s: seq<Entry>)
  {
    forall i, j :: 0 <= i < j < |s| ==> s[i].preview != s[j].preview
  }

  /** `files.filter(f => f !== file)`. */
  function Without(s: seq<Entry>, target: Ref): (r: seq<Entry>)
    ensures forall e :: e in r <==> e in s && e.ref != target
    ensures |r| <= |s|
  {
    if s == [] then []
    else (if s[0].ref == target then [] else [s[0]]) + Without(s[1..], target)
  }

  /** The list without position `k`. */
  ghost function RemoveAt(s: seq<Entry>, k: nat): (r: seq<Entry>)
    requires k < |s|
    ensures |r| == |s| - 1
  {
    s[..k] + s[k + 1..]
  }

  lemma DistinctRefsTail(s: seq<Entry>)
    requires DistinctRefs(s) && s != []
    ensures DistinctRefs(s[1..])
  {
    forall i, j | 0 <= i < j < |s| - 1 ensures s[1..][i].ref != s[1..][j].ref {
      assert s[1..][i] == s[i + 1] && s[1..][j] == s[j + 1];
    }
  }

  lemma RemoveAtCons(s: seq<Entry>, k: nat)
    requires 0 < k < |s|
    ensures RemoveAt(s, k) == [s[0]] + RemoveAt(s[1..], k - 1)
  {
    assert s[1..][..k - 1] == s[1..k];
    assert s[1..][k..] == s[k + 1..];
    assert [s[0]] + s[1..k] == s[..k];
  }

  /** Removing the head by its identity, when no other entry shares it. */
  lemma WithoutHead(s: seq<Entry>)
    requires DistinctRefs(s) && s != []
    ensures Without(s, s[0].ref) == RemoveAt(s, 0)
  {
    forall i | 0 <= i < |s| - 1 ensures s[1..][i].ref != s[0].ref {
      assert s[1..][i] == s[i + 1];
    }
    WithoutAbsent(s[1..], s[0].ref);
    assert s[..0] + s[1..] == s[1..];
  }

  /** With distinct identities, removing an entry by identity removes exactly
      that position and keeps the others in order. */
  lemma {:induction false} WithoutAt(s: seq<Entry>, k: nat)
    requires DistinctRefs(s) && k < |s|
    ensures Without(s, s[k].ref) == RemoveAt(s, k)
  {
    if k == 0 {
      WithoutHead(s);
    } else {
      var target := s[k].ref;
      assert s[0].ref != target;
      assert Without(s, target) == [s[0]] + Without(s[1..], target);
      DistinctRefsTail(s);
      assert s[1..][k - 1] == s[k];
      WithoutAt(s[1..], k - 1);
      RemoveAtCons(s, k);
    }
  }

  lemma {:induction false} WithoutAbsent(s: seq<Entry>, target: Ref)
    requires forall i :: 0 <= i < |s| ==> s[i].ref != target
    ensures Without(s, target) == s
  {
    if s != [] {
      WithoutAbsent(s[1..], target);
      assert [s[0]] + s[1..] == s;
    }
  }

  /** Removing position `k` keeps every other entry, keeps identities and
      previews distinct, and (previews being distinct) removes exactly that
      entry's preview. */
  lemma RemoveAtFacts(s: seq<Entry>, k: nat)
    requires DistinctRefs(s) && DistinctPreviews(s) && k < |s|
    ensures forall i :: 0 <= i < |s| - 1 ==> RemoveAt(s, k)[i] in s
    ensures DistinctRefs(RemoveAt(s, k)) && DistinctPreviews(RemoveAt(s, k))
    ensures Previews(RemoveAt(s, k)) == Previews(s) - {s[k].preview}
  {
    var t := RemoveAt(s, k);
    forall i | 0 <= i < |t| ensures t[i] == s[if i < k then i else i + 1] {
    }
    forall h | h in Previews(s) && h != s[k].preview ensures h in Previews(t) {
      var j :| 0 <= j < |s| && s[j].preview == h;
      if j < k { assert t[j] == s[j]; } else { assert t[j - 1] == s[j]; }
    }
  }

  /** The copy `{ ...f, progress }` or `{ ...f, error: 'Upload failed' }`. */
  function Copy(e: Entry, u: Update, newRef: Ref): (c: Entry)
    ensures c.ref == newRef && c.file == None && c.preview == e.preview
    ensures u.Progress? ==> c.progress == Some(u.percent) && c.error == e.error
    ensures u.Failed? ==> c.error == Some(UploadFailedMessage) && c.progress == e.progress
  {
    Entry(newRef, None, e.preview,
          if u.Progress? then Some(u.percent) else e.progress,
          if u.Failed? then Some(UploadFailedMessage) else e.error)
  }

  /** `prev.map(f => f === file ? copy of f : f)`. */
  function Rewrite(s: seq<Entry>, target: Ref, u: Update, newRef: Ref): (r: seq<Entry>)
    ensures |r| == |s|
  {
    seq(|s|, i requires 0 <= i < |s| => if s[i].ref == target then Copy(s[i], u, newRef) else s[i])
  }

  /** Only the first update of a file lands: the copy it leaves has a new
      identity, so every later update for the same file matches nothing. */
  lemma FirstUpdateWins(s: seq<Entry>, target: Ref, u1: Update, u2: Update, newRef1: Ref, newRef2: Ref)
    requires newRef1 != target
    ensures Rewrite(Rewrite(s, target, u1, newRef1), target, u2, newRef2) == Rewrite(s, target, u1, newRef1)
  {
    var once := Rewrite(s, target, u1, newRef1);
    forall i | 0 <= i < |once|
      ensures once[i].ref != target
    {
    }
  }

  /** A rewrite touches only the entry identical to the target: every other
      entry keeps its position and value, and no entry's preview changes. */
  lemma RewriteFrame(s: seq<Entry>, target: Ref, u: Update, newRef: Ref)
    ensures forall i :: 0 <= i < |s| && s[i].ref != target ==> Rewrite(s, target, u, newRef)[i] == s[i]
    ensures forall i :: 0 <= i < |s| ==> Rewrite(s, target, u, newRef)[i].preview == s[i].preview
    ensures Previews(Rewrite(s, target, u, newRef)) == Previews(s)
  {
    var r := Rewrite(s, target, u, newRef);
    forall h | h in Previews(s) ensures h in Previews(r) {
      var i :| 0 <= i < |s| && s[i].preview == h;
      assert r[i] in r;
    }
    forall h | h in Previews(r) ensures h in Previews(s) {
      var i :| 0 <= i < |r| && r[i].preview == h;
      assert s[i] in s;
    }
  }

  // ---------------------------------------------------------------------------
  // One batch submission, as values

  /** How one per-file promise of the batch settles. */
  datatype Settlement = Fulfilled | Rejected(reason: Exception)

  /** The per-file async function: `await uploadMedia(...)` inside a
      try/catch whose handler only marks the entry. */
  function FileTask(upload: Outcome<()>): (s: Settlement)
    ensures s == Fulfilled
  {
    match upload
    case Ok(_) => Fulfilled
    case Throw(_) => Fulfilled
  }

  /** `Promise.all`: rejects exactly when one of its promises rejects. */
  function All(settlements: seq<Settlement>): (s: Settlement)
    ensures s.Rejected? <==> exists i :: 0 <= i < |settlements| && settlements[i].Rejected?
  {
    if settlements == [] then Fulfilled
    else if settlements[0].Rejected? then settlements[0]
    else All(settlements[1..])
  }

  /** Whatever each upload does, the batch's `Promise.all` fulfils, so the
      "Some files failed" branch is never taken. */
  lemma BatchNeverRejects(uploads: seq<Outcome<()>>)
    ensures All(seq(|uploads|, i requires 0 <= i < |uploads| => FileTask(uploads[i]))) == Fulfilled
  {
    var tasks := seq(|uploads|, i requires 0 <= i < |uploads| => FileTask(uploads[i]));
    assert forall i :: 0 <= i < |tasks| ==> tasks[i] == FileTask(uploads[i]);
  }

  /** The upload calls a submission makes: one per entry, in list order, each
      for that entry's file with the form data and the file's name. */
  function UploadCalls(snapshot: seq<Entry>, data: MetadataForm): (calls: seq<UploadCall>)
    requires forall i :: 0 <= i < |snapshot| ==> snapshot[i].file.Some?
    ensures |calls| == |snapshot|
    ensures forall i :: 0 <= i < |snapshot| ==> calls[i].target == snapshot[i].ref && calls[i].file == snapshot[i].file.value
    ensures forall i :: 0 <= i < |snapshot| ==> calls[i].metadata.filename == snapshot[i].file.value.name
    ensures forall i :: 0 <= i < |snapshot| ==>
      && calls[i].metadata.categoryId == data.categoryId
      && calls[i].metadata.title == data.title
      && calls[i].metadata.description == data.description
  {
    seq(|snapshot|, i requires 0 <= i < |snapshot| && snapshot[i].file.Some? =>
      UploadCall(snapshot[i].ref, snapshot[i].file.value, UploadMetadata(data, snapshot[i].file.value)))
  }

  /** `files.map(file => MediaService.uploadMedia({ file, metadata: { ...data,
      filename: file.name }, onProgress }))`. */
  method StartUploads(snapshot: seq<Entry>, data: MetadataForm) returns (calls: seq<UploadCall>)
    requires forall i :: 0 <= i < |snapshot| ==> snapshot[i].file.Some?
    ensures calls == UploadCalls(snapshot, data)
  {
    calls := [];
    for i := 0 to |snapshot|
      invariant |calls| == i
      invariant forall j :: 0 <= j < i ==> calls[j] == UploadCall(snapshot[j].ref, snapshot[j].file.value, UploadMetadata(data, snapshot[j].file.value))
    {
      var file := snapshot[i].file.value;
      calls := calls + [UploadCall(snapshot[i].ref, file, UploadMetadata(data, file))];
    }
  }

  /** What every reachable state of the upload page satisfies: entries have
      distinct identities and previews drawn from the counters; the live
      object URLs are those of the listed entries plus the leaked ones; and
      while idle no batch is held and every entry still carries its `File`. */
  ghost predicate PageInvariant(files: seq<Entry>, isUploading: bool, live: set<Handle>, batch: seq<Entry>,
                                nextRef: Ref, nextHandle: Handle, leaked: set<Handle>)
  {
    && DistinctRefs(files)
    && DistinctPreviews(files)
    && (forall i :: 0 <= i < |files| ==> files[i].ref < nextRef && files[i].preview < nextHandle)
    && (forall h :: h in live ==> h < nextHandle)
    && live == Previews(files) + leaked
    && Previews(files) !! leaked
    && (isUploading ==> Previews(batch) !! leaked)
    && (!isUploading ==> batch == [] && forall i :: 0 <= i < |files| ==> files[i].file.Some?)
  }

  /** Removing one listed entry and revoking its preview keeps the invariant. */
  lemma RemovePreservesInvariant(files: seq<Entry>, k: nat, isUploading: bool, live: set<Handle>, batch: seq<Entry>,
                                 nextRef: Ref, nextHandle: Handle, leaked: set<Handle>)
    requires PageInvariant(files, isUploading, live, batch, nextRef, nextHandle, leaked) && k < |files|
    ensures PageInvariant(RemoveAt(files, k), isUploading, live - {files[k].preview}, batch, nextRef, nextHandle, leaked)
  {
    RemoveAtFacts(files, k);
    assert files[k].preview in Previews(files);
  }

  /** Appending freshly numbered entries, and making their previews live,
      keeps the invariant once both counters move past them. */
  lemma AppendPreservesInvariant(files: seq<Entry>, isUploading: bool, live: set<Handle>, batch: seq<Entry>,
                                 nextRef: Ref, nextHandle: Handle, leaked: set<Handle>, accepted: seq<FileInfo>)
    requires PageInvariant(files, isUploading, live, batch, nextRef, nextHandle, leaked)
    ensures PageInvariant(files + NewEntries(accepted, nextRef, nextHandle), isUploading,
                          live + Previews(NewEntries(accepted, nextRef, nextHandle)), batch,
                          nextRef + |accepted|, nextHandle + |accepted|, leaked)
  {
    var added := NewEntries(accepted, nextRef, nextHandle);
    var all := files + added;
    assert Previews(all) == Previews(files) + Previews(added);
    forall h | h in Previews(added) ensures nextHandle <= h < nextHandle + |accepted| {
      var j :| 0 <= j < |added| && added[j].preview == h;
    }
    forall i, j | 0 <= i < j < |all| ensures all[i].ref != all[j].ref && all[i].preview != all[j].preview {
      if j >= |files| && i < |files| {
        assert all[j] == added[j - |files|];
      }
    }
  }

  // ---------------------------------------------------------------------------
  // The page

  class Page {
    var files: seq<Entry>
    var isUploading: bool
    var toasts: seq<Toast>
    /** The calls made to `MediaService.uploadMedia`, in order. */
    var uploads: seq<UploadCall>
    /** Object URLs created and not yet revoked. */
    var live: set<Handle>
    /** The `files` list the running submission captured (empty when idle). */
    var batch: seq<Entry>
    var nextRef: Ref
    var nextHandle: Handle
    /** Live object URLs that no entry of `files` holds any more. */
    ghost var leaked: set<Handle>

    ghost predicate Valid()
      reads this`files, this`isUploading, this`live, this`batch, this`nextRef, this`nextHandle, this`leaked
    {
      PageInvariant(files, isUploading, live, batch, nextRef, nextHandle, leaked)
    }

    constructor ()
      ensures Valid()
      ensures files == [] && !isUploading && toasts == [] && uploads == [] && live == {} && leaked == {}
    {
      files, isUploading, toasts, uploads := [], false, [], [];
      live, batch, nextRef, nextHandle := {}, [], 0, 0;
      leaked := {};
    }

    /** `onDrop(acceptedFiles)`: each file gets a fresh preview and progress 0
        and is appended after the existing entries. */
    method OnDrop(accepted: seq<FileInfo>)
      requires Valid()
      modifies this`files, this`live, this`nextRef, this`nextHandle
      ensures Valid()
      ensures files == old(files) + NewEntries(accepted, old(nextRef), old(nextHandle))
      ensures live == old(live) + Previews(NewEntries(accepted, old(nextRef), old(nextHandle)))
      ensures nextRef == old(nextRef) + |accepted| && nextHandle == old(nextHandle) + |accepted|
    {
      ghost var entries := NewEntries(accepted, nextRef, nextHandle);
      AppendPreservesInvariant(files, isUploading, live, batch, nextRef, nextHandle, leaked, accepted);
      var newFiles: seq<Entry> := [];
      var previews: set<Handle> := {};
      var i := 0;
      while i < |accepted|
        invariant 0 <= i <= |accepted|
        invariant newFiles == entries[..i]
        invariant previews == Previews(newFiles)
        modifies {}
      {
        var e := Entry(nextRef + i, Some(accepted[i]), nextHandle + i, Some(0), None);
        NewEntriesStep(accepted, nextRef, nextHandle, i);
        PreviewsSnoc(newFiles, e);
        previews := previews + {e.preview};
        newFiles := newFiles + [e];
        i := i + 1;
      }
      assert newFiles == entries;
      live := live + previews;
      files := files + newFiles;
      nextRef := nextRef + |accepted|;
      nextHandle := nextHandle + |accepted|;
    }

    /** `onDropRejected(rejectedFiles)`: one error toast per refused file. */
    method OnDropRejected(rejections: seq<Rejection>, message: DropError -> string)
      modifies this`toasts
      ensures toasts == old(toasts) + RejectionToasts(rejections, message)
    {
      var i := 0;
      while i < |rejections|
        invariant 0 <= i <= |rejections|
        invariant toasts == old(toasts) + seq(i, j requires 0 <= j < i => RejectionToast(rejections[j], message))
      {
        toasts := toasts + [RejectionToast(rejections[i], message)];
        i := i + 1;
      }
    }

    /** One drop on the zone: the admitted files go to `onDrop`, then each
        refused one raises its toast. */
    method Drop(dropped: seq<FileInfo>, message: DropError -> string)
      requires Valid()
      modifies this`files, this`live, this`nextRef, this`nextHandle, this`toasts
      ensures Valid()
      ensures files == old(files) + NewEntries(Accepted(dropped), old(nextRef), old(nextHandle))
      ensures |toasts| == |old(toasts)| + |dropped| - |Accepted(dropped)|
      ensures toasts == old(toasts) + RejectionToasts(Rejections(dropped), message)
    {
      OnDrop(Accepted(dropped));
      assert Valid();
      OnDropRejected(Rejections(dropped), message);
      PartitionSizes(dropped);
    }

    /** `removeFile(file)`: drop the entry identical to `file` and revoke its preview. */
    method RemoveFile(f: Entry)
      requires Valid() && f in files
      modifies this`files, this`live
      ensures Valid()
      ensures files == Without(old(files), f.ref)
      ensures live == old(live) - {f.preview}
    {
      ghost var k :| 0 <= k < |files| && files[k] == f;
      WithoutAt(files, k);
      RemovePreservesInvariant(files, k, isUploading, live, batch, nextRef, nextHandle, leaked);
      files := Without(files, f.ref);
      live := live - {f.preview};
    }

    /** `onSubmit(data)`, reached only with data the schema accepted. */
    method OnSubmit(data: MetadataForm)
      requires Valid() && !isUploading && MetadataIssues(data) == []
      modifies this`toasts, this`isUploading, this`batch, this`uploads
      ensures Valid()
      ensures old(files) == [] ==> toasts == old(toasts) + [ErrorToast(NoFilesMessage)] && !isUploading && uploads == old(uploads)
      ensures old(files) != [] ==> isUploading && batch == old(files) && toasts == old(toasts)
      ensures old(files) != [] ==> uploads == old(uploads) + UploadCalls(old(files), data)
    {
      if |files| == 0 {
        toasts := toasts + [ErrorToast(NoFilesMessage)];
        return;
      }
      isUploading := true;
      batch := files;
      var calls := StartUploads(files, data);
      uploads := uploads + calls;
    }

    /** `handleSubmit(onSubmit)`: schema issues stop the submission before any
        upload and change nothing here. */
    method HandleSubmit(data: MetadataForm)
      requires Valid() && !isUploading
      modifies this`toasts, this`isUploading, this`batch, this`uploads
      ensures Valid()
      ensures MetadataIssues(data) != [] ==> files == old(files) && uploads == old(uploads) && toasts == old(toasts) && !isUploading
      ensures MetadataIssues(data) == [] && old(files) != [] ==> isUploading && batch == old(files)
      ensures |uploads| == |old(uploads)| + (if MetadataIssues(data) == [] then |old(files)| else 0)
    {
      if MetadataIssues(data) != [] {
        return;
      }
      OnSubmit(data);
    }

    /** An `onProgress(percent)` callback of the upload call for `batch[k]`. */
    method OnUploadProgress(k: nat, percent: int)
      requires Valid() && isUploading && k < |batch|
      modifies this`files, this`nextRef
      ensures Valid()
      ensures files == Rewrite(old(files), old(batch)[k].ref, Progress(percent), old(nextRef))
      ensures nextRef == old(nextRef) + 1
    {
      Apply(batch[k].ref, Progress(percent));
    }

    /** The catch handler of the upload call for `batch[k]`. */
    method OnUploadFailed(k: nat)
      requires Valid() && isUploading && k < |batch|
      modifies this`files, this`nextRef
      ensures Valid()
      ensures files == Rewrite(old(files), old(batch)[k].ref, Failed, old(nextRef))
      ensures nextRef == old(nextRef) + 1
    {
      Apply(batch[k].ref, Failed);
    }

    /** `setFiles(prev => prev.map(f => f === file ? copy : f))`. */
    method Apply(target: Ref, u: Update)
      requires Valid() && isUploading
      modifies this`files, this`nextRef
      ensures Valid()
      ensures files == Rewrite(old(files), target, u, old(nextRef))
      ensures nextRef == old(nextRef) + 1
    {
      RewriteFrame(files, target, u, nextRef);
      files := Rewrite(files, target, u, nextRef);
      nextRef := nextRef + 1;
    }

    /** `Promise.all` has fulfilled (it always does): the success toast, every
        captured preview revoked, the list emptied, `isUploading` back to false.
        Previews of files dropped while the batch ran are not revoked. */
    method OnBatchSettled()
      requires Valid() && isUploading
      modifies this`toasts, this`live, this`files, this`leaked, this`batch, this`isUploading
      ensures Valid()
      ensures files == [] && !isUploading && batch == []
      ensures toasts == old(toasts) + [SuccessToast(AllUploadedMessage)]
      ensures live == old(live) - Previews(old(batch))
      ensures leaked == old(leaked) + (Previews(old(files)) - Previews(old(batch)))
    {
      toasts := toasts + [SuccessToast(AllUploadedMessage)];
      var i := 0;
      while i < |batch|
        invariant 0 <= i <= |batch|
        invariant live == old(live) - Previews(batch[..i])
        invariant files == old(files) && batch == old(batch) && isUploading && leaked == old(leaked)
        invariant toasts == old(toasts) + [SuccessToast(AllUploadedMessage)]
      {
        assert batch[..i + 1] == batch[..i] + [batch[i]];
        live := live - {batch[i].preview};
        i := i + 1;
      }
      assert batch[..i] == batch;
      files := [];
      leaked := live;
      batch := [];
      isUploading := false;
    }
  }
}
