/**
 * The files page (client/src/components/files/FilesPage.tsx): a cached list of stored files, the
 * counter of the current upload batch and a flag saying the list is stale. One effect refreshes a
 * stale list; another marks the list stale whenever the counter shows every upload of a batch
 * done. Deleting filters the list at once; running the indexer touches nothing.
 */
module Files {
  import opened Wrappers
  import opened Seqs

  /** `BlobFile`, one entry of the listing. */
  datatype BlobFile = BlobFile(name: string, size: nat, lastModified: string, creationTime: string, contentMd5: Option<string>)

  /** A file chosen in the file picker. */
  datatype LocalFile = LocalFile(name: string)

  /** The requests the page issues. */
  datatype FilesRequest = ListFiles | Upload(file: LocalFile) | DeleteFile(name: string) | RunIndexer

  /** Method and path of each request. */
  function Endpoint(r: FilesRequest): (string, string) {
    match r
    case ListFiles => ("GET", "/api/v1/files/list")
    case Upload(_) => ("POST", "/api/v1/files/upload")
    case DeleteFile(name) => ("POST", "/api/v1/files/" + name + "/delete")
    case RunIndexer => ("POST", "/api/v1/indexer/run")
  }

  /**
   * `uploadFilesStatus`. `NoBatch` is the initial `{total: NaN, done: NaN}`: adding one to `NaN`
   * gives `NaN`, and `NaN == NaN` is false, so it never reads as complete.
   */
  datatype UploadStatus = NoBatch | Counter(total: nat, done: nat)

  /** `uploadFilesStatus.total == uploadFilesStatus.done` */
  predicate AllUploaded(u: UploadStatus) {
    u.Counter? && u.total == u.done
  }

  /** `{...u, done: u.done + 1}` */
  function Bumped(u: UploadStatus): UploadStatus {
    match u
    case NoBatch => NoBatch
    case Counter(total, done) => Counter(total, done + 1)
  }

  /** How the listing request settles: a parsed envelope, or a fault. */
  datatype ListReply = ListEnvelope(success: bool, body: seq<BlobFile>) | ListFault

  /** `storedFiles`, `uploadFilesStatus`, `staleStoredFiles`. */
  datatype FilesState = FilesState(files: seq<BlobFile>, upload: UploadStatus, stale: bool)

  function Initial(): FilesState {
    FilesState([], NoBatch, true)
  }

  function NameIsNot(name: string): BlobFile -> bool {
    (f: BlobFile) => f.name != name
  }

  /** `storedFiles.filter(f => f.name != name)` */
  function WithoutName(files: seq<BlobFile>, name: string): seq<BlobFile> {
    Filter(files, NameIsNot(name))
  }

  /** The effect on `uploadFilesStatus`. */
  function CompletionChecked(s: FilesState): FilesState {
    if AllUploaded(s.upload) then s.(stale := true) else s
  }

  /** The effect on `staleStoredFiles`, with the listing request settled by `reply`. */
  function Refreshed(s: FilesState, reply: ListReply): FilesState {
    if !s.stale then s
    else
      var files := if reply.ListEnvelope? && reply.success then reply.body else s.files;
      FilesState(files, s.upload, false)
  }

  /** The picker's onChange for `count` files, followed by the counter's effect. */
  function BatchStarted(s: FilesState, count: nat): FilesState {
    if count == 0 then s else CompletionChecked(s.(upload := Counter(count, 0)))
  }

  /** An upload's `.finally`, followed by the counter's effect. */
  function UploadSettled(s: FilesState): FilesState {
    CompletionChecked(s.(upload := Bumped(s.upload)))
  }

  /** A delete button's onClick. */
  function Deleted(s: FilesState, name: string): FilesState {
    s.(files := WithoutName(s.files, name))
  }

  /** `k` upload completions in a row. */
  function Completions(s: FilesState, k: nat): FilesState {
    if k == 0 then s else UploadSettled(Completions(s, k - 1))
  }

  // ---------------------------------------------------------------------------------------------
  // Properties.

  /** The page starts empty and stale; the sentinel counter does not complete. */
  lemma InitialState()
    ensures Initial().files == [] && Initial().stale
    ensures !AllUploaded(Initial().upload) && !AllUploaded(Bumped(Initial().upload))
    ensures CompletionChecked(Initial()) == Initial()
  {
  }

  lemma FreshListIsNotRefreshed(s: FilesState, reply: ListReply)
    requires !s.stale
    ensures Refreshed(s, reply) == s
  {
  }

  /** A stale refresh takes the body of a success envelope, keeps the list otherwise, and ends fresh. */
  lemma RefreshOutcome(s: FilesState, reply: ListReply)
    requires s.stale
    ensures var r := Refreshed(s, reply);
      && !r.stale && r.upload == s.upload
      && r.files == (if reply.ListEnvelope? && reply.success then reply.body else s.files)
  {
  }

  lemma EmptyPickChangesNothing(s: FilesState)
    ensures BatchStarted(s, 0) == s
  {
  }

  /** Starting a batch resets the counter and does not by itself mark the list stale. */
  lemma BatchStartResetsCounter(s: FilesState, count: nat)
    requires count > 0
    ensures BatchStarted(s, count) == s.(upload := Counter(count, 0))
  {
  }

  /**
   * After `k` of a batch's `count` uploads have settled, successfully or not, the counter reads
   * `{count, k}`, and the list has been marked stale exactly when `k == count`.
   */
  lemma {:induction false} BatchAccounting(s: FilesState, count: nat, k: nat)
    requires count > 0 && k <= count
    ensures var r := Completions(BatchStarted(s, count), k);
      && r.upload == Counter(count, k)
      && r.stale == (s.stale || k == count)
      && r.files == s.files
  {
    if k > 0 {
      BatchAccounting(s, count, k - 1);
    }
  }

  /** Three uploads settle, the list goes stale, and a failed refresh keeps the old list. */
  lemma ThreeFileBatch(s: FilesState)
    requires !s.stale
    ensures var done := Completions(BatchStarted(s, 3), 3);
      && done.upload == Counter(3, 3) && done.stale
      && Refreshed(done, ListFault) == s.(upload := Counter(3, 3))
  {
    BatchAccounting(s, 3, 3);
  }

  /**
   * Deleting `name` drops every entry of that name and keeps every other entry as often as it
   * occurred, in its original order, whatever the request's outcome.
   */
  lemma DeleteFiltersByName(s: FilesState, name: string)
    ensures var r := Deleted(s, name);
      && r.upload == s.upload && r.stale == s.stale
      && (forall i :: 0 <= i < |r.files| ==> r.files[i].name != name)
      && IsSubsequence(r.files, s.files)
      && (forall f: BlobFile :: multiset(r.files)[f] == if f.name == name then 0 else multiset(s.files)[f])
  {
    var r := Deleted(s, name).files;
    FilterIsSubsequence(s.files, NameIsNot(name));
    forall f: BlobFile ensures multiset(r)[f] == if f.name == name then 0 else multiset(s.files)[f] {
      FilterCount(s.files, NameIsNot(name), f);
    }
  }

  /** The uploads the picker's loop issues: one per file, in order. */
  method UploadRequests(picked: seq<LocalFile>) returns (requests: seq<FilesRequest>)
    ensures |requests| == |picked|
    ensures forall i :: 0 <= i < |picked| ==> requests[i] == Upload(picked[i])
  {
    requests := [];
    for i := 0 to |picked|
      invariant |requests| == i
      invariant forall j :: 0 <= j < i ==> requests[j] == Upload(picked[j])
    {
      requests := requests + [Upload(picked[i])];
    }
  }

  // ---------------------------------------------------------------------------------------------
  // The component. React runs RefreshEffect after every render in which `staleStoredFiles`
  // changed (and on mount), with the reply that settles its listing request.

  class FilesPage {
    var storedFiles: seq<BlobFile>
    var uploadFilesStatus: UploadStatus
    var staleStoredFiles: bool

    function State(): FilesState
      reads this
    {
      FilesState(storedFiles, uploadFilesStatus, staleStoredFiles)
    }

    constructor ()
      ensures State() == Initial()
    {
      storedFiles := [];
      uploadFilesStatus := NoBatch;
      staleStoredFiles := true;
    }

    method RefreshEffect(reply: ListReply) returns (request: Option<FilesRequest>)
      modifies this
      ensures request == if old(staleStoredFiles) then Some(ListFiles) else None
      ensures request.Some? ==> Endpoint(request.value) == ("GET", "/api/v1/files/list")
      ensures State() == Refreshed(old(State()), reply)
    {
      if !staleStoredFiles {
        return None;
      }
      request := Some(ListFiles);
      if reply.ListEnvelope? && reply.success {
        storedFiles := reply.body;
      }
      staleStoredFiles := false;
    }

    method CompletionEffect()
      modifies this
      ensures State() == CompletionChecked(old(State()))
    {
      if AllUploaded(uploadFilesStatus) {
        staleStoredFiles := true;
      }
    }

    /** `event.target.files ?? []`: reset the counter and issue one upload per file. */
    method OnFilesPicked(picked: Option<seq<LocalFile>>) returns (uploads: seq<FilesRequest>)
      modifies this
      ensures State() == BatchStarted(old(State()), |picked.GetOr([])|)
      ensures |uploads| == |picked.GetOr([])|
      ensures forall i :: 0 <= i < |uploads| ==> uploads[i] == Upload(picked.value[i])
      ensures forall i :: 0 <= i < |uploads| ==> Endpoint(uploads[i]) == ("POST", "/api/v1/files/upload")
    {
      var files := picked.GetOr([]);
      if |files| == 0 {
        return [];
      }
      uploadFilesStatus := Counter(|files|, 0);
      uploads := UploadRequests(files);
      CompletionEffect();
    }

    method OnUploadSettled()
      modifies this
      ensures State() == UploadSettled(old(State()))
    {
      uploadFilesStatus := Bumped(uploadFilesStatus);
      CompletionEffect();
    }

    method OnDeleteClick(name: string) returns (request: FilesRequest)
      modifies this
      ensures request == DeleteFile(name)
      ensures Endpoint(request) == ("POST", "/api/v1/files/" + name + "/delete")
      ensures State() == Deleted(old(State()), name)
    {
      storedFiles := WithoutName(storedFiles, name);
      request := DeleteFile(name);
    }

    /** Fire-and-forget: the page's state is not in any frame of this method. */
    method OnRunIndexerClick() returns (request: FilesRequest)
      ensures request == RunIndexer && Endpoint(request) == ("POST", "/api/v1/indexer/run")
    {
      request := RunIndexer;
    }
  }
}
