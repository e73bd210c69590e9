/** The callback surface a sync engine implements (`SyncFilter`): one callback per
    operation kind. Terminating callbacks receive a ticket and return a `CResult`; notifying
    callbacks receive no ticket and return nothing. Every callback except `fetch_data` has a
    default: terminating ones decline with `NotSupported`, notifying ones do nothing. */
module SyncFilter {
  import T = Ticket

  /** The request context and the per-operation info payloads; their contents live outside
      this model and no default looks at them. */
  type Request
  type PathBuf
  type FetchDataInfo
  type CancelFetchDataInfo
  type ValidateDataInfo
  type FetchPlaceholdersInfo
  type CancelFetchPlaceholdersInfo
  type OpenedInfo
  type ClosedInfo
  type DehydrateInfo
  type DehydratedInfo
  type DeleteInfo
  type DeletedInfo
  type RenameInfo
  type RenamedInfo

  datatype OperationKind =
    | FetchData
    | CancelFetchData
    | ValidateData
    | FetchPlaceholders
    | CancelFetchPlaceholders
    | Opened
    | Closed
    | Dehydrate
    | Dehydrated
    | Delete
    | Deleted
    | Rename
    | Renamed
    | StateChanged

  /** The kinds whose callback must resolve the operation. */
  predicate IsTerminating(k: OperationKind) {
    k in {FetchData, ValidateData, FetchPlaceholders, Dehydrate, Delete, Rename}
  }

  /** Every callback but `fetch_data` has a default body. */
  predicate HasDefault(k: OperationKind) {
    k != FetchData
  }

  /** One invocation of a callback, with the arguments its signature takes. */
  datatype Callback =
    | FetchDataCall(Request, T.FetchData, FetchDataInfo)
    | CancelFetchDataCall(Request, CancelFetchDataInfo)
    | ValidateDataCall(Request, T.ValidateData, ValidateDataInfo)
    | FetchPlaceholdersCall(Request, T.FetchPlaceholders, FetchPlaceholdersInfo)
    | CancelFetchPlaceholdersCall(Request, CancelFetchPlaceholdersInfo)
    | OpenedCall(Request, OpenedInfo)
    | ClosedCall(Request, ClosedInfo)
    | DehydrateCall(Request, T.Dehydrate, DehydrateInfo)
    | DehydratedCall(Request, DehydratedInfo)
    | DeleteCall(Request, T.Delete, DeleteInfo)
    | DeletedCall(Request, DeletedInfo)
    | RenameCall(Request, T.Rename, RenameInfo)
    | RenamedCall(Request, RenamedInfo)
    | StateChangedCall(changes: seq<PathBuf>)

  function Kind(c: Callback): OperationKind {
    match c
    case FetchDataCall(_, _, _) => FetchData
    case CancelFetchDataCall(_, _) => CancelFetchData
    case ValidateDataCall(_, _, _) => ValidateData
    case FetchPlaceholdersCall(_, _, _) => FetchPlaceholders
    case CancelFetchPlaceholdersCall(_, _) => CancelFetchPlaceholders
    case OpenedCall(_, _) => Opened
    case ClosedCall(_, _) => Closed
    case DehydrateCall(_, _, _) => Dehydrate
    case DehydratedCall(_, _) => Dehydrated
    case DeleteCall(_, _, _) => Delete
    case DeletedCall(_, _) => Deleted
    case RenameCall(_, _, _) => Rename
    case RenamedCall(_, _) => Renamed
    case StateChangedCall(_) => StateChanged
  }

  /** The callback's signature includes a ticket. */
  predicate TakesTicket(c: Callback) {
    || c.FetchDataCall? || c.ValidateDataCall? || c.FetchPlaceholdersCall?
    || c.DehydrateCall? || c.DeleteCall? || c.RenameCall?
  }

  /** A kind is terminating exactly when its callback receives a ticket. */
  lemma TerminatingIffTicket(c: Callback)
    ensures IsTerminating(Kind(c)) <==> TakesTicket(c)
  {
  }

  /** The error kinds other than `NotSupported`; they live outside this model. */
  type OtherCloudError(==)

  /** `CloudErrorKind`, the error type of `CResult`; only `NotSupported` is produced here. */
  datatype CloudErrorKind = NotSupported | Other(kind: OtherCloudError)

  /** `CResult<()>`. */
  datatype CResult = Ok | Err(error: CloudErrorKind)

  /** What a callback hands back: a `CResult` from a terminating callback, unit from a
      notifying one. */
  datatype Response = Resolved(result: CResult) | Returned

  /** The trait's default body for a callback. */
  function DefaultResponse(c: Callback): (r: Response)
    requires HasDefault(Kind(c))
    ensures IsTerminating(Kind(c)) ==> r == Resolved(Err(NotSupported))
    ensures !IsTerminating(Kind(c)) ==> r == Returned
  {
    match c
    case ValidateDataCall(_, _, _) => Resolved(Err(NotSupported))
    case FetchPlaceholdersCall(_, _, _) => Resolved(Err(NotSupported))
    case DehydrateCall(_, _, _) => Resolved(Err(NotSupported))
    case DeleteCall(_, _, _) => Resolved(Err(NotSupported))
    case RenameCall(_, _, _) => Resolved(Err(NotSupported))
    case CancelFetchDataCall(_, _) => Returned
    case CancelFetchPlaceholdersCall(_, _) => Returned
    case OpenedCall(_, _) => Returned
    case ClosedCall(_, _) => Returned
    case DehydratedCall(_, _) => Returned
    case DeletedCall(_, _) => Returned
    case RenamedCall(_, _) => Returned
    case StateChangedCall(_) => Returned
  }

  /** No default body ever approves an operation, and the defaults depend on nothing but
      the kind of callback: not on the request, the ticket, the info or the changed paths. */
  lemma DefaultsNeverSucceedAndIgnoreArguments(c: Callback, d: Callback)
    requires HasDefault(Kind(c)) && Kind(c) == Kind(d)
    ensures DefaultResponse(c) != Resolved(Ok)
    ensures DefaultResponse(c) == DefaultResponse(d)
  {
  }

  /** A sync engine's implementation of the trait: its own `fetch_data`, and the terminating
      callbacks it overrides. Overriding a notifying callback changes no value visible here,
      so those are not recorded. */
  datatype SyncFilter = SyncFilter(
    fetchData: Callback -> CResult,
    overrides: map<OperationKind, Callback -> CResult>)

  /** What invoking callback `c` on implementation `f` returns: the implementation's own body
      where it has one, the trait's default otherwise. */
  function Respond(f: SyncFilter, c: Callback): (r: Response)
    ensures r.Resolved? <==> IsTerminating(Kind(c))
    ensures Kind(c) == FetchData ==> r == Resolved(f.fetchData(c))
    ensures IsTerminating(Kind(c)) && Kind(c) != FetchData && Kind(c) in f.overrides ==>
              r == Resolved(f.overrides[Kind(c)](c))
  {
    var k := Kind(c);
    if k == FetchData then Resolved(f.fetchData(c))
    else if IsTerminating(k) && k in f.overrides then Resolved(f.overrides[k](c))
    else DefaultResponse(c)
  }

  /** A terminating callback that the implementation leaves alone is declined with
      `NotSupported`, and a notifying one never returns a result, whatever is overridden. */
  lemma UnimplementedCallbacksDecline(f: SyncFilter, c: Callback)
    requires Kind(c) != FetchData && Kind(c) !in f.overrides
    ensures IsTerminating(Kind(c)) ==> Respond(f, c) == Resolved(Err(NotSupported))
    ensures !IsTerminating(Kind(c)) ==> Respond(f, c) == Returned
  {
  }
}
