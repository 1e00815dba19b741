/**
 Error values and their classification (errors.go:63-265) over wrap trees of any depth and breadth.
 Pointer identity of errors is structural here: equal trees are the same error.
 */
module ErrorChains {
  import opened Prelude

  /** The Connect status codes, with every other one as `OtherCode`. */
  datatype ConnectCode =
    | CodeCanceled | CodeUnknown | CodeInvalidArgument | CodeDeadlineExceeded | CodeNotFound | CodeAlreadyExists
    | CodePermissionDenied | CodeResourceExhausted | CodeFailedPrecondition | CodeAborted | CodeOutOfRange
    | CodeUnimplemented | CodeInternal | CodeUnavailable | CodeDataLoss | CodeUnauthenticated
    | OtherCode(n: nat)

  /** The public *Error; its cause is unexported and only `AsError` sets it. */
  datatype ApiError = ApiError(
    code: string, connectCode: ConnectCode, message: string, retryable: bool, cause: Option<GoError>)

  /** Any Go error: a leaf, a single or a multiple wrap, a Connect error with its metadata, or an *Error. */
  datatype GoError =
    | Plain(text: string)
    | Canceled
    | DeadlineExceeded
    | Wrap(text: string, inner: GoError)
    | Join(errs: seq<GoError>)
    | Connect(code: ConnectCode, message: string, meta: map<string, string>, under: Option<GoError>)
    | Api(e: ApiError)

  datatype Class = ClassInternal | ClassAuth | ClassNotFound | ClassRateLimit | ClassValidation | ClassConnection

  function ClassOf(c: ConnectCode): Class {
    match c
    case CodeUnauthenticated => ClassAuth
    case CodePermissionDenied => ClassAuth
    case CodeNotFound => ClassNotFound
    case CodeResourceExhausted => ClassRateLimit
    case CodeInvalidArgument => ClassValidation
    case CodeFailedPrecondition => ClassValidation
    case CodeUnavailable => ClassConnection
    case CodeDeadlineExceeded => ClassConnection
    case CodeCanceled => ClassConnection
    case _ => ClassInternal
  }

  /** The five public category sentinels. */
  datatype Category = ErrAuthentication | ErrNotFound | ErrRateLimited | ErrValidation | ErrConnection

  function Sentinel(cat: Category): ApiError {
    ApiError("", match cat
                 case ErrAuthentication => CodeUnauthenticated
                 case ErrNotFound => CodeNotFound
                 case ErrRateLimited => CodeResourceExhausted
                 case ErrValidation => CodeInvalidArgument
                 case ErrConnection => CodeUnavailable, "", false, None)
  }

  /** errors.As for *Error: the first one in preorder. */
  function FindApi(err: GoError): Option<ApiError>
    decreases err, 0
  {
    match err
    case Api(e) => Some(e)
    case Wrap(_, inner) => FindApi(inner)
    case Join(errs) => FindApiIn(errs)
    case Connect(_, _, _, Some(under)) => FindApi(under)
    case _ => None
  }

  function FindApiIn(errs: seq<GoError>): Option<ApiError>
    decreases errs, 0
  {
    if errs == [] then None
    else
      match FindApi(errs[0])
      case Some(e) => Some(e)
      case None => FindApiIn(errs[1..])
  }

  /** errors.As for *connect.Error: the first one in preorder. */
  function FindConnect(err: GoError): Option<GoError>
    decreases err, 0
  {
    match err
    case Connect(_, _, _, _) => Some(err)
    case Wrap(_, inner) => FindConnect(inner)
    case Join(errs) => FindConnectIn(errs)
    case Api(ApiError(_, _, _, _, Some(cause))) => FindConnect(cause)
    case _ => None
  }

  function FindConnectIn(errs: seq<GoError>): (r: Option<GoError>)
    decreases errs, 0
  {
    if errs == [] then None
    else
      match FindConnect(errs[0])
      case Some(e) => Some(e)
      case None => FindConnectIn(errs[1..])
  }

  /** (*Error).Is against another *Error: by code when the target has one, else by class. */
  predicate Matches(e: ApiError, target: ApiError) {
    if target.code != "" then e.code == target.code else ClassOf(e.connectCode) == ClassOf(target.connectCode)
  }

  /** errors.Is(err, target) for a target *Error. */
  predicate IsApi(err: GoError, target: ApiError)
    decreases err, 0
  {
    match err
    case Api(e) => e == target || Matches(e, target) || (e.cause.Some? && IsApi(e.cause.value, target))
    case Wrap(_, inner) => IsApi(inner, target)
    case Join(errs) => IsApiIn(errs, target)
    case Connect(_, _, _, Some(under)) => IsApi(under, target)
    case _ => false
  }

  predicate IsApiIn(errs: seq<GoError>, target: ApiError)
    decreases errs, 0
  {
    errs != [] && (IsApi(errs[0], target) || IsApiIn(errs[1..], target))
  }

  /** errors.Is(err, context.Canceled) and errors.Is(err, context.DeadlineExceeded). */
  predicate IsContext(err: GoError, target: GoError)
    decreases err, 0
  {
    err == target ||
    match err
    case Api(ApiError(_, _, _, _, Some(cause))) => IsContext(cause, target)
    case Wrap(_, inner) => IsContext(inner, target)
    case Join(errs) => IsContextIn(errs, target)
    case Connect(_, _, _, Some(under)) => IsContext(under, target)
    case _ => false
  }

  predicate IsContextIn(errs: seq<GoError>, target: GoError)
    decreases errs, 0
  {
    errs != [] && (IsContext(errs[0], target) || IsContextIn(errs[1..], target))
  }

  /** http.Header.Get: the value under a key, or the empty string. */
  function Get(headers: map<string, string>, key: string): string {
    if key in headers then headers[key] else ""
  }

  /** defaultCodeFor (errors.go:241-265). */
  function DefaultCodeFor(c: ConnectCode): string {
    match c
    case CodeUnauthenticated => "unauthenticated"
    case CodePermissionDenied => "unauthorized"
    case CodeNotFound => ""
    case CodeResourceExhausted => ""
    case CodeInvalidArgument => "invalidArgument"
    case CodeFailedPrecondition => "preconditionFailed"
    case CodeUnimplemented => "operationNotSupported"
    case CodeUnavailable => "serviceUnavailable"
    case CodeDeadlineExceeded => "timeout"
    case _ => "internalError"
  }

  function Text(err: GoError): string {
    match err
    case Plain(text) => text
    case Canceled => "context canceled"
    case DeadlineExceeded => "context deadline exceeded"
    case Wrap(text, _) => text
    case Join(_) => "joined"
    case Connect(_, message, _, _) => message
    case Api(e) => e.message
  }

  /** asError (errors.go:199-237). */
  function AsError(err: Option<GoError>): Option<GoError> {
    match err
    case None => None
    case Some(e) =>
      match FindApi(e)
      case Some(existing) => Some(Api(existing))
      case None =>
        match FindConnect(e)
        case Some(Connect(code, message, meta, _)) =>
          var given := Get(meta, "error-code");
          Some(Api(ApiError(if given == "" then DefaultCodeFor(code) else given, code, message,
                            Get(meta, "x-retryable") == "true", Some(e))))
        case _ =>
          if IsContext(e, DeadlineExceeded) then
            Some(Api(ApiError("timeout", CodeDeadlineExceeded, Text(e), false, Some(e))))
          else if IsContext(e, Canceled) then Some(Api(ApiError("networkError", CodeCanceled, Text(e), false, Some(e))))
          else Some(e)
  }

  predicate Is(err: Option<GoError>, cat: Category) {
    err.Some? && IsApi(err.value, Sentinel(cat))
  }

  // ----- properties -----

  /** What the package guarantees of causes: below an *Error there is no other *Error. */
  predicate Clean(err: GoError)
    decreases err, 0
  {
    match err
    case Api(ApiError(_, _, _, _, Some(cause))) => FindApi(cause).None?
    case Wrap(_, inner) => Clean(inner)
    case Join(errs) => CleanIn(errs)
    case Connect(_, _, _, Some(under)) => Clean(under)
    case _ => true
  }

  predicate CleanIn(errs: seq<GoError>)
    decreases errs, 0
  {
    errs == [] || (Clean(errs[0]) && CleanIn(errs[1..]))
  }

  /** Only single wraps: the chains fmt.Errorf with one %w builds. */
  predicate Linear(err: GoError)
    decreases err
  {
    match err
    case Wrap(_, inner) => Linear(inner)
    case Join(_) => false
    case Connect(_, _, _, Some(under)) => Linear(under)
    case _ => true
  }

  lemma {:induction false} NoApiNoMatch(err: GoError, target: ApiError)
    requires FindApi(err).None?
    ensures !IsApi(err, target)
    decreases err, 0
  {
    match err
    case Wrap(_, inner) => NoApiNoMatch(inner, target);
    case Join(errs) => NoApiNoMatchIn(errs, target);
    case Connect(_, _, _, Some(under)) => NoApiNoMatch(under, target);
    case _ =>
  }

  lemma {:induction false} NoApiNoMatchIn(errs: seq<GoError>, target: ApiError)
    requires FindApiIn(errs).None?
    ensures !IsApiIn(errs, target)
    decreases errs, 0
  {
    if errs != [] {
      NoApiNoMatch(errs[0], target);
      NoApiNoMatchIn(errs[1..], target);
    }
  }

  lemma {:induction false} FoundIsClean(err: GoError)
    requires Clean(err) && FindApi(err).Some?
    ensures Clean(Api(FindApi(err).value))
    decreases err, 0
  {
    match err
    case Wrap(_, inner) => FoundIsClean(inner);
    case Join(errs) => FoundIsCleanIn(errs);
    case Connect(_, _, _, Some(under)) => FoundIsClean(under);
    case _ =>
  }

  lemma {:induction false} FoundIsCleanIn(errs: seq<GoError>)
    requires CleanIn(errs) && FindApiIn(errs).Some?
    ensures Clean(Api(FindApiIn(errs).value))
    decreases errs, 0
  {
    if FindApi(errs[0]).Some? {
      FoundIsClean(errs[0]);
    } else {
      FoundIsCleanIn(errs[1..]);
    }
  }

  /** What FindConnect returns is a Connect error. */
  lemma {:induction false} FoundConnect(err: GoError)
    requires FindConnect(err).Some?
    ensures FindConnect(err).value.Connect?
    decreases err, 0
  {
    match err
    case Wrap(_, inner) => FoundConnect(inner);
    case Join(errs) => FoundConnectIn(errs);
    case Api(ApiError(_, _, _, _, Some(cause))) => FoundConnect(cause);
    case _ =>
  }

  lemma {:induction false} FoundConnectIn(errs: seq<GoError>)
    requires FindConnectIn(errs).Some?
    ensures FindConnectIn(errs).value.Connect?
    decreases errs, 0
  {
    if FindConnect(errs[0]).Some? {
      FoundConnect(errs[0]);
    } else {
      FoundConnectIn(errs[1..]);
    }
  }

  /**
   asError over any error tree: nil stays nil, a second application changes nothing, and an error
   that is not an *Error afterwards was passed through and holds no *Error, Connect or context error.
   */
  lemma {:induction false} AsErrorIdempotent(err: Option<GoError>)
    ensures AsError(AsError(err)) == AsError(err)
    ensures AsError(err).None? <==> err.None?
    ensures AsError(err).Some? && !AsError(err).value.Api? ==>
              AsError(err) == err && FindApi(err.value).None? && FindConnect(err.value).None?
              && !IsContext(err.value, Canceled) && !IsContext(err.value, DeadlineExceeded)
  {
    if err.Some? && FindApi(err.value).None? && FindConnect(err.value).Some? {
      FoundConnect(err.value);
    }
  }

  /** The result of asError keeps the package's guarantee about causes. */
  lemma {:induction false} AsErrorClean(err: GoError)
    requires Clean(err)
    ensures AsError(Some(err)).Some? && Clean(AsError(Some(err)).value)
  {
    if FindApi(err).Some? {
      FoundIsClean(err);
    } else if FindConnect(err).Some? {
      FoundConnect(err);
    }
  }

  /** A clean *Error is in a category exactly when its status code has that category's class. */
  lemma {:induction false} CategoryIsClass(e: ApiError, cat: Category)
    requires Clean(Api(e))
    ensures Is(Some(Api(e)), cat) <==> ClassOf(e.connectCode) == ClassOf(Sentinel(cat).connectCode)
  {
    if e.cause.Some? {
      NoApiNoMatch(e.cause.value, Sentinel(cat));
    }
  }

  /** The one category of a status class, if it has one. */
  function CategoryOf(err: GoError): Option<Category> {
    if !err.Api? then None
    else
      match ClassOf(err.e.connectCode)
      case ClassAuth => Some(ErrAuthentication)
      case ClassNotFound => Some(ErrNotFound)
      case ClassRateLimit => Some(ErrRateLimited)
      case ClassValidation => Some(ErrValidation)
      case ClassConnection => Some(ErrConnection)
      case ClassInternal => None
  }

  /**
   Whatever the error tree, what asError makes of it is in at most one public category: the one of its
   status class, and in none when that is internal or the error was passed through.
   */
  lemma {:induction false} AtMostOneCategory(err: GoError, cat: Category)
    requires Clean(err)
    ensures Is(AsError(Some(err)), cat) <==> CategoryOf(AsError(Some(err)).value) == Some(cat)
  {
    AsErrorIdempotent(Some(err));
    AsErrorClean(err);
    var r := AsError(Some(err)).value;
    if r.Api? {
      CategoryIsClass(r.e, cat);
    } else {
      NoApiNoMatch(r, Sentinel(cat));
    }
  }

  /** Every error of the tree, in the order errors.As and errors.Is look. */
  function Nodes(err: GoError): seq<GoError>
    decreases err, 0
  {
    [err] +
    match err
    case Api(ApiError(_, _, _, _, Some(cause))) => Nodes(cause)
    case Wrap(_, inner) => Nodes(inner)
    case Join(errs) => NodesIn(errs)
    case Connect(_, _, _, Some(under)) => Nodes(under)
    case _ => []
  }

  function NodesIn(errs: seq<GoError>): seq<GoError>
    decreases errs, 0
  {
    if errs == [] then [] else Nodes(errs[0]) + NodesIn(errs[1..])
  }

  function FirstApi(nodes: seq<GoError>): Option<ApiError> {
    if nodes == [] then None else if nodes[0].Api? then Some(nodes[0].e) else FirstApi(nodes[1..])
  }

  function FirstConnect(nodes: seq<GoError>): Option<GoError> {
    if nodes == [] then None else if nodes[0].Connect? then Some(nodes[0]) else FirstConnect(nodes[1..])
  }

  lemma {:induction false} FirstOfBoth(a: seq<GoError>, b: seq<GoError>)
    ensures FirstApi(a + b) == if FirstApi(a).Some? then FirstApi(a) else FirstApi(b)
    ensures FirstConnect(a + b) == if FirstConnect(a).Some? then FirstConnect(a) else FirstConnect(b)
  {
    if a == [] {
      assert a + b == b;
    } else {
      assert (a + b)[1..] == a[1..] + b;
      FirstOfBoth(a[1..], b);
    }
  }

  /**
   errors.As finds the first *Error and the first Connect error of that order; errors.Is finds a context
   error anywhere in it.
   */
  lemma {:induction false} FoundInOrder(err: GoError, target: GoError)
    ensures FindApi(err) == FirstApi(Nodes(err))
    ensures FindConnect(err) == FirstConnect(Nodes(err))
    ensures IsContext(err, target) <==> target in Nodes(err)
    decreases err, 0
  {
    var below: seq<GoError> := Nodes(err)[1..];
    assert Nodes(err) == [err] + below;
    match err
    case Api(ApiError(_, _, _, _, Some(cause))) => FoundInOrder(cause, target);
    case Wrap(_, inner) => FoundInOrder(inner, target);
    case Join(errs) => FoundInOrderIn(errs, target);
    case Connect(_, _, _, Some(under)) => FoundInOrder(under, target);
    case _ =>
  }

  lemma {:induction false} FoundInOrderIn(errs: seq<GoError>, target: GoError)
    ensures FindApiIn(errs) == FirstApi(NodesIn(errs))
    ensures FindConnectIn(errs) == FirstConnect(NodesIn(errs))
    ensures IsContextIn(errs, target) <==> target in NodesIn(errs)
    decreases errs, 0
  {
    if errs != [] {
      FoundInOrder(errs[0], target);
      FoundInOrderIn(errs[1..], target);
      FirstOfBoth(Nodes(errs[0]), NodesIn(errs[1..]));
    }
  }

  /** The server's own mark on a failure: the header of the first Connect error. */
  predicate Marked(err: GoError) {
    var first := FirstConnect(Nodes(err));
    && first.Some? && first.value.Connect?
    && "x-retryable" in first.value.meta && first.value.meta["x-retryable"] == "true"
  }

  /** A Connect failure keeps the server's code, message and mark, wherever it lies in an error without an *Error. */
  lemma {:induction false} ConnectClassified(err: GoError, cat: Category)
    requires FirstApi(Nodes(err)).None? && FirstConnect(Nodes(err)).Some?
    ensures FirstConnect(Nodes(err)).value.Connect?
    ensures var ce := FirstConnect(Nodes(err)).value;
            var r := AsError(Some(err));
            && (Is(r, cat) <==> ClassOf(ce.code) == ClassOf(Sentinel(cat).connectCode))
            && r.value.Api? && r.value.e.connectCode == ce.code && r.value.e.message == ce.message
            && r.value.e.cause == Some(err) && (r.value.e.retryable <==> Marked(err))
            && r.value.e.code == if "error-code" in ce.meta && ce.meta["error-code"] != "" then ce.meta["error-code"]
                                 else DefaultCodeFor(ce.code)
  {
    FoundInOrder(err, Canceled);
    FoundConnect(err);
    CategoryIsClass(AsError(Some(err)).value.e, cat);
  }

  /** A raw deadline or cancellation, with no *Error and no Connect error around it, becomes a connection error. */
  lemma {:induction false} RawContextErrors(err: GoError)
    requires FirstApi(Nodes(err)).None? && FirstConnect(Nodes(err)).None?
    ensures DeadlineExceeded in Nodes(err) ==>
              AsError(Some(err)) == Some(Api(ApiError("timeout", CodeDeadlineExceeded, Text(err), false, Some(err))))
              && Is(AsError(Some(err)), ErrConnection)
    ensures DeadlineExceeded !in Nodes(err) && Canceled in Nodes(err) ==>
              AsError(Some(err)) == Some(Api(ApiError("networkError", CodeCanceled, Text(err), false, Some(err))))
              && Is(AsError(Some(err)), ErrConnection)
    ensures DeadlineExceeded !in Nodes(err) && Canceled !in Nodes(err) ==> AsError(Some(err)) == Some(err)
  {
    FoundInOrder(err, Canceled);
    FoundInOrder(err, DeadlineExceeded);
    if IsContext(err, DeadlineExceeded) {
      assert Matches(AsError(Some(err)).value.e, Sentinel(ErrConnection));
    } else if IsContext(err, Canceled) {
      assert Matches(AsError(Some(err)).value.e, Sentinel(ErrConnection));
    }
  }

  /** The five public categories, by their status codes. */
  lemma {:induction false} CategoriesByCode(e: ApiError)
    requires Clean(Api(e))
    ensures Is(Some(Api(e)), ErrAuthentication) <==> e.connectCode in {CodeUnauthenticated, CodePermissionDenied}
    ensures Is(Some(Api(e)), ErrNotFound) <==> e.connectCode == CodeNotFound
    ensures Is(Some(Api(e)), ErrRateLimited) <==> e.connectCode == CodeResourceExhausted
    ensures Is(Some(Api(e)), ErrValidation) <==> e.connectCode in {CodeInvalidArgument, CodeFailedPrecondition}
    ensures Is(Some(Api(e)), ErrConnection) <==> e.connectCode in {CodeUnavailable, CodeDeadlineExceeded, CodeCanceled}
  {
    forall cat: Category
      ensures Is(Some(Api(e)), cat) <==> ClassOf(e.connectCode) == ClassOf(Sentinel(cat).connectCode)
    {
      CategoryIsClass(e, cat);
    }
  }

  /** The one status a code stands for, for the codes that stand for one. */
  function StatusOf(code: string): Option<ConnectCode> {
    if code == "unauthenticated" then Some(CodeUnauthenticated)
    else if code == "unauthorized" then Some(CodePermissionDenied)
    else if code == "invalidArgument" then Some(CodeInvalidArgument)
    else if code == "preconditionFailed" then Some(CodeFailedPrecondition)
    else if code == "operationNotSupported" then Some(CodeUnimplemented)
    else if code == "serviceUnavailable" then Some(CodeUnavailable)
    else if code == "timeout" then Some(CodeDeadlineExceeded)
    else None
  }

  /**
   A code filled in for a missing one is the code of the error's own status, if a code stands for it; the two
   ambiguous statuses are left without one, and every other status is an internal error.
   */
  lemma {:induction false} DefaultCodeTellsStatus(c: ConnectCode)
    ensures DefaultCodeFor(c) == "" <==> c == CodeNotFound || c == CodeResourceExhausted
    ensures StatusOf(DefaultCodeFor(c)) == Some(c) || DefaultCodeFor(c) in {"", "internalError"}
    ensures DefaultCodeFor(c) == "internalError" ==> forall code :: StatusOf(code) != Some(c)
  {
  }

  /** On linear chains, asError keeps the category of an *Error that is already there. */
  lemma {:induction false} LinearKeepsCategory(err: GoError, cat: Category)
    requires Linear(err) && Clean(err) && FindApi(err).Some?
    ensures Is(AsError(Some(err)), cat) <==> Is(Some(err), cat)
    decreases err
  {
    match err
    case Wrap(_, inner) => LinearKeepsCategory(inner, cat);
    case Connect(_, _, _, Some(under)) => LinearKeepsCategory(under, cat);
    case _ =>
  }

  /** The *Errors that errors.As and errors.Is can meet, in the order they look. */
  function Apis(err: GoError): seq<ApiError>
    decreases err, 0
  {
    match err
    case Api(e) => [e]
    case Wrap(_, inner) => Apis(inner)
    case Join(errs) => ApisIn(errs)
    case Connect(_, _, _, Some(under)) => Apis(under)
    case _ => []
  }

  function ApisIn(errs: seq<GoError>): seq<ApiError>
    decreases errs, 0
  {
    if errs == [] then [] else Apis(errs[0]) + ApisIn(errs[1..])
  }

  predicate InClass(e: ApiError, cat: Category) {
    ClassOf(e.connectCode) == ClassOf(Sentinel(cat).connectCode)
  }

  ghost predicate AnyInClass(es: seq<ApiError>, cat: Category) {
    exists k :: 0 <= k < |es| && InClass(es[k], cat)
  }

  lemma {:induction false} AnyInEither(a: seq<ApiError>, b: seq<ApiError>, cat: Category)
    ensures AnyInClass(a + b, cat) <==> AnyInClass(a, cat) || AnyInClass(b, cat)
  {
    if k :| 0 <= k < |a| && InClass(a[k], cat) {
      assert (a + b)[k] == a[k];
    }
    if k :| 0 <= k < |b| && InClass(b[k], cat) {
      assert (a + b)[|a| + k] == b[k];
    }
  }

  /** errors.As finds the first of them; errors.Is matches a category exactly when one of them has its class. */
  lemma {:induction false} AsAndIsOverApis(err: GoError, cat: Category)
    requires Clean(err)
    ensures FindApi(err) == if Apis(err) == [] then None else Some(Apis(err)[0])
    ensures IsApi(err, Sentinel(cat)) <==> AnyInClass(Apis(err), cat)
    decreases err, 0
  {
    match err
    case Api(e) =>
      CategoryIsClass(e, cat);
      assert AnyInClass([e], cat) <==> InClass([e][0], cat);
    case Wrap(_, inner) => AsAndIsOverApis(inner, cat);
    case Join(errs) => AsAndIsOverApisIn(errs, cat);
    case Connect(_, _, _, Some(under)) => AsAndIsOverApis(under, cat);
    case _ =>
  }

  lemma {:induction false} AsAndIsOverApisIn(errs: seq<GoError>, cat: Category)
    requires CleanIn(errs)
    ensures FindApiIn(errs) == if ApisIn(errs) == [] then None else Some(ApisIn(errs)[0])
    ensures IsApiIn(errs, Sentinel(cat)) <==> AnyInClass(ApisIn(errs), cat)
    decreases errs, 0
  {
    if errs != [] {
      AsAndIsOverApis(errs[0], cat);
      AsAndIsOverApisIn(errs[1..], cat);
      AnyInEither(Apis(errs[0]), ApisIn(errs[1..]), cat);
    }
  }

  /**
   Exactly when asError keeps a category for an error that holds an *Error: unless the first *Error is
   outside it and a later one, in another branch of a multiple wrap, is inside.
   */
  lemma {:induction false} CategoryKeptExactlyWhen(err: GoError, cat: Category)
    requires Clean(err) && Apis(err) != []
    ensures (Is(AsError(Some(err)), cat) <==> Is(Some(err), cat))
            <==> InClass(Apis(err)[0], cat) || !AnyInClass(Apis(err)[1..], cat)
  {
    AsAndIsOverApis(err, cat);
    AsErrorClean(err);
    CategoryIsClass(Apis(err)[0], cat);
    assert Apis(err) == [Apis(err)[0]] + Apis(err)[1..];
    AnyInEither([Apis(err)[0]], Apis(err)[1..], cat);
    assert AnyInClass([Apis(err)[0]], cat) <==> InClass([Apis(err)[0]][0], cat);
  }

  /** With a multiple wrap it does not: the joined error is in two categories, what asError keeps is in one. */
  lemma {:induction false} JoinLosesCategory()
    ensures var err := Join([Api(Sentinel(ErrNotFound)), Api(Sentinel(ErrRateLimited))]);
            && Clean(err) && Is(Some(err), ErrNotFound) && Is(Some(err), ErrRateLimited)
            && Is(AsError(Some(err)), ErrNotFound) && !Is(AsError(Some(err)), ErrRateLimited)
  {
    var notFound, limited := Api(Sentinel(ErrNotFound)), Api(Sentinel(ErrRateLimited));
    var errs := [notFound, limited];
    assert errs[1..] == [limited] && [limited][1..] == [];
    assert IsApiIn([limited], Sentinel(ErrRateLimited));
    assert CleanIn([limited]);
  }
}
