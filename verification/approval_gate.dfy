/** IsApprovedHandler: whether workflow approval gates an action on an item in
    the page editor, including the referrer heuristic that switches workflow
    checking on for requests coming from an edit-mode page. */
module ApprovalGate {
  import opened Wrappers
  import opened Text

  /** The process-wide current value of the workflow-checking switch. */
  datatype WorkflowContextState = Default | Disabled | Enabled

  datatype Site = Site(enableWorkflow: bool)

  /** The context a WorkflowContext keeps in its private `_context` field. */
  datatype ContextData = ContextData(site: Option<Site>, isAdministrator: bool)

  datatype WorkflowContext = WorkflowContext(context: ContextData)

  /** A workflow, reduced to the verdict its IsApproved gives for the item and
      target database of the call. */
  datatype Workflow = Workflow(approves: bool)

  /** A workflow provider, reduced to its GetWorkflow answer for the item. */
  datatype WorkflowProvider = WorkflowProvider(workflowOf: Option<Workflow>)

  /** What the gate reads of an item: the workflow provider of its database. */
  datatype ItemView = ItemView(provider: Option<WorkflowProvider>)

  /** The ambient state the handler reads besides its arguments. */
  datatype Ambient = Ambient(
    mode: WorkflowContextState,     // Switcher<WorkflowContextState, …>.CurrentValue
    workflowsEnabled: bool,         // Settings.Workflows.Enabled
    referrerQuery: Option<string>,  // Query of the request's UrlReferrer; None without a referrer
    urlDecode: string -> string)    // Server.UrlDecode

  const EditModePattern: string := "mode=edit"
  const UrlEditModePattern: string := "sc_mode=edit"
  const UrlPrefix: string := "url="

  function DecodeAll(parts: seq<string>, decode: string -> string): seq<string> {
    seq(|parts|, i requires 0 <= i < |parts| => decode(parts[i]))
  }

  /** Some token of `query`, once decoded, equals `param` up to case. */
  predicate HasToken(param: string, query: string, decode: string -> string) {
    exists i :: 0 <= i < |Split(query)| && EqualsIgnoreCase(param, decode(Split(query)[i]))
  }

  /** Position of the first element of `d` equal to `param` up to case, or |d|. */
  function FirstMatch(param: string, d: seq<string>): (k: nat)
    ensures k <= |d|
    ensures forall j :: 0 <= j < k ==> !EqualsIgnoreCase(param, d[j])
    ensures k < |d| ==> EqualsIgnoreCase(param, d[k])
  {
    if d == [] || EqualsIgnoreCase(param, d[0]) then 0 else 1 + FirstMatch(param, d[1..])
  }

  /** The last element of `d` that starts with "url=" up to case. */
  function LastUrlToken(d: seq<string>): (u: Option<string>)
    ensures u.None? <==> forall j :: 0 <= j < |d| ==> !StartsWithIgnoreCase(d[j], UrlPrefix)
    ensures u.Some? ==> exists k :: 0 <= k < |d| && d[k] == u.value && StartsWithIgnoreCase(d[k], UrlPrefix)
                          && forall j :: k < j < |d| ==> !StartsWithIgnoreCase(d[j], UrlPrefix)
  {
    if d == [] then None
    else if StartsWithIgnoreCase(d[|d| - 1], UrlPrefix) then Some(d[|d| - 1])
    else LastUrlToken(d[..|d| - 1])
  }

  /** A string that starts with "url=" is never null or white space. */
  lemma UrlTokenNotBlank(s: string)
    requires StartsWithIgnoreCase(s, UrlPrefix)
    ensures !IsNullOrWhiteSpace(Some(s))
  {
    assert LowerAscii(s[..4])[0] == LowerAscii(UrlPrefix)[0];
    assert ToLowerAscii(s[0]) == 'u';
  }

  /** The first-match search over the decoded tokens succeeds exactly when some
      token matches. */
  lemma MatchIffHasToken(param: string, query: string, decode: string -> string)
    ensures HasToken(param, query, decode) <==> FirstMatch(param, DecodeAll(Split(query), decode)) < |Split(query)|
  {
    var d := DecodeAll(Split(query), decode);
    var k := FirstMatch(param, d);
    if HasToken(param, query, decode) {
      var i :| 0 <= i < |Split(query)| && EqualsIgnoreCase(param, decode(Split(query)[i]));
      assert EqualsIgnoreCase(param, d[i]);
    }
    if k < |d| {
      assert EqualsIgnoreCase(param, decode(Split(query)[k]));
    }
  }

  datatype ScanResult = ScanResult(found: bool, innerQuery: Option<string>)

  /** What IsInQuery computes: whether a decoded token matches `param`, and
      the last decoded "url=" token seen before the scan stopped. */
  function QueryScan(param: string, query: string, decode: string -> string): (r: ScanResult)
    ensures r.found <==> HasToken(param, query, decode)
    ensures r.found ==> r.innerQuery == LastUrlToken(DecodeAll(Split(query), decode)[..FirstMatch(param, DecodeAll(Split(query), decode))])
    ensures !r.found ==> r.innerQuery == LastUrlToken(DecodeAll(Split(query), decode))
    ensures r.innerQuery.Some? ==> StartsWithIgnoreCase(r.innerQuery.value, UrlPrefix)
                                   && !IsNullOrWhiteSpace(r.innerQuery)
  {
    var d := DecodeAll(Split(query), decode);
    var k := FirstMatch(param, d);
    assert k == |d| ==> d[..k] == d;
    MatchIffHasToken(param, query, decode);
    var r := ScanResult(k < |d|, LastUrlToken(d[..k]));
    if r.innerQuery.Some? then UrlTokenNotBlank(r.innerQuery.value); r else r
  }

  /** IsInQuery: scans the split query token by token, decoding each one,
      returns at the first match, and remembers the last "url=" token. */
  method IsInQuery(param: string, query: string, urlDecode: string -> string)
    returns (found: bool, innerQuery: Option<string>)
    ensures ScanResult(found, innerQuery) == QueryScan(param, query, urlDecode)
  {
    innerQuery := None;
    var queryParts := Split(query);
    ghost var d := DecodeAll(queryParts, urlDecode);
    var i := 0;
    while i < |queryParts|
      invariant 0 <= i <= |queryParts|
      invariant forall j :: 0 <= j < i ==> !EqualsIgnoreCase(param, d[j])
      invariant innerQuery == LastUrlToken(d[..i])
    {
      var q := urlDecode(queryParts[i]);
      assert d[i] == q;
      if EqualsIgnoreCase(param, q) {
        assert FirstMatch(param, d) == i;
        return true, innerQuery;
      }
      if StartsWithIgnoreCase(q, UrlPrefix) {
        innerQuery := Some(q);
      }
      assert d[..i + 1][..i] == d[..i];
      i := i + 1;
    }
    assert d[..i] == d;
    found := false;
  }

  /** IsReferrerInEditMode: a top-level "mode=edit" token, or else a
      "sc_mode=edit" token inside the last "url=" token, one level deep. */
  function IsReferrerInEditMode(env: Ambient): (r: bool)
    ensures r <==>
      env.referrerQuery.Some? && !IsNullOrWhiteSpace(env.referrerQuery) &&
      var q := env.referrerQuery.value;
      var inner := LastUrlToken(DecodeAll(Split(q), env.urlDecode));
      (HasToken(EditModePattern, q, env.urlDecode) ||
       (inner.Some? && HasToken(UrlEditModePattern, inner.value, env.urlDecode)))
  {
    if env.referrerQuery.Some? && !IsNullOrWhiteSpace(env.referrerQuery) then
      var top := QueryScan(EditModePattern, env.referrerQuery.value, env.urlDecode);
      if top.found then true
      else if !IsNullOrWhiteSpace(top.innerQuery) then
        QueryScan(UrlEditModePattern, top.innerQuery.value, env.urlDecode).found
      else false
    else false
  }

  /** IsWorkflowEnabled: the three-way switch on the checking mode. */
  function IsWorkflowEnabled(env: Ambient, workflow: WorkflowContext): (r: bool)
    ensures env.mode == Disabled ==> !r
    ensures env.mode == Enabled ==> r
    ensures env.mode == Default ==>
      (r <==> workflow.context.site.Some?
              && (workflow.context.site.value.enableWorkflow || IsReferrerInEditMode(env)))
  {
    match env.mode
    case Default =>
      var ctx := workflow.context;
      ctx.site.Some? && (ctx.site.value.enableWorkflow || IsReferrerInEditMode(env))
    case Disabled => false
    case Enabled => true
  }

  /** GetWorkflow: the item's workflow, looked up only while checking is on. */
  function GetWorkflow(env: Ambient, workflow: WorkflowContext, item: Option<ItemView>)
    : (r: Result<Option<Workflow>>)
    ensures item.None? ==> r == Err(ArgumentNull("item"))
    ensures item.Some? ==> r.Ok?
    ensures item.Some? && !IsWorkflowEnabled(env, workflow) ==> r == Ok(None)
    ensures item.Some? && item.value.provider.None? ==> r == Ok(None)
    ensures item.Some? && IsWorkflowEnabled(env, workflow) && item.value.provider.Some? ==>
              r == Ok(item.value.provider.value.workflowOf)
  {
    if item.None? then Err(ArgumentNull("item"))
    else if IsWorkflowEnabled(env, workflow) && item.value.provider.Some? then
      Ok(item.value.provider.value.workflowOf)
    else Ok(None)
  }

  /** Process: the approval verdict of the item's workflow, or true without one. */
  function Process(env: Ambient, workflow: WorkflowContext, item: Option<ItemView>): (r: Result<bool>)
    ensures item.None? ==> r == Err(ArgumentNull("item"))
    ensures item.Some? ==> r.Ok?
    ensures r == Ok(false) <==>
      item.Some? && IsWorkflowEnabled(env, workflow) && item.value.provider.Some?
      && item.value.provider.value.workflowOf.Some?
      && !item.value.provider.value.workflowOf.value.approves
    ensures env.mode == Disabled && item.Some? ==> r == Ok(true)
  {
    match GetWorkflow(env, workflow, item)
    case Err(e) => Err(e)
    case Ok(w) => if w.Some? then Ok(w.value.approves) else Ok(true)
  }

  /** HasWorkflow: false while workflows are off globally, otherwise whether
      GetWorkflow, under the same current mode, finds a workflow. */
  function HasWorkflow(env: Ambient, workflow: WorkflowContext, item: Option<ItemView>): (r: Result<bool>)
    ensures !env.workflowsEnabled ==> r == Ok(false)
    ensures env.workflowsEnabled ==> (r.Ok? <==> item.Some?)
    ensures r == Ok(true) <==>
      env.workflowsEnabled && item.Some? && IsWorkflowEnabled(env, workflow)
      && item.value.provider.Some? && item.value.provider.value.workflowOf.Some?
  {
    if !env.workflowsEnabled then Ok(false)
    else
      match GetWorkflow(env, workflow, item)
      case Err(e) => Err(e)
      case Ok(w) => Ok(w.Some?)
  }

  /** In Default mode the referrer matters only when the site exists and does
      not enable workflow by itself. */
  lemma ReferrerConsultedOnlyWhenNeeded(env1: Ambient, env2: Ambient, workflow: WorkflowContext)
    requires env1.mode == Default && env2.mode == Default
    requires workflow.context.site.None? || workflow.context.site.value.enableWorkflow
    ensures IsWorkflowEnabled(env1, workflow) == IsWorkflowEnabled(env2, workflow)
  {
  }

  /** HasWorkflow and Process agree: without a workflow found, Process
      approves; a refusal by Process means HasWorkflow saw a workflow. */
  lemma HasWorkflowAgreesWithProcess(env: Ambient, workflow: WorkflowContext, item: ItemView)
    requires env.workflowsEnabled
    ensures HasWorkflow(env, workflow, Some(item)) == Ok(false) ==> Process(env, workflow, Some(item)) == Ok(true)
    ensures Process(env, workflow, Some(item)) == Ok(false) ==> HasWorkflow(env, workflow, Some(item)) == Ok(true)
  {
  }
}
