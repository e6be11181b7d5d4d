# Approval gate and lock toggle of the page editor (hotfix 76398 / 156563)

This project models a Sitecore hotfix for the page editor's lock button. It
has two parts.

- **The approval gate** (`IsApprovedHandler`) decides whether the workflow
  engine should be consulted for an item. It works from the process-wide
  workflow-checking mode (`Default`, `Disabled` or another value). In
  `Default` mode it asks whether the context site enables workflow, or
  whether the HTTP referrer is a page-editor page. A referrer is in edit
  mode when its query, split on `?`, `&` and `/` with each token URL-decoded,
  has a `mode=edit` token. Failing that, the last `url=` token is searched
  one level deep for `sc_mode=edit`. The gate gives an item's approval
  verdict (`Process`) and says whether the item is under a workflow
  (`HasWorkflow`).
- **The lock toggle** (`ToggleLockRequest`) behaves as follows:
  - a locked item is unlocked;
  - for an administrator, an unlocked item is locked;
  - otherwise the edit-start policy runs. The first of these guards that
    holds decides:
    - lock-before-editing is off: the item is returned unchanged;
    - the workflow context is administrative, the item is a
      standard-values holder, there is no workflow, or the item is not
      approved: the item itself is locked;
    - otherwise a new version is added and locked.

  The response reports the final item's lock state, version number and
  revision. The `sc_date` cookie is reset when the version changed.

Modules:

- `Wrappers` (`wrappers.dfy`): `Option`, `Result` and the two failures the
  source can raise: a null-argument assertion and a null dereference.
- `Text` (`text.dfy`): the three .NET string operations the gate relies on:
  - `String.Split` over `?`, `&`, `/` with empty entries removed;
  - invariant-culture case-insensitive equality and prefix tests, as ASCII
    case folding;
  - `String.IsNullOrWhiteSpace`.
- `ApprovalGate` (`approval_gate.dfy`): the gate as pure functions, except
  the token scan `IsInQuery`. That scan is a method with a loop, proved
  against the specification function `QueryScan`.
- `ReferrerExamples` (`referrer_examples.dfy`): concrete referrer queries
  and the gate's verdict on them.
- `LockToggle` (`lock_toggle.dfy`): items as a class whose lock flag changes
  in place, and the request as a class. Its cookie flag and ghost counters
  of lock attempts and added versions are updated by the methods. Each
  method is proved against a reference function (`EditRoute`,
  `ExpectedStart`, `ExpectedToggle`) of the state before the call.

Platform services enter as data:

- the current checking mode, `Settings.Workflows.Enabled`, the referrer
  query and `Server.UrlDecode` (an arbitrary function) form `Ambient`;
- the settings, the user, the workflow context, whether a lock is granted
  and what `AddVersion` yields form `Platform`.

A toggle answered by a new version is locked only when the new version's
template has the lock field (ToggleLockRequest.cs:92). `NewVersionOnApproval`
states this.

## Model

| member | source | states |
|---|---|---|
| Text.SplitTokensWellFormed | src/Sitecore.Support.76398.156563/IsApprovedHandler.cs:83 | every part the split yields is non-empty and contains none of `?`, `&`, `/` |
| Text.SplitKeepsEverythingButSeparators | src/Sitecore.Support.76398.156563/IsApprovedHandler.cs:83 | the parts of the split, concatenated, are the query with its separators removed: no other character is lost or added |
| Text.SplitToken | src/Sitecore.Support.76398.156563/IsApprovedHandler.cs:83 | a non-empty separator-free token followed by a separator is the first part, and the split continues on the rest |
| Text.SplitSeparator | src/Sitecore.Support.76398.156563/IsApprovedHandler.cs:83 | a leading separator yields no part (empty entries are removed) |
| ApprovalGate.FirstMatch | src/Sitecore.Support.76398.156563/IsApprovedHandler.cs:85-91 | the position where the scan stops: no earlier decoded token equals the parameter up to case, and the one there does |
| ApprovalGate.LastUrlToken | src/Sitecore.Support.76398.156563/IsApprovedHandler.cs:92-95 | absent iff no token starts with `url=` up to case; otherwise a token that does, with none after it |
| ApprovalGate.UrlTokenNotBlank | src/Sitecore.Support.76398.156563/IsApprovedHandler.cs:71 | a remembered `url=` token is never null or white space |
| ApprovalGate.MatchIffHasToken | src/Sitecore.Support.76398.156563/IsApprovedHandler.cs:85-91 | the scan stops early exactly when some decoded token equals the parameter up to case |
| ApprovalGate.QueryScan | src/Sitecore.Support.76398.156563/IsApprovedHandler.cs:80-98 | found iff some decoded token equals the parameter up to case; when not found, the inner query is the last decoded `url=` token; an inner query always starts with `url=` and is not blank |
| ApprovalGate.IsInQuery | src/Sitecore.Support.76398.156563/IsApprovedHandler.cs:80-98 | the loop's result and out-parameter equal `QueryScan`: it returns at the first matching token, having remembered the last `url=` token before it |
| ApprovalGate.IsReferrerInEditMode | src/Sitecore.Support.76398.156563/IsApprovedHandler.cs:58-78 | true iff a referrer is present, its query is not blank, and either a top-level token is `mode=edit` or the last `url=` token has an `sc_mode=edit` token |
| ApprovalGate.IsWorkflowEnabled | src/Sitecore.Support.76398.156563/IsApprovedHandler.cs:42-56 | `Disabled` gives false and any other non-default mode true; `Default` gives true iff the site exists and enables workflow or the referrer is in edit mode |
| ApprovalGate.GetWorkflow | src/Sitecore.Support.76398.156563/IsApprovedHandler.cs:28-40 | a null item fails with an argument-null error; no workflow while checking is off or without a provider; otherwise exactly the provider's answer |
| ApprovalGate.Process | src/Sitecore.Support.76398.156563/IsApprovedHandler.cs:17-26 | a null item fails; false exactly when checking is on and a workflow is found that does not approve; always true in `Disabled` mode |
| ApprovalGate.HasWorkflow | src/Sitecore.Support.76398.156563/IsApprovedHandler.cs:100-107 | false while workflows are off globally; otherwise it fails exactly on a null item and is true exactly when `GetWorkflow` finds a workflow under the same mode |
| ApprovalGate.ReferrerConsultedOnlyWhenNeeded | src/Sitecore.Support.76398.156563/IsApprovedHandler.cs:46-50 | in `Default` mode, without a site or with a workflow-enabled site, the referrer cannot change whether checking is on |
| ApprovalGate.HasWorkflowAgreesWithProcess | src/Sitecore.Support.76398.156563/IsApprovedHandler.cs:100-107 | when `HasWorkflow` sees no workflow, `Process` approves; a refusal by `Process` implies `HasWorkflow` is true |
| ReferrerExamples.EditModeByTopToken | src/Sitecore.Support.76398.156563/IsApprovedHandler.cs:66-70 | any decoded top-level token equal to `mode=edit` up to case puts the referrer in edit mode |
| ReferrerExamples.NoEditModeBySingleToken | src/Sitecore.Support.76398.156563/IsApprovedHandler.cs:63-77 | a query whose only token is neither `mode=edit` nor a `url=` token is not in edit mode |
| ReferrerExamples.EditModeByInnerToken | src/Sitecore.Support.76398.156563/IsApprovedHandler.cs:71-75 | a query with a single decoded `url=` token that carries an `sc_mode=edit` token is in edit mode |
| ReferrerExamples.TopLevelEditMode | src/Sitecore.Support.76398.156563/IsApprovedHandler.cs:60-70 | `?mode=edit` is in edit mode |
| ReferrerExamples.TopLevelEditModeAnyCase | src/Sitecore.Support.76398.156563/IsApprovedHandler.cs:83-91 | `/page?id=3&Mode=Edit` is in edit mode: the comparison ignores case and `/` separates tokens |
| ReferrerExamples.NoEditMode | src/Sitecore.Support.76398.156563/IsApprovedHandler.cs:62-77 | `?mode=view` and a missing referrer are not in edit mode |
| ReferrerExamples.TopLevelUrlPatternIgnored | src/Sitecore.Support.76398.156563/IsApprovedHandler.cs:60-66 | a top-level `sc_mode=edit` alone does not put the referrer in edit mode |
| ReferrerExamples.NestedEditMode | src/Sitecore.Support.76398.156563/IsApprovedHandler.cs:71-75 | `?url=%2Fpage%3Fsc_mode%3Dedit`, decoded, is in edit mode through its inner query |
| LockToggle.Item.constructor | src/Sitecore.Support.76398.156563/ToggleLockRequest.cs:20 | an item version has a number no greater than its latest version |
| LockToggle.Item.NextVersion | src/Sitecore.Support.76398.156563/ToggleLockRequest.cs:82 | an added version is numbered after the latest one, unlocked, with the same template and workflow |
| LockToggle.Item.Lock | src/Sitecore.Support.76398.156563/ToggleLockRequest.cs:92 | succeeds exactly when the lock is granted, and then the item is locked; otherwise the lock flag is unchanged |
| LockToggle.Item.Unlock | src/Sitecore.Support.76398.156563/ToggleLockRequest.cs:37 | the item is unlocked afterwards |
| LockToggle.Item.AddVersion | src/Sitecore.Support.76398.156563/ToggleLockRequest.cs:82-83 | null exactly when the platform refuses; otherwise a fresh next version |
| LockToggle.ToggleLockRequest.IsApproved | src/Sitecore.Support.76398.156563/ToggleLockRequest.cs:99-102 | not approved exactly when checking is on and the item's workflow does not approve |
| LockToggle.ToggleLockRequest.EditRoute | src/Sitecore.Support.76398.156563/ToggleLockRequest.cs:56-88 | the item is returned as is iff lock-before-editing is off or the user is an administrator; a version is added iff all four lock guards fail; otherwise the item itself is locked |
| LockToggle.ToggleLockRequest.ExpectedStart | src/Sitecore.Support.76398.156563/ToggleLockRequest.cs:56-88 | the version changes only on the new-version route, to the latest plus one; with lock-before-editing off the state is unchanged; null exactly when the version is refused or a needed lock is refused |
| LockToggle.ToggleLockRequest.ExpectedToggle | src/Sitecore.Support.76398.156563/ToggleLockRequest.cs:33-46 | a locked item ends unlocked with the same version; an administrator's item ends locked iff the lock is granted, same version; a result is locked only if the item was unlocked; null and a version change only on the non-administrator edit path, and a changed version is greater |
| LockToggle.ToggleLockRequest.Lock | src/Sitecore.Support.76398.156563/ToggleLockRequest.cs:90-97 | null exactly when the lock field is in the template and the lock is refused; without the field no lock is attempted and the item is returned |
| LockToggle.ToggleLockRequest.StartEditing | src/Sitecore.Support.76398.156563/ToggleLockRequest.cs:56-88 | the result's state is `ExpectedStart`; every lock guard locks the original item; a different item returned is a fresh version with a greater number, and the original's lock flag is then unchanged; a version is added exactly once on the new-version route and never otherwise; at most one lock attempt |
| LockToggle.ToggleLockRequest.SwitchLock | src/Sitecore.Support.76398.156563/ToggleLockRequest.cs:33-46 | the result's state is `ExpectedToggle`; a locked item or an administrator gets the same item back and no version; unlocking attempts no lock; when a new version or null is returned, the given item's lock flag is unchanged |
| LockToggle.ToggleLockRequest.HandleVersionCreating | src/Sitecore.Support.76398.156563/ToggleLockRequest.cs:48-54 | the cookie is reset iff the final item's version number differs from the request item's |
| LockToggle.ToggleLockRequest.ProcessRequest | src/Sitecore.Support.76398.156563/ToggleLockRequest.cs:17-31 | the response reports lock state, version and revision of the `ExpectedToggle` state; a null final item fails with a null dereference; the cookie is reset iff a response reports a different, and then greater, version; the request item ends in the reported lock state when the response is about it, and keeps its lock flag otherwise |
| LockToggle.ToggleDenied | src/Sitecore.Support.76398.156563/ToggleLockRequest.cs:82-96 | a toggle yields no item iff, for a non-administrator on an unlocked item, the needed version was refused or the needed lock was refused |
| LockToggle.DisabledModeRoute | src/Sitecore.Support.76398.156563/ToggleLockRequest.cs:74-81 | with checking `Disabled`, no workflow is seen and every item counts as approved, so only the default workflow decides whether a version is added |
| LockToggle.NewVersionOnApproval | src/Sitecore.Support.76398.156563/ToggleLockRequest.cs:82-87 | an approved item under a workflow is answered with its next version, locked exactly when its template has the lock field |

## Left out

- HTTP: the referrer, `Server.UrlDecode` and the `sc_date` cookie. The referrer's query and the decoder are inputs, and the decoder is an arbitrary function. The cookie is a flag saying whether it was reset; its key, value and expiry are not modelled.
- Reflection on the workflow context's private `_context` field is not modelled. The model reads the context as a plain field, and the `Switcher` current value is an input.
- The target database passed to a workflow's `IsApproved` is not modelled: a workflow is reduced to its verdict for the call.
- The workflow engine, `TemplateManager`, `StandardValuesManager` and `HasDefaultWorkflow` enter as item attributes. Lock acquisition and `AddVersion` enter as platform outcomes. Persistence of items and versions is not modelled.
- LockToggle.Item.Unlock: the unlock is assumed always to be granted. A refused unlock would leave the item locked, and the response would report `Locked = true`; the model cannot express that. Its result is ignored at ToggleLockRequest.cs:37, and the platform's rule for refusing an unlock is not part of this model.
- `RequestContext.ValidateContextItem` and the serialisation of the response are not part of this model. The request item is never null here.
- `Text.EqualsIgnoreCase`: invariant-culture case folding is modelled as ASCII folding only.
- `Text.IsWhiteSpace`: a fixed list of Unicode white-space characters, without Unicode category tables.
- Concurrency: requests are modelled one at a time, and the ghost counters count lock attempts and added versions within one request.
