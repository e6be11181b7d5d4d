/** ToggleLockRequest: the page editor's lock button. It unlocks a locked
    item, locks an unlocked one directly for an administrator, and otherwise
    runs the edit-start policy, which may add a version before locking, or
    deny the request. */
module LockToggle {
  import opened Wrappers
  import opened ApprovalGate

  /** The platform settings, services and outcomes the request depends on. */
  datatype Platform = Platform(
    requireLockBeforeEditing: bool,  // Settings.RequireLockBeforeEditing
    userIsAdministrator: bool,       // Context.User.IsAdministrator
    workflow: WorkflowContext,       // Context.Workflow
    ambient: Ambient,                // checking mode, Settings.Workflows.Enabled, referrer
    lockAcquirable: bool,            // whether item.Locking.Lock() is granted
    addedVersion: Option<string>)    // AddVersion: None for null, else the new version's revision

  /** The response value: Locked, Version and Revision of the final item. */
  datatype Response = Response(locked: bool, version: nat, revision: string)

  /** What the response can observe of one item version. */
  datatype ItemState = ItemState(locked: bool, version: nat, revision: string)

  /** One version of a content item. Only its lock flag changes in place. */
  class Item {
    var locked: bool
    const version: nat
    const latestVersion: nat          // highest version number the item has
    const revision: string            // the item's revision field
    const lockFieldInTemplate: bool   // TemplateManager.IsFieldPartOfTemplate(FieldIDs.Lock, item)
    const standardValuesHolder: bool  // StandardValuesManager.IsStandardValuesHolder(item)
    const hasDefaultWorkflow: bool    // workflow.HasDefaultWorkflow(item)
    const view: ItemView              // what the approval gate reads of the item

    predicate Valid() {
      version <= latestVersion
    }

    ghost function State(): ItemState
      reads this
    {
      ItemState(locked, version, revision)
    }

    constructor (locked: bool, version: nat, latestVersion: nat, revision: string,
                 lockFieldInTemplate: bool, standardValuesHolder: bool,
                 hasDefaultWorkflow: bool, view: ItemView)
      requires version <= latestVersion
      ensures Valid() && this.locked == locked && this.version == version
      ensures this.latestVersion == latestVersion && this.revision == revision
      ensures this.lockFieldInTemplate == lockFieldInTemplate
      ensures this.standardValuesHolder == standardValuesHolder
      ensures this.hasDefaultWorkflow == hasDefaultWorkflow && this.view == view
    {
      this.locked := locked;
      this.version := version;
      this.latestVersion := latestVersion;
      this.revision := revision;
      this.lockFieldInTemplate := lockFieldInTemplate;
      this.standardValuesHolder := standardValuesHolder;
      this.hasDefaultWorkflow := hasDefaultWorkflow;
      this.view := view;
    }

    /** The version AddVersion creates: numbered after the latest one, unlocked,
        with the same template and workflow as `source`. */
    constructor NextVersion(source: Item, revision: string)
      ensures Valid() && !locked && version == latestVersion == source.latestVersion + 1
      ensures this.revision == revision
      ensures lockFieldInTemplate == source.lockFieldInTemplate
      ensures standardValuesHolder == source.standardValuesHolder
      ensures hasDefaultWorkflow == source.hasDefaultWorkflow && view == source.view
    {
      locked := false;
      version := source.latestVersion + 1;
      latestVersion := source.latestVersion + 1;
      this.revision := revision;
      lockFieldInTemplate := source.lockFieldInTemplate;
      standardValuesHolder := source.standardValuesHolder;
      hasDefaultWorkflow := source.hasDefaultWorkflow;
      view := source.view;
    }

    /** item.Locking.Lock(): true, and the item locked, when the lock is granted. */
    method Lock(acquirable: bool) returns (ok: bool)
      modifies this
      ensures ok == acquirable
      ensures locked == (old(locked) || acquirable)
    {
      ok := acquirable;
      if ok {
        locked := true;
      }
    }

    /** item.Locking.Unlock() */
    method Unlock()
      modifies this
      ensures !locked
    {
      locked := false;
    }

    /** item.Versions.AddVersion(): a fresh next version, or null when refused. */
    method AddVersion(created: Option<string>) returns (v: Item?)
      ensures created.None? <==> v == null
      ensures v != null ==> fresh(v) && v.Valid() && !v.locked
                            && v.version == latestVersion + 1 && v.revision == created.value
                            && v.lockFieldInTemplate == lockFieldInTemplate
                            && v.standardValuesHolder == standardValuesHolder
                            && v.hasDefaultWorkflow == hasDefaultWorkflow && v.view == view
    {
      if created.Some? {
        v := new Item.NextVersion(this, created.value);
      } else {
        v := null;
      }
    }
  }

  /** The observable state of a possibly-null item. */
  ghost function StateOf(item: Item?): Option<ItemState>
    reads item
  {
    if item == null then None else Some(item.State())
  }

  /** The three outcomes of the edit-start policy. */
  datatype Route = ReturnItem | LockItem | LockNewVersion

  class ToggleLockRequest {
    const platform: Platform
    const requestItem: Item          // RequestContext.Item
    var dateCookieCleared: bool      // whether the "sc_date" cookie was reset
    ghost var lockAttempts: nat      // calls of item.Locking.Lock()
    ghost var versionsAdded: nat     // calls of item.Versions.AddVersion()

    constructor (platform: Platform, requestItem: Item)
      ensures this.platform == platform && this.requestItem == requestItem
      ensures !dateCookieCleared && lockAttempts == 0 && versionsAdded == 0
    {
      this.platform := platform;
      this.requestItem := requestItem;
      dateCookieCleared := false;
      lockAttempts := 0;
      versionsAdded := 0;
    }

    /** IsApproved: the approval gate's verdict, with no target database. */
    function IsApproved(item: Item): (r: bool)
      ensures !r <==>
        IsWorkflowEnabled(platform.ambient, platform.workflow) && item.view.provider.Some?
        && item.view.provider.value.workflowOf.Some?
        && !item.view.provider.value.workflowOf.value.approves
    {
      Process(platform.ambient, platform.workflow, Some(item.view)).value
    }

    /** The branch StartEditing takes; its guards are tried in order and the
        first that holds decides. */
    function EditRoute(item: Item): (r: Route)
      ensures r == ReturnItem <==> !platform.requireLockBeforeEditing || platform.userIsAdministrator
      ensures r == LockNewVersion <==>
        platform.requireLockBeforeEditing && !platform.userIsAdministrator
        && !platform.workflow.context.isAdministrator
        && !item.standardValuesHolder
        && (HasWorkflow(platform.ambient, platform.workflow, Some(item.view)) == Ok(true)
            || item.hasDefaultWorkflow)
        && IsApproved(item)
    {
      if !platform.requireLockBeforeEditing || platform.userIsAdministrator then ReturnItem
      else if platform.workflow.context.isAdministrator then LockItem
      else if item.standardValuesHolder then LockItem
      else if !HasWorkflow(platform.ambient, platform.workflow, Some(item.view)).value
              && !item.hasDefaultWorkflow then LockItem
      else if !IsApproved(item) then LockItem
      else LockNewVersion
    }

    /** What Lock does to an item in state `s`. */
    function LockOutcome(lockFieldInTemplate: bool, s: ItemState): Option<ItemState> {
      if !lockFieldInTemplate then Some(s)
      else if platform.lockAcquirable then Some(s.(locked := true))
      else None
    }

    /** The state StartEditing returns, from the item's state before the call. */
    function ExpectedStart(item: Item, wasLocked: bool): (r: Option<ItemState>)
      ensures r.Some? && r.value.version != item.version ==>
                EditRoute(item) == LockNewVersion && r.value.version == item.latestVersion + 1
      ensures EditRoute(item) == ReturnItem ==> r == Some(ItemState(wasLocked, item.version, item.revision))
      ensures r.None? <==>
        (EditRoute(item) == LockNewVersion && platform.addedVersion.None?)
        || (EditRoute(item) != ReturnItem && item.lockFieldInTemplate && !platform.lockAcquirable)
    {
      var s := ItemState(wasLocked, item.version, item.revision);
      match EditRoute(item)
      case ReturnItem => Some(s)
      case LockItem => LockOutcome(item.lockFieldInTemplate, s)
      case LockNewVersion =>
        if platform.addedVersion.None? then None
        else LockOutcome(item.lockFieldInTemplate,
                         ItemState(false, item.latestVersion + 1, platform.addedVersion.value))
    }

    /** The state SwitchLock returns, from the item's state before the call. */
    function ExpectedToggle(item: Item, wasLocked: bool): (r: Option<ItemState>)
      ensures wasLocked ==> r == Some(ItemState(false, item.version, item.revision))
      ensures !wasLocked && platform.userIsAdministrator ==>
                r == Some(ItemState(platform.lockAcquirable, item.version, item.revision))
      ensures r.Some? && r.value.locked ==> !wasLocked
      ensures r.None? ==> !wasLocked && !platform.userIsAdministrator && EditRoute(item) != ReturnItem
      ensures r.Some? && r.value.version != item.version ==>
                !wasLocked && !platform.userIsAdministrator && EditRoute(item) == LockNewVersion
                && (item.Valid() ==> r.value.version > item.version)
    {
      if wasLocked then Some(ItemState(false, item.version, item.revision))
      else if platform.userIsAdministrator then
        Some(ItemState(platform.lockAcquirable, item.version, item.revision))
      else ExpectedStart(item, false)
    }

    /** Lock: locks the item when its template has the lock field; null when
        that lock is refused. */
    method Lock(item: Item) returns (res: Item?)
      modifies this, item
      ensures StateOf(res) == LockOutcome(item.lockFieldInTemplate, old(item.State()))
      ensures res == null || res == item
      ensures item.locked == (old(item.locked) || (item.lockFieldInTemplate && platform.lockAcquirable))
      ensures lockAttempts == old(lockAttempts) + (if item.lockFieldInTemplate then 1 else 0)
      ensures versionsAdded == old(versionsAdded) && dateCookieCleared == old(dateCookieCleared)
    {
      if item.lockFieldInTemplate {
        lockAttempts := lockAttempts + 1;
        var ok := item.Lock(platform.lockAcquirable);
        if !ok {
          return null;
        }
      }
      return item;
    }

    /** StartEditing: the edit-start policy for a non-administrator. */
    method StartEditing(item: Item) returns (res: Item?)
      requires item.Valid()
      modifies this, item
      ensures StateOf(res) == ExpectedStart(item, old(item.locked))
      ensures res != null && res != item ==> fresh(res) && EditRoute(item) == LockNewVersion
                                             && res.version > item.version
      ensures EditRoute(item) == ReturnItem ==> res == item && lockAttempts == old(lockAttempts)
      ensures res != item ==> item.locked == old(item.locked)
      ensures versionsAdded == old(versionsAdded) + (if EditRoute(item) == LockNewVersion then 1 else 0)
      ensures lockAttempts <= old(lockAttempts) + 1
      ensures dateCookieCleared == old(dateCookieCleared)
    {
      if !platform.requireLockBeforeEditing || platform.userIsAdministrator {
        return item;
      }
      if platform.workflow.context.isAdministrator {
        res := Lock(item);
        return;
      }
      if item.standardValuesHolder {
        res := Lock(item);
        return;
      }
      if !HasWorkflow(platform.ambient, platform.workflow, Some(item.view)).value
         && !item.hasDefaultWorkflow {
        res := Lock(item);
        return;
      }
      if !IsApproved(item) {
        res := Lock(item);
        return;
      }
      versionsAdded := versionsAdded + 1;
      var item2 := item.AddVersion(platform.addedVersion);
      if item2 != null {
        res := Lock(item2);
        return;
      }
      return null;
    }

    /** SwitchLock: unlock, lock directly for an administrator, or start editing. */
    method SwitchLock(item: Item) returns (res: Item?)
      requires item.Valid()
      modifies this, item
      ensures StateOf(res) == ExpectedToggle(item, old(item.locked))
      ensures res != null && res != item ==> fresh(res) && res.version > item.version
      ensures res != item ==> item.locked == old(item.locked)
      ensures old(item.locked) || platform.userIsAdministrator ==> res == item && versionsAdded == old(versionsAdded)
      ensures old(item.locked) ==> lockAttempts == old(lockAttempts)
      ensures lockAttempts <= old(lockAttempts) + 1 && versionsAdded <= old(versionsAdded) + 1
      ensures versionsAdded == old(versionsAdded) + 1 <==>
                !old(item.locked) && !platform.userIsAdministrator && EditRoute(item) == LockNewVersion
      ensures dateCookieCleared == old(dateCookieCleared)
    {
      if item.locked {
        item.Unlock();
        return item;
      }
      if platform.userIsAdministrator {
        lockAttempts := lockAttempts + 1;
        var _ := item.Lock(platform.lockAcquirable);
        return item;
      }
      res := StartEditing(item);
    }

    /** HandleVersionCreating: resets the "sc_date" cookie when the version changed. */
    method HandleVersionCreating(finalItem: Item)
      modifies this
      ensures dateCookieCleared == (old(dateCookieCleared) || requestItem.version != finalItem.version)
      ensures lockAttempts == old(lockAttempts) && versionsAdded == old(versionsAdded)
    {
      if requestItem.version != finalItem.version {
        dateCookieCleared := true;
      }
    }

    /** ProcessRequest: toggles the lock and reports the final item, failing
        when SwitchLock yields null. */
    method ProcessRequest() returns (r: Result<Response>)
      requires requestItem.Valid()
      modifies this, requestItem
      ensures r == match ExpectedToggle(requestItem, old(requestItem.locked))
                   case None => Err(NullReference)
                   case Some(s) => Ok(Response(s.locked, s.version, s.revision))
      ensures dateCookieCleared == (old(dateCookieCleared) || (r.Ok? && r.value.version != requestItem.version))
      ensures r.Ok? && r.value.version != requestItem.version ==> r.value.version > requestItem.version
      ensures r.Ok? && r.value.version == requestItem.version ==> requestItem.locked == r.value.locked
      ensures (r.Err? || r.value.version != requestItem.version) ==> requestItem.locked == old(requestItem.locked)
      ensures lockAttempts <= old(lockAttempts) + 1 && versionsAdded <= old(versionsAdded) + 1
    {
      var item := SwitchLock(requestItem);
      if item == null {
        return Err(NullReference);
      }
      HandleVersionCreating(item);
      r := Ok(Response(item.locked, item.version, item.revision));
    }
  }

  /** A toggle yields no item exactly when a non-administrator's edit start
      either needed a version the platform refused to add, or needed a lock
      the platform refused. */
  lemma ToggleDenied(t: ToggleLockRequest, item: Item, wasLocked: bool)
    ensures t.ExpectedToggle(item, wasLocked).None? <==>
      !wasLocked && !t.platform.userIsAdministrator
      && ((t.EditRoute(item) == LockNewVersion && t.platform.addedVersion.None?)
          || (t.EditRoute(item) != ReturnItem && item.lockFieldInTemplate && !t.platform.lockAcquirable))
  {
  }

  /** HasWorkflow reads the same checking mode as the approval verdict: with
      checking Disabled no workflow is seen and every item counts as approved,
      so only the default workflow decides whether a version is added. */
  lemma DisabledModeRoute(t: ToggleLockRequest, item: Item)
    requires t.platform.ambient.mode == Disabled
    requires t.platform.requireLockBeforeEditing && !t.platform.userIsAdministrator
    requires !t.platform.workflow.context.isAdministrator && !item.standardValuesHolder
    ensures t.EditRoute(item) == (if item.hasDefaultWorkflow then LockNewVersion else LockItem)
  {
  }

  /** An unlocked, approved item under a workflow, edited by a non-administrator
      who must lock before editing, is answered by its next version, which is
      locked exactly when its template has the lock field. */
  lemma NewVersionOnApproval(t: ToggleLockRequest, item: Item, revision: string)
    requires t.platform.requireLockBeforeEditing && !t.platform.userIsAdministrator
    requires !t.platform.workflow.context.isAdministrator && !item.standardValuesHolder
    requires HasWorkflow(t.platform.ambient, t.platform.workflow, Some(item.view)) == Ok(true)
    requires t.IsApproved(item)
    requires t.platform.addedVersion == Some(revision)
    requires item.lockFieldInTemplate ==> t.platform.lockAcquirable
    ensures t.ExpectedToggle(item, false)
            == Some(ItemState(item.lockFieldInTemplate, item.latestVersion + 1, revision))
  {
  }
}
