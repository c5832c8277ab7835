/**
 * The edit page: which SLO it opens, the record it loads, the confirmation
 * dialog between the form's save and the write, the version a save gives,
 * and the cancel button's unsaved-changes question.
 */
module EditSlo {
  import opened Optional
  import opened Router
  import opened Docs

  /** The id used when the address names none. */
  const DefaultId: string := "slo-api-gateway-001"

  /** `searchParams.get('id') || 'slo-api-gateway-001'`: an absent or empty id falls back to the default. */
  function SloIdFrom(param: Option<string>): (id: string)
    ensures id != ""
    ensures param.Some? && param.value != "" ==> id == param.value
    ensures param.None? || param.value == "" ==> id == DefaultId
  {
    if param.Some? && param.value != "" then param.value else DefaultId
  }

  /** The record the page loads, whatever id it was opened with. */
  const MockSlo: Doc := map[
    Id := JStr("slo-api-gateway-001"),
    Name := JStr("API Gateway Availability SLO"),
    Description := JStr("Ensures API Gateway maintains high availability for critical user-facing operations with 99.9% uptime target"),
    Service := JStr("api-gateway"),
    MetricSource := JStr("prometheus"),
    TargetThreshold := JStr("99.9"),
    EvaluationWindow := JStr("15m"),
    AlertingEnabled := JBool(true),
    AlertThreshold := JStr("99.5"),
    NotificationChannels := JList(["email", "slack", "pagerduty"]),
    Status := JStr("healthy"),
    CreatedAt := JDate("2024-10-15T11:00:00"),
    UpdatedAt := JDate("2024-10-29T10:30:00"),
    Version := JStr("1.4")]

  /** The version a save writes: a new version is 1.5, an update 1.4.1. */
  function NextVersion(pending: Doc): string {
    if Truthy(Get(pending, SaveAsNew)) then "1.5" else "1.4.1"
  }

  /** `{ ...pendingChanges, updatedAt: new Date(), version }`, with `now` the clock's reading. */
  function Saved(pending: Doc, now: string): Doc {
    pending[UpdatedAt := JDate(now)][Version := JStr(NextVersion(pending))]
  }

  /** A save keeps every property of the pending record but the stamp and the version, and adds those two. */
  lemma SavedKeeps(pending: Doc, now: string)
    ensures Saved(pending, now).Keys == pending.Keys + {UpdatedAt, Version}
    ensures Saved(pending, now)[UpdatedAt] == JDate(now)
    ensures Saved(pending, now)[Version] == JStr(NextVersion(pending))
    ensures forall k :: k in pending && k != UpdatedAt && k != Version ==> Saved(pending, now)[k] == pending[k]
  {
  }

  /** Saving the saved record once more changes nothing but its stamp. */
  lemma {:induction false} SavedTwice(pending: Doc, now: string, later: string)
    ensures Saved(Saved(pending, now), later) == Saved(pending, later)
  {
    var once := Saved(pending, now);
    assert Get(once, SaveAsNew) == Get(pending, SaveAsNew);
    assert NextVersion(once) == NextVersion(pending);
  }

  /** The form's "Save as New Version" gives 1.5, its plain save (no flag) 1.4.1. */
  lemma VersionOfForms(form: Doc, now: string)
    requires SaveAsNew !in form
    ensures Saved(form, now)[Version] == JStr("1.4.1")
    ensures Saved(form[SaveAsNew := JBool(true)], now)[Version] == JStr("1.5")
  {
  }

  /** The dialog's explanation. */
  function DialogMessage(pending: Option<Doc>): string {
    if pending.Some? && Truthy(Get(pending.value, SaveAsNew)) then
      "This will create a new version of the SLO with your changes."
    else
      "This will update the current SLO configuration."
  }

  /** The dialog's confirm button. */
  function ConfirmLabel(pending: Option<Doc>): string {
    if pending.Some? && Truthy(Get(pending.value, SaveAsNew)) then "Create New Version" else "Save Changes"
  }

  /** The dialog's words and the version the save will write agree on whether it is a new version. */
  lemma DialogMatchesVersion(pending: Doc, now: string)
    ensures ConfirmLabel(Some(pending)) == "Create New Version" <==> Saved(pending, now)[Version] == JStr("1.5")
    ensures ConfirmLabel(Some(pending)) == "Save Changes" <==> Saved(pending, now)[Version] == JStr("1.4.1")
  {
  }

  /** The page's state. */
  class Page {
    const sloId: string
    var sloData: Option<Doc>
    var originalData: Option<Doc>
    var currentFormData: Option<Doc>
    var isLoading: bool
    var isSaving: bool
    var showConfirmDialog: bool
    var pendingChanges: Option<Doc>
    /** The last `navigate` call, if any. */
    var route: Option<Route>

    /**
     * The three copies of the record are always set together, and nothing
     * ever hands the page the form's edits, so the current data never
     * differs from the original.
     */
    ghost predicate Valid()
      reads this
    {
      && originalData == sloData
      && currentFormData == originalData
      && (!isLoading ==> sloData.Some?)
    }

    /** Mounting: the id from the address, nothing loaded yet, the spinner shown. */
    constructor (idParam: Option<string>)
      ensures Valid() && sloId == SloIdFrom(idParam)
      ensures sloData == None && isLoading && !isSaving && !showConfirmDialog
      ensures pendingChanges == None && route == None
    {
      sloId := SloIdFrom(idParam);
      sloData := None;
      originalData := None;
      currentFormData := None;
      isLoading := true;
      isSaving := false;
      showConfirmDialog := false;
      pendingChanges := None;
      route := None;
    }

    /** The load timer firing: the mock record in all three copies, the spinner gone. */
    method Load()
      requires Valid()
      modifies this
      ensures Valid()
      ensures sloData == Some(MockSlo) && originalData == Some(MockSlo) && currentFormData == Some(MockSlo)
      ensures !isLoading
      ensures isSaving == old(isSaving) && showConfirmDialog == old(showConfirmDialog)
      ensures pendingChanges == old(pendingChanges) && route == old(route)
    {
      sloData := Some(MockSlo);
      originalData := Some(MockSlo);
      currentFormData := Some(MockSlo);
      isLoading := false;
    }

    /** `handleSave`, the form's `onSave`: keeps the record and opens the dialog. */
    method Save(formData: Doc)
      requires Valid()
      modifies this
      ensures Valid()
      ensures pendingChanges == Some(formData) && showConfirmDialog
      ensures sloData == old(sloData) && isLoading == old(isLoading) && isSaving == old(isSaving)
      ensures route == old(route)
    {
      pendingChanges := Some(formData);
      showConfirmDialog := true;
    }

    /** The dialog's cancel button: closes it and keeps the pending record. */
    method CloseDialog()
      requires Valid()
      modifies this
      ensures Valid() && !showConfirmDialog
      ensures sloData == old(sloData) && pendingChanges == old(pendingChanges)
      ensures isLoading == old(isLoading) && isSaving == old(isSaving) && route == old(route)
    {
      showConfirmDialog := false;
    }

    /**
     * `confirmSave` once its delay is over: the pending record (an empty one
     * if none is pending), stamped with `now` and its version, becomes all
     * three copies; the dialog is closed, nothing is pending, and the page
     * returns to the list.
     */
    method ConfirmSave(now: string)
      requires Valid()
      modifies this
      ensures Valid()
      ensures sloData == Some(Saved(old(pendingChanges).GetOr(map[]), now))
      ensures !showConfirmDialog && !isSaving && pendingChanges == None
      ensures route == Some(Route(ListPath, None))
      ensures isLoading == old(isLoading)
    {
      isSaving := true;
      showConfirmDialog := false;
      var updated := Saved(pendingChanges.GetOr(map[]), now);
      sloData := Some(updated);
      originalData := Some(updated);
      currentFormData := Some(updated);
      route := Some(Route(ListPath, None));
      isSaving := false;
      pendingChanges := None;
    }

    /**
     * `handleCancel`: would ask `window.confirm` only when the current data
     * differs from the original, which it never does, so the page always
     * leaves for the list without asking.
     */
    method Cancel() returns (asked: bool)
      requires Valid()
      modifies this
      ensures Valid()
      ensures !asked && route == Some(Route(ListPath, None))
      ensures sloData == old(sloData) && pendingChanges == old(pendingChanges)
      ensures isLoading == old(isLoading) && isSaving == old(isSaving)
      ensures showConfirmDialog == old(showConfirmDialog)
    {
      asked := false;
      if currentFormData.Some? && currentFormData != originalData {
        // the `window.confirm` branch: `Valid()` rules it out
        assert false;
      } else {
        route := Some(Route(ListPath, None));
      }
    }

    /** "View Details": the details page of the same id. */
    method ViewDetails()
      requires Valid()
      modifies this
      ensures Valid()
      ensures route == Some(Route(DetailsPath + "?id=" + sloId, None))
      ensures sloData == old(sloData) && pendingChanges == old(pendingChanges)
      ensures isLoading == old(isLoading) && isSaving == old(isSaving)
      ensures showConfirmDialog == old(showConfirmDialog)
    {
      route := Some(Route(DetailsPath + "?id=" + sloId, None));
    }
  }
}
