/**
 * The SLO list page as one state container: the records, the selection, the
 * filters, the confirmation dialog with the action it will run, and the
 * export dialog's open flag. The children (toolbar, table, bar, export
 * dialog) reach this state only through the handlers modelled here.
 */
module SloListPage {
  import opened Optional
  import opened Text
  import opened Seqs
  import opened SloRecords
  import opened SloTable
  import opened BulkActionBar
  import opened ExportModal

  /** The actions `handleBulkAction` knows. */
  datatype Action = ExportAction | DuplicateAction | DeleteAction | EnableAction | DisableAction

  /** The `switch (action)` of `handleBulkAction`; `None` is the `default` branch. */
  function ParseAction(s: string): Option<Action> {
    match s
    case "export" => Some(ExportAction)
    case "duplicate" => Some(DuplicateAction)
    case "delete" => Some(DeleteAction)
    case "enable" => Some(EnableAction)
    case "disable" => Some(DisableAction)
    case _ => None
  }

  /** Exactly five action strings are handled. */
  lemma ParseActionKnown(s: string)
    ensures ParseAction(s).Some? <==> s in ["export", "duplicate", "delete", "enable", "disable"]
  {
  }

  /** Every value the bulk action bar can dispatch is handled by the page. */
  lemma BarOptionsHandled(i: nat)
    requires 0 < i < |ActionOptions|
    ensures ParseAction(ActionOptions[i]).Some?
  {
  }

  /**
   * The quick buttons reach the page's handler directly: Export opens no
   * confirmation (the page opens the export dialog), Duplicate opens the
   * confirmation that duplicates the whole selection.
   */
  lemma QuickButtonsHandled(selection: seq<string>)
    ensures ParseAction(QuickExportValue) == Some(ExportAction)
    ensures ConfirmFor(ExportAction, selection) == None
    ensures ParseAction(QuickDuplicateValue) == Some(DuplicateAction)
    ensures ConfirmFor(DuplicateAction, selection) == Some(Open(RunDuplicate(selection)))
  {
  }

  /** The action a confirmation dialog runs when confirmed, with the ids it was opened for. */
  datatype Pending =
    | RunDuplicate(ids: seq<string>)
    | RunDelete(ids: seq<string>)
    | RunStatusChange(ids: seq<string>, enable: bool)

  /** A dialog's captions: its style, title, message and the two button texts when not the defaults. */
  datatype Captions = Captions(kind: string, title: string, message: string,
                               confirmText: Option<string>, cancelText: Option<string>)

  /**
   * `confirmModal`; closed, or open with the stored action. The captions it
   * shows are `CaptionsFor(pending)`: they are fixed by the action and its ids
   * when the dialog opens, so they are derived here rather than stored.
   */
  datatype ConfirmModal =
    | Closed
    | Open(pending: Pending)

  /** `${n} SLO${n !== 1 ? 's' : ''}`. */
  function CountPhrase(n: nat): string {
    NatToString(n) + " SLO" + PluralS(n)
  }

  /** The action a confirmable bulk action stores for `ids`; export stores none. */
  function PendingFor(a: Action, ids: seq<string>): (r: Option<Pending>)
    ensures r.None? <==> a == ExportAction
    ensures r.Some? ==> r.value.ids == ids
    ensures a == DuplicateAction ==> r == Some(RunDuplicate(ids))
    ensures a == DeleteAction ==> r == Some(RunDelete(ids))
    ensures a == EnableAction ==> r == Some(RunStatusChange(ids, true))
    ensures a == DisableAction ==> r == Some(RunStatusChange(ids, false))
  {
    match a
    case ExportAction => None
    case DuplicateAction => Some(RunDuplicate(ids))
    case DeleteAction => Some(RunDelete(ids))
    case EnableAction => Some(RunStatusChange(ids, true))
    case DisableAction => Some(RunStatusChange(ids, false))
  }

  /** The captions of the dialog that asks before running `p`; they count the SLOs concerned. */
  function CaptionsFor(p: Pending): Captions {
    var n := |p.ids|;
    match p
    case RunDuplicate(_) =>
      Captions("default", "Duplicate SLOs",
        "Are you sure you want to duplicate " + CountPhrase(n)
        + "? This will create new SLOs with \"_copy\" suffix.",
        None, None)
    case RunDelete(_) =>
      Captions("delete", "Delete SLOs",
        "Are you sure you want to delete " + CountPhrase(n)
        + "? This action cannot be undone and will remove all associated monitoring and alerts.",
        Some("Delete SLOs"), Some("Cancel"))
    case RunStatusChange(_, enable) =>
      if enable then
        Captions("warning", "Enable Monitoring",
          "Are you sure you want to enable monitoring for " + CountPhrase(n)
          + "? This will start all alerts and notifications.",
          Some("Enable Monitoring"), None)
      else
        Captions("warning", "Disable Monitoring",
          "Are you sure you want to disable monitoring for " + CountPhrase(n)
          + "? This will stop all alerts and notifications.",
          Some("Disable Monitoring"), None)
  }

  /** The dialog `handleBulkAction` opens for a confirmable action over `ids`; export opens none. */
  function ConfirmFor(a: Action, ids: seq<string>): (r: Option<ConfirmModal>)
    ensures r.None? <==> a == ExportAction
    ensures r.Some? ==> r.value.Open? && Some(r.value.pending) == PendingFor(a, ids)
    ensures r.Some? ==> r.value.pending.ids == ids
  {
    match PendingFor(a, ids)
    case None => None
    case Some(p) => Some(Open(p))
  }

  /** The captions an open dialog shows. */
  function ModalCaptions(m: ConfirmModal): Option<Captions> {
    if m.Open? then Some(CaptionsFor(m.pending)) else None
  }

  /** Every id is the id of some record. */
  predicate IdsKnown(ids: seq<string>, slos: seq<Slo>) {
    forall i :: 0 <= i < |ids| ==> ids[i] in Ids(slos)
  }

  /** The records after the stored action runs, reading the clock through `now` and `today`. */
  function Run(p: Pending, slos: seq<Slo>, now: nat -> nat, today: nat -> string): seq<Slo>
    requires IdsKnown(p.ids, slos)
  {
    match p
    case RunDuplicate(ids) => Duplicate(slos, ids, now, today)
    case RunDelete(ids) => Delete(slos, ids)
    case RunStatusChange(ids, enable) => SetMonitoring(slos, ids, enable, today)
  }

  /** Every displayed record is one of the page's records, so its id is known. */
  lemma DisplayedIdsKnown(slos: seq<Slo>, f: Filters)
    ensures forall i :: 0 <= i < |FilterSlos(slos, f)| ==> FilterSlos(slos, f)[i].id in Ids(slos)
  {
    var shown := FilterSlos(slos, f);
    forall i | 0 <= i < |shown|
      ensures shown[i].id in Ids(slos)
    {
      var j :| 0 <= j < |slos| && slos[j] == shown[i];
      assert Ids(slos)[j] == shown[i].id;
    }
  }

  class Page {
    var slos: seq<Slo>
    var selected: seq<string>
    var filters: Filters
    var confirm: ConfirmModal
    var exportOpen: bool

    /** Selected ids and the ids a pending action will use all name existing records. */
    ghost predicate Valid()
      reads this
    {
      && IdsKnown(selected, slos)
      && (confirm.Open? ==> IdsKnown(confirm.pending.ids, slos))
    }

    /** `filteredSLOs`: what the table shows and the toolbar counts. */
    function Displayed(): seq<Slo>
      reads this
    {
      FilterSlos(slos, filters)
    }

    constructor ()
      ensures Valid()
      ensures slos == MockSlos && selected == [] && filters == DefaultFilters
      ensures confirm == Closed && !exportOpen
    {
      slos := MockSlos;
      selected := [];
      filters := DefaultFilters;
      confirm := Closed;
      exportOpen := false;
    }

    /** `handleFilterChange`: new filters, and the selection is cleared. */
    method ChangeFilters(f: Filters)
      requires Valid()
      modifies this
      ensures Valid()
      ensures filters == f && selected == []
      ensures slos == old(slos) && confirm == old(confirm) && exportOpen == old(exportOpen)
    {
      filters := f;
      selected := [];
    }

    /** `handleClearFilters`: the default filters, and the selection is cleared. */
    method ClearFilters()
      requires Valid()
      modifies this
      ensures Valid()
      ensures filters == DefaultFilters && selected == []
      ensures slos == old(slos) && confirm == old(confirm) && exportOpen == old(exportOpen)
    {
      filters := DefaultFilters;
      selected := [];
    }

    /** The table's select-all box over the displayed records. */
    method SelectAllDisplayed(checked: bool)
      requires Valid()
      modifies this
      ensures Valid()
      ensures selected == SelectAll(old(Displayed()), checked)
      ensures slos == old(slos) && filters == old(filters)
      ensures confirm == old(confirm) && exportOpen == old(exportOpen)
    {
      DisplayedIdsKnown(slos, filters);
      selected := SelectAll(Displayed(), checked);
    }

    /** A row checkbox; rows exist only for displayed records. */
    method SelectRow(id: string, checked: bool)
      requires Valid() && id in Ids(Displayed())
      modifies this
      ensures Valid()
      ensures selected == SelectOne(old(selected), id, checked)
      ensures slos == old(slos) && filters == old(filters)
      ensures confirm == old(confirm) && exportOpen == old(exportOpen)
    {
      DisplayedIdsKnown(slos, filters);
      var newSelection := SelectOne(selected, id, checked);
      if !checked {
        FilterIsSubseq(selected, (x: string) => x != id);
      }
      selected := newSelection;
    }

    /** The bar's Clear button. */
    method ClearSelection()
      requires Valid()
      modifies this
      ensures Valid() && selected == []
      ensures slos == old(slos) && filters == old(filters)
      ensures confirm == old(confirm) && exportOpen == old(exportOpen)
    {
      selected := [];
    }

    /**
     * `handleBulkAction(action, sloIds = selectedSLOs)`: a row passes its own
     * id, the bar passes nothing. Export opens the export dialog; the other
     * known actions open a confirmation dialog holding the action; unknown
     * actions change nothing. The records never change here.
     */
    method BulkAction(action: string, rowIds: Option<seq<string>>)
      requires Valid()
      requires rowIds.Some? ==> forall i :: 0 <= i < |rowIds.value| ==> rowIds.value[i] in Ids(Displayed())
      modifies this
      ensures Valid()
      ensures slos == old(slos) && selected == old(selected) && filters == old(filters)
      ensures ParseAction(action) == None ==> confirm == old(confirm) && exportOpen == old(exportOpen)
      ensures ParseAction(action) == Some(ExportAction) ==> exportOpen && confirm == old(confirm)
      ensures ParseAction(action).Some? && ParseAction(action) != Some(ExportAction) ==>
        exportOpen == old(exportOpen)
        && Some(confirm) == ConfirmFor(ParseAction(action).value, rowIds.GetOr(old(selected)))
    {
      var ids := rowIds.GetOr(selected);
      var parsed := ParseAction(action);
      if parsed.Some? && parsed.value != ExportAction {
        DisplayedIdsKnown(slos, filters);
        assert IdsKnown(ids, slos);
        var dialog := ConfirmFor(parsed.value, ids);
        confirm := dialog.value;
      } else if parsed.Some? {
        exportOpen := true;
      }
    }

    /** The dialog's confirm button: runs the stored action, clears the selection, closes the dialog. */
    method Confirm(now: nat -> nat, today: nat -> string)
      requires Valid() && confirm.Open?
      modifies this
      ensures Valid()
      ensures slos == Run(old(confirm).pending, old(slos), now, today)
      ensures selected == [] && confirm == Closed
      ensures filters == old(filters) && exportOpen == old(exportOpen)
    {
      slos := Run(confirm.pending, slos, now, today);
      selected := [];
      confirm := Closed;
    }

    /** The dialog's cancel button or backdrop. */
    method CloseConfirm()
      requires Valid()
      modifies this
      ensures Valid() && confirm == Closed
      ensures slos == old(slos) && selected == old(selected) && filters == old(filters)
      ensures exportOpen == old(exportOpen)
    {
      confirm := Closed;
    }

    /**
     * `handleExport`: hands over the selected records in record order with
     * the dialog's configuration, clears the selection and closes the dialog.
     */
    method Export(config: ExportConfig) returns (data: seq<Slo>, format: string, fields: seq<string>)
      requires Valid()
      modifies this
      ensures Valid()
      ensures data == ExportSelection(old(slos), old(selected))
      ensures format == config.format && fields == config.fields
      ensures selected == [] && !exportOpen
      ensures slos == old(slos) && filters == old(filters) && confirm == old(confirm)
    {
      data := ExportSelection(slos, selected);
      format := config.format;
      fields := config.fields;
      selected := [];
      exportOpen := false;
    }

    /** The export dialog's close and cancel buttons. */
    method CloseExport()
      requires Valid()
      modifies this
      ensures Valid() && !exportOpen
      ensures slos == old(slos) && selected == old(selected) && filters == old(filters)
      ensures confirm == old(confirm)
    {
      exportOpen := false;
    }
  }

  /** A status change or delete keeps the other records' ids known, and a duplicate keeps all of them. */
  lemma RunKeepsIdsOfKept(p: Pending, slos: seq<Slo>, now: nat -> nat, today: nat -> string)
    requires IdsKnown(p.ids, slos)
    ensures p.RunStatusChange? ==> Ids(Run(p, slos, now, today)) == Ids(slos)
    ensures p.RunDuplicate? ==> Ids(Run(p, slos, now, today))[..|slos|] == Ids(slos)
    ensures p.RunDelete? ==> forall i :: 0 <= i < |Run(p, slos, now, today)| ==> Run(p, slos, now, today)[i].id !in p.ids
  {
    match p
    case RunStatusChange(ids, enable) =>
      SetMonitoringIds(slos, ids, enable, today);
    case RunDuplicate(ids) =>
      var r := Duplicate(slos, ids, now, today);
      assert r[..|slos|] == slos;
      assert Ids(r)[..|slos|] == Ids(slos);
    case RunDelete(ids) =>
      DeleteKeeps(slos, ids);
  }
}
