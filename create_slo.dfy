/**
 * The create page around the form: the draft kept in the browser's local
 * storage, field edits that clear their own error, validation on submit,
 * and the cancel flow with its "unsaved changes" dialog.
 */
module CreateSlo {
  import opened Optional
  import opened Runtime
  import opened CreateForm
  import opened Router

  /** The local-storage key of the draft. */
  const DraftKey: string := "slo-create-draft"

  /**
   * A stored string: the JSON text of a form, or anything `JSON.parse`
   * rejects (the empty string, which the page skips as falsy, behaves the same).
   */
  datatype Stored = FormJson(form: Form) | Unparseable

  /** The browser's `localStorage`: strings under string keys. */
  class LocalStorage {
    var entries: map<string, Stored>

    constructor (entries: map<string, Stored>)
      ensures this.entries == entries
    {
      this.entries := entries;
    }
  }

  /** The form the page opens with: the stored draft when it parses, the initial form otherwise. */
  function LoadDraft(entries: map<string, Stored>): (form: Form)
    ensures DraftKey !in entries ==> form == DefaultForm
    ensures DraftKey in entries && entries[DraftKey] == Unparseable ==> form == DefaultForm
  {
    if DraftKey in entries && entries[DraftKey].FormJson? then entries[DraftKey].form else DefaultForm
  }

  /** A saved draft comes back unchanged when the page is opened again. */
  lemma DraftRoundTrip(entries: map<string, Stored>, form: Form)
    ensures LoadDraft(entries[DraftKey := FormJson(form)]) == form
  {
  }

  /** Once the draft is removed the page opens with the initial form, whatever else is stored. */
  lemma RemovedDraftLoadsDefault(entries: map<string, Stored>)
    ensures LoadDraft(entries - {DraftKey}) == DefaultForm
    ensures (entries - {DraftKey}).Keys == entries.Keys - {DraftKey}
  {
  }

  /** `SLO "<name>" created successfully`: the name reads back from between the quotes. */
  function CreatedMessage(name: string): (m: string)
    ensures |m| == |name| + 27
    ensures m[5..|name| + 5] == name
    ensures m[..5] == "SLO \"" && m[|name| + 5..] == "\" created successfully"
  {
    "SLO \"" + name + "\" created successfully"
  }

  /**
   * Every error the page shows is a checked field's steady-rule message for
   * that field's current value: an error goes only when its field is edited,
   * so it is never stale except on an alert field while alerting is off.
   */
  ghost predicate ErrorsSteady(form: Form, errors: map<Field, Problem>, js: Js) {
    forall f :: f in errors ==> f in Checked && SteadyRule(form, f, js) == Some(errors[f])
  }

  /** A fresh validation leaves steady errors. */
  lemma {:induction false} ValidatedSteady(form: Form, js: Js)
    ensures ErrorsSteady(form, Errors(form, js), js)
  {
    forall f | f in Errors(form, js)
      ensures f in Checked && SteadyRule(form, f, js) == Some(Errors(form, js)[f])
    {
      ErrorsKeys(form, js, f);
      SteadyRuleAgrees(form, js, f);
    }
  }

  /** Editing a field and dropping its error keeps the others steady, the alerting toggle included. */
  lemma {:induction false} EditKeepsSteady(form: Form, errors: map<Field, Problem>, js: Js, g: Field, v: Value)
    requires ErrorsSteady(form, errors, js)
    ensures ErrorsSteady(form[g := v], errors - {g}, js)
  {
    forall f | f in errors - {g}
      ensures f in Checked && SteadyRule(form[g := v], f, js) == Some((errors - {g})[f])
    {
      SteadyRuleLocal(form, js, g, v, f);
    }
  }

  /**
   * With alerting on, steady errors are exactly what the validator would
   * say now about those fields; with it off, that still holds for every
   * field but the three alert ones.
   */
  lemma {:induction false} SteadyErrorsCurrent(form: Form, errors: map<Field, Problem>, js: Js)
    requires ErrorsSteady(form, errors, js)
    ensures forall f :: f in errors && (FlagOn(form, AlertingEnabled) || !IsAlertField(f)) ==>
      f in Errors(form, js) && Errors(form, js)[f] == errors[f]
  {
    forall f | f in errors && (FlagOn(form, AlertingEnabled) || !IsAlertField(f))
      ensures f in Errors(form, js) && Errors(form, js)[f] == errors[f]
    {
      SteadyRuleAgrees(form, js, f);
      ErrorsKeys(form, js, f);
    }
  }

  /** The create page's state. */
  class Page {
    const storage: LocalStorage
    /** `parseFloat` and `new URL` as the browser provides them. */
    const js: Js
    var form: Form
    var errors: map<Field, Problem>
    var hasUnsavedChanges: bool
    var showCancelConfirm: bool
    /** The last `navigate` call, if any. */
    var route: Option<Route>

    ghost predicate Valid()
      reads this
    {
      ErrorsSteady(form, errors, js)
    }

    /** Mounting: the stored draft if it parses, no errors, nothing unsaved. */
    constructor (storage: LocalStorage, js: Js)
      ensures Valid() && this.storage == storage && this.js == js
      ensures form == LoadDraft(storage.entries) && errors == map[]
      ensures !hasUnsavedChanges && !showCancelConfirm && route == None
    {
      this.storage := storage;
      this.js := js;
      form := LoadDraft(storage.entries);
      errors := map[];
      hasUnsavedChanges := false;
      showCancelConfirm := false;
      route := None;
    }

    /** `handleFieldChange`: the new value, the change marked unsaved, and that field's error gone. */
    method FieldChange(f: Field, v: Value)
      requires Valid()
      modifies this
      ensures Valid()
      ensures form == old(form)[f := v] && errors == old(errors) - {f} && hasUnsavedChanges
      ensures showCancelConfirm == old(showCancelConfirm) && route == old(route)
    {
      EditKeepsSteady(form, errors, js, f, v);
      form := form[f := v];
      hasUnsavedChanges := true;
      errors := errors - {f};
    }

    /** `validateForm`: records the validator's errors and reports whether the form is acceptable. */
    method Validate() returns (valid: bool)
      requires Valid()
      modifies this
      ensures Valid()
      ensures errors == Errors(form, js) && (valid <==> Acceptable(form, js))
      ensures form == old(form) && hasUnsavedChanges == old(hasUnsavedChanges)
      ensures showCancelConfirm == old(showCancelConfirm) && route == old(route)
    {
      var newErrors := BuildErrors(form, js);
      errors := newErrors;
      ValidatedSteady(form, js);
      NoErrorsIffAcceptable(form, js);
      valid := |newErrors| == 0;
    }

    /** `handleSaveDraft`: stores the form under the draft key and marks everything saved. */
    method SaveDraft()
      requires Valid()
      modifies this, storage
      ensures Valid()
      ensures storage.entries == old(storage.entries)[DraftKey := FormJson(form)]
      ensures LoadDraft(storage.entries) == form && !hasUnsavedChanges
      ensures form == old(form) && errors == old(errors)
      ensures showCancelConfirm == old(showCancelConfirm) && route == old(route)
    {
      storage.entries := storage.entries[DraftKey := FormJson(form)];
      hasUnsavedChanges := false;
    }

    /**
     * `handleCreateSLO`: validates; an acceptable form removes the draft
     * and returns to the list with a success notice; otherwise nothing but
     * the errors changes.
     */
    method CreateSlo()
      requires Valid()
      modifies this, storage
      ensures Valid()
      ensures errors == Errors(form, js) && form == old(form)
      ensures Acceptable(form, js) ==>
        && storage.entries == old(storage.entries) - {DraftKey}
        && route == Some(Route(ListPath, Some(Notice(CreatedMessage(TextOf(form, Name)), "success"))))
      ensures !Acceptable(form, js) ==> storage.entries == old(storage.entries) && route == old(route)
      ensures hasUnsavedChanges == old(hasUnsavedChanges) && showCancelConfirm == old(showCancelConfirm)
    {
      var valid := Validate();
      if valid {
        storage.entries := storage.entries - {DraftKey};
        route := Some(Route(ListPath, Some(Notice(CreatedMessage(TextOf(form, Name)), "success"))));
      }
    }

    /** `handleCancel`: asks first when something is unsaved, otherwise leaves for the list. */
    method Cancel()
      requires Valid()
      modifies this
      ensures Valid()
      ensures old(hasUnsavedChanges) ==> showCancelConfirm && route == old(route)
      ensures !old(hasUnsavedChanges) ==> route == Some(Route(ListPath, None)) && showCancelConfirm == old(showCancelConfirm)
      ensures form == old(form) && errors == old(errors) && hasUnsavedChanges == old(hasUnsavedChanges)
    {
      if hasUnsavedChanges {
        showCancelConfirm := true;
      } else {
        route := Some(Route(ListPath, None));
      }
    }

    /** The dialog's "Continue Editing": closes it and keeps everything. */
    method ContinueEditing()
      requires Valid()
      modifies this
      ensures Valid() && !showCancelConfirm
      ensures form == old(form) && errors == old(errors) && hasUnsavedChanges == old(hasUnsavedChanges)
      ensures route == old(route)
    {
      showCancelConfirm := false;
    }

    /** The dialog's "Discard Changes" (`confirmCancel`): removes the draft and leaves for the list. */
    method ConfirmCancel()
      requires Valid()
      modifies this, storage
      ensures Valid()
      ensures storage.entries == old(storage.entries) - {DraftKey}
      ensures LoadDraft(storage.entries) == DefaultForm
      ensures route == Some(Route(ListPath, None))
      ensures form == old(form) && errors == old(errors) && hasUnsavedChanges == old(hasUnsavedChanges)
      ensures showCancelConfirm == old(showCancelConfirm)
    {
      storage.entries := storage.entries - {DraftKey};
      route := Some(Route(ListPath, None));
    }
  }
}
