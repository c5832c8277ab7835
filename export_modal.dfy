/**
 * The export dialog: the chosen format, the nine include-field flags, the
 * per-field toggle, the select-all/deselect-all loop, and the configuration
 * handed to the page on export.
 */
module ExportModal {
  import opened Optional
  import opened Seqs

  /** The include-field keys, in the order the flags object declares them. */
  const FieldNames: seq<string> :=
    ["name", "description", "service", "target", "status", "lastModified", "owner", "tags", "metrics"]

  /** The flags the dialog starts with: the first six on, owner, tags and metrics off. */
  const DefaultIncludeFields: seq<bool> := [true, true, true, true, true, true, false, false, false]

  /** The format select's values. */
  const FormatOptions: seq<string> := ["csv", "json", "xlsx", "pdf"]

  /** What the Export button hands to the page. */
  datatype ExportConfig = ExportConfig(format: string, fields: seq<string>)

  /** `Object.values(flags).filter(Boolean).length`. */
  function CountOn(bs: seq<bool>): (n: nat)
    ensures n <= |bs|
  {
    if bs == [] then 0 else (if bs[0] then 1 else 0) + CountOn(bs[1..])
  }

  /** The names whose flag is on, in name order: `Object.keys(flags).filter(f => flags[f])`. */
  function OnNames(names: seq<string>, bs: seq<bool>): (r: seq<string>)
    requires |names| == |bs|
    ensures |r| == CountOn(bs)
  {
    if bs == [] then [] else (if bs[0] then [names[0]] else []) + OnNames(names[1..], bs[1..])
  }

  /** The count is the full length exactly when every flag is on, and 0 exactly when every flag is off. */
  lemma {:induction false} CountOnExtremes(bs: seq<bool>)
    ensures CountOn(bs) == |bs| <==> forall i :: 0 <= i < |bs| ==> bs[i]
    ensures CountOn(bs) == 0 <==> forall i :: 0 <= i < |bs| ==> !bs[i]
  {
    if bs != [] {
      CountOnExtremes(bs[1..]);
      assert forall i :: 0 < i < |bs| ==> bs[i] == bs[1..][i - 1];
    }
  }

  /** Flipping one flag moves the count by exactly one. */
  lemma {:induction false} CountOnFlip(bs: seq<bool>, i: nat)
    requires i < |bs|
    ensures CountOn(bs[i := !bs[i]]) == if bs[i] then CountOn(bs) - 1 else CountOn(bs) + 1
  {
    if i > 0 {
      CountOnFlip(bs[1..], i - 1);
      assert bs[i := !bs[i]][1..] == bs[1..][i - 1 := !bs[i]];
    } else {
      assert bs[i := !bs[i]][1..] == bs[1..];
    }
  }

  /** The exported field names are the on-flags' names, in declaration order and with none invented. */
  lemma {:induction false} OnNamesSelects(names: seq<string>, bs: seq<bool>)
    requires |names| == |bs|
    ensures IsSubseq(OnNames(names, bs), names)
    ensures forall i :: 0 <= i < |bs| && bs[i] ==> names[i] in OnNames(names, bs)
  {
    if bs != [] {
      OnNamesSelects(names[1..], bs[1..]);
      var rest := OnNames(names[1..], bs[1..]);
      if bs[0] {
        assert OnNames(names, bs) == [names[0]] + rest;
        assert OnNames(names, bs)[1..] == rest;
      } else {
        assert OnNames(names, bs) == rest;
      }
      forall i | 0 < i < |bs| && bs[i]
        ensures names[i] in OnNames(names, bs)
      {
        assert bs[1..][i - 1] && names[1..][i - 1] == names[i];
      }
    }
  }

  /** With the initial flags, six fields are exported: name through lastModified. */
  lemma DefaultExport()
    ensures CountOn(DefaultIncludeFields) == 6
    ensures OnNames(FieldNames, DefaultIncludeFields) == FieldNames[..6]
  {
  }

  /** The dialog's state. It stays mounted while closed, so the choices survive between openings. */
  class Modal {
    var format: string
    var includeFields: seq<bool>

    ghost predicate Valid()
      reads this
    {
      |includeFields| == |FieldNames| && format in FormatOptions
    }

    constructor ()
      ensures Valid() && format == "csv" && includeFields == DefaultIncludeFields
    {
      format := "csv";
      includeFields := DefaultIncludeFields;
    }

    /** The format select's `onChange`; it offers only the listed formats. */
    method SetFormat(f: string)
      requires Valid() && f in FormatOptions
      modifies this
      ensures Valid() && format == f && includeFields == old(includeFields)
    {
      format := f;
    }

    /** `handleFieldToggle`: flips field `i`'s flag and no other. */
    method ToggleField(i: nat)
      requires Valid() && i < |FieldNames|
      modifies this
      ensures Valid() && format == old(format)
      ensures includeFields == old(includeFields)[i := !old(includeFields)[i]]
    {
      includeFields := includeFields[i := !includeFields[i]];
    }

    /** The "Select All"/"Deselect All" button: all off when all were on, otherwise all on. */
    method ToggleAll()
      requires Valid()
      modifies this
      ensures Valid() && format == old(format)
      ensures (forall i :: 0 <= i < |old(includeFields)| ==> old(includeFields)[i]) ==>
                (forall i :: 0 <= i < |includeFields| ==> !includeFields[i])
      ensures !(forall i :: 0 <= i < |old(includeFields)| ==> old(includeFields)[i]) ==>
                (forall i :: 0 <= i < |includeFields| ==> includeFields[i])
    {
      var allSelected := CountOn(includeFields) == |FieldNames|;
      CountOnExtremes(includeFields);
      var newState: seq<bool> := [];
      var k := 0;
      while k < |FieldNames|
        invariant 0 <= k <= |FieldNames| && |newState| == k
        invariant forall j :: 0 <= j < k ==> newState[j] == !allSelected
      {
        newState := newState + [!allSelected];
        k := k + 1;
      }
      includeFields := newState;
    }

    /** The number shown as "Include Fields (n selected)". */
    function SelectedFieldsCount(): (n: nat)
      reads this
      requires Valid()
      ensures n <= |FieldNames|
    {
      CountOn(includeFields)
    }

    /**
     * The Export button: disabled while no field is on; otherwise hands over
     * the format and the on-fields' names in declaration order.
     */
    method Export() returns (r: Option<ExportConfig>)
      requires Valid()
      ensures r == None <==> forall i :: 0 <= i < |includeFields| ==> !includeFields[i]
      ensures r.Some? ==> r.value.format == format && r.value.fields == OnNames(FieldNames, includeFields)
    {
      CountOnExtremes(includeFields);
      if CountOn(includeFields) == 0 {
        r := None;
      } else {
        r := Some(ExportConfig(format, OnNames(FieldNames, includeFields)));
      }
    }
  }
}
