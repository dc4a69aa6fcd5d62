/**
 * The dialog that adds or edits a MIME type filter: a name checked by an
 * injected validator and a duplicate-free selection of MIME types toggled
 * by check boxes.
 */
module MimeTypeFilterDialog {
  import opened Wrappers

  /** A search filter over MIME types; `id` is absent for a filter not yet saved. */
  datatype MimeTypeFilter = MimeTypeFilter(id: Option<string>, name: string, mimeTypes: seq<string>)

  /** No value occurs twice in `s`. */
  predicate NoDuplicates<T(==)>(s: seq<T>)
  {
    forall i, j :: 0 <= i < j < |s| ==> s[i] != s[j]
  }

  /** `Array.prototype.indexOf`: the first position of `x` in `s`, or -1. */
  function IndexOf<T(==)>(s: seq<T>, x: T): (r: int)
    ensures -1 <= r < |s|
    ensures r == -1 <==> x !in s
    ensures 0 <= r ==> s[r] == x && forall j :: 0 <= j < r ==> s[j] != x
  {
    if s == [] then -1
    else if s[0] == x then 0
    else
      var k := IndexOf(s[1..], x);
      if k < 0 then -1 else k + 1
  }

  /** `deleteElement(s, t => t === x, 1)`: drop the first occurrence of `x`, if any. */
  function DeleteFirst<T(==)>(s: seq<T>, x: T): (r: seq<T>)
    ensures x !in s ==> r == s
    ensures x in s ==> r == s[..IndexOf(s, x)] + s[IndexOf(s, x) + 1..]
  {
    if s == [] then []
    else if s[0] == x then s[1..]
    else
      var tail := DeleteFirst(s[1..], x);
      if x in s[1..] then
        var k := IndexOf(s[1..], x);
        assert s[..k + 1] == [s[0]] + s[1..][..k];
        assert s[k + 2..] == s[1..][k + 1..];
        [s[0]] + tail
      else
        assert s == [s[0]] + s[1..];
        [s[0]] + tail
  }

  /** Deleting the first occurrence removes exactly one copy of `x`, when there is one. */
  lemma {:induction false} DeleteFirstRemovesOne<T>(s: seq<T>, x: T)
    ensures multiset(DeleteFirst(s, x)) == multiset(s) - multiset{x}
  {
    if s != [] {
      assert s == [s[0]] + s[1..];
      if s[0] != x {
        DeleteFirstRemovesOne(s[1..], x);
        assert DeleteFirst(s, x) == [s[0]] + DeleteFirst(s[1..], x);
      }
    }
  }

  /**
   * `updateMimeTypeSelections(checked, x)`: checking a type that is not
   * selected appends it; unchecking a selected type removes one occurrence;
   * anything else leaves the selection as it is.
   */
  function UpdatedSelection(s: seq<string>, checked: bool, x: string): (r: seq<string>)
    ensures checked && x !in s ==> r == s + [x]
    ensures checked && x in s ==> r == s
    ensures !checked ==> multiset(r) == multiset(s) - multiset{x}
    ensures !checked && x in s ==> r == DeleteFirst(s, x)
    ensures !checked && x !in s ==> r == s
  {
    if checked && IndexOf(s, x) < 0 then s + [x]
    else if !checked && IndexOf(s, x) > -1 then
      DeleteFirstRemovesOne(s, x);
      DeleteFirst(s, x)
    else
      assert !checked ==> multiset(s)[x] == 0;
      s
  }

  /** Removing one position from a duplicate-free sequence keeps it duplicate-free. */
  lemma {:induction false} RemoveAtKeepsNoDuplicates<T>(s: seq<T>, k: nat)
    requires NoDuplicates(s) && k < |s|
    ensures NoDuplicates(s[..k] + s[k + 1..])
  {
    var r := s[..k] + s[k + 1..];
    forall i, j | 0 <= i < j < |r|
      ensures r[i] != r[j]
    {
      var i' := if i < k then i else i + 1;
      var j' := if j < k then j else j + 1;
      assert r[i] == s[i'] && r[j] == s[j'] && i' < j';
    }
  }

  /** Every selection update keeps a duplicate-free selection duplicate-free. */
  lemma SelectionStaysDuplicateFree(s: seq<string>, checked: bool, x: string)
    requires NoDuplicates(s)
    ensures NoDuplicates(UpdatedSelection(s, checked, x))
  {
    if !checked && x in s {
      RemoveAtKeepsNoDuplicates(s, IndexOf(s, x));
    }
  }

  /** Checking an unselected type and unchecking it again restores the selection exactly. */
  lemma CheckThenUncheckRestores(s: seq<string>, x: string)
    requires x !in s
    ensures UpdatedSelection(UpdatedSelection(s, true, x), false, x) == s
  {
    var t := s + [x];
    var k := IndexOf(t, x);
    assert t[..k] == s;
  }

  /** Unchecking removes the type from a duplicate-free selection, and checking makes it selected. */
  lemma UpdatedMembership(s: seq<string>, checked: bool, x: string)
    requires NoDuplicates(s)
    ensures x in UpdatedSelection(s, checked, x) <==> checked
  {

  }

  /** What the dialog asks its owner to do. */
  datatype DialogEffect = AddOrUpdate(filter: MimeTypeFilter) | Close

  /**
   * The dialog's state. `mimeTypeFilter` is the filter being edited (absent
   * when adding one); `validateMimeTypeName` is the name validator the
   * settings module supplies.
   */
  class MimeTypeFilterEditingDialog {
    const mimeTypeFilter: Option<MimeTypeFilter>
    const validateMimeTypeName: string -> bool
    var filterName: string
    var selectedMimeTypes: seq<string>

    /** The name and selection start from the edited filter, otherwise empty. */
    constructor(mimeTypeFilter: Option<MimeTypeFilter>, validateMimeTypeName: string -> bool)
      ensures this.mimeTypeFilter == mimeTypeFilter
      ensures this.validateMimeTypeName == validateMimeTypeName
      ensures filterName == if mimeTypeFilter.Some? then mimeTypeFilter.value.name else ""
      ensures selectedMimeTypes == if mimeTypeFilter.Some? then mimeTypeFilter.value.mimeTypes else []
    {
      this.mimeTypeFilter := mimeTypeFilter;
      this.validateMimeTypeName := validateMimeTypeName;
      filterName := if mimeTypeFilter.Some? then mimeTypeFilter.value.name else "";
      selectedMimeTypes := if mimeTypeFilter.Some? then mimeTypeFilter.value.mimeTypes else [];
    }

    /** The name text field changed. */
    method SetFilterName(name: string)
      modifies this`filterName
      ensures filterName == name
    {
      filterName := name;
    }

    /** A MIME type check box changed. */
    method UpdateMimeTypeSelections(checked: bool, mimeType: string)
      modifies this`selectedMimeTypes
      ensures selectedMimeTypes == UpdatedSelection(old(selectedMimeTypes), checked, mimeType)
      ensures NoDuplicates(old(selectedMimeTypes)) ==> NoDuplicates(selectedMimeTypes)
    {
      if NoDuplicates(selectedMimeTypes) {
        SelectionStaysDuplicateFree(selectedMimeTypes, checked, mimeType);
      }
      selectedMimeTypes := UpdatedSelection(selectedMimeTypes, checked, mimeType);
    }

    /** `isNameValid`: the injected validator's verdict on the current name. */
    function IsNameValid(): (valid: bool)
      reads this
      ensures valid <==> validateMimeTypeName(filterName)
    {
      validateMimeTypeName(filterName)
    }

    /**
     * Whether the save button is disabled: exactly when the name is empty,
     * the validator refuses it, or no MIME type is selected.
     */
    function SaveDisabled(): (disabled: bool)
      reads this
      ensures disabled <==> filterName == "" || !validateMimeTypeName(filterName) || |selectedMimeTypes| == 0
    {
      filterName == "" || !IsNameValid() || |selectedMimeTypes| == 0
    }

    /**
     * Whether the name field is marked as an error: exactly when the name is
     * non-empty and the validator refuses it. A marked name always disables
     * save; an empty name disables save without being marked.
     */
    function NameError(): (error: bool)
      reads this
      ensures error <==> filterName != "" && !validateMimeTypeName(filterName)
      ensures error ==> SaveDisabled()
    {
      filterName != "" && !IsNameValid()
    }

    /**
     * `onAddOrUpdate`: emit the filter with the edited filter's id (absent
     * when adding), the current name and selection, then close. Through the
     * enabled save button the emitted filter has a valid name and at least
     * one MIME type.
     */
    method OnAddOrUpdate() returns (effects: seq<DialogEffect>)
      ensures |effects| == 2 && effects[0].AddOrUpdate? && effects[1] == Close
      ensures effects[0].filter.id == if mimeTypeFilter.Some? then mimeTypeFilter.value.id else None
      ensures effects[0].filter.name == filterName && effects[0].filter.mimeTypes == selectedMimeTypes
      ensures !SaveDisabled() ==>
                validateMimeTypeName(effects[0].filter.name) && effects[0].filter.mimeTypes != []
    {
      var id := if mimeTypeFilter.Some? then mimeTypeFilter.value.id else None;
      effects := [AddOrUpdate(MimeTypeFilter(id, filterName, selectedMimeTypes)), Close];
    }
  }
}
