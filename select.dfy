/**
 * The `Select` component (packages/components/src/components/select/Select.tsx):
 * which option is shown as selected, which options the search keeps, and how
 * clicks change the `isOpen` / `searchTerm` state and call `onChange`.
 */
module Select {
  import opened Wrappers
  import opened Seqs
  import opened Strings

  /** `SelectOption`; its `label` is `labelText` here, `label` being a Dafny keyword. */
  datatype SelectOption = SelectOption(value: string, labelText: string, disabled: bool)

  /** The index of the first option whose value is `v`, or `|options|` when there is none. */
  function FirstWithValue(options: seq<SelectOption>, v: string): (i: nat)
    ensures i <= |options|
    ensures i < |options| ==> options[i].value == v
    ensures forall j :: 0 <= j < i ==> options[j].value != v
    decreases |options|
  {
    if options == [] then 0
    else if options[0].value == v then 0
    else 1 + FirstWithValue(options[1..], v)
  }

  /**
   * `options.find(opt => opt.value === value)`: the first option carrying the
   * current value; none when no option does or no value is set.
   */
  function SelectedOption(options: seq<SelectOption>, value: Option<string>): (r: Option<SelectOption>)
    ensures r.Some? ==> value.Some? && r.value in options && r.value.value == value.value
    ensures r.None? <==> value.None? || forall o :: o in options ==> o.value != value.value
  {
    if value.None? then None
    else
      var i := FirstWithValue(options, value.value);
      if i < |options| then Some(options[i]) else None
  }

  /** The option found sits at an index before which no option carries the value. */
  lemma SelectedIsFirst(options: seq<SelectOption>, value: string)
    ensures var r := SelectedOption(options, Some(value));
      r.Some? ==> exists i :: 0 <= i < |options| && options[i] == r.value &&
                             (forall j :: 0 <= j < i ==> options[j].value != value)
  {
    var i := FirstWithValue(options, value);
    if i < |options| {
      assert options[i] == SelectedOption(options, Some(value)).value;
    }
  }

  /** The search match: the lower-cased label includes the lower-cased term. */
  predicate Matches(term: string, option: SelectOption) {
    Includes(Lower(option.labelText), Lower(term))
  }

  /** `filteredOptions`: filtered by the search term when searchable, all options otherwise. */
  function FilteredOptions(options: seq<SelectOption>, searchable: bool, term: string): (listed: seq<SelectOption>)
    ensures |listed| <= |options|
    ensures forall i :: 0 <= i < |listed| ==> listed[i] in options
    ensures searchable ==> forall i :: 0 <= i < |listed| ==> Matches(term, listed[i])
    ensures !searchable ==> listed == options
  {
    if searchable then Filter(options, o => Matches(term, o)) else options
  }

  /**
   * When searchable, an option is listed exactly when it is an option whose
   * label matches the term; when not searchable, the list is the options.
   */
  lemma FilteredOptionsMembers(options: seq<SelectOption>, searchable: bool, term: string, o: SelectOption)
    ensures searchable ==> (o in FilteredOptions(options, searchable, term) <==> o in options && Matches(term, o))
    ensures !searchable ==> FilteredOptions(options, searchable, term) == options
  {
    FilterMembers(options, o => Matches(term, o), o);
  }

  /** Listing keeps the options' order: the filter of a concatenation is the concatenation of the filters. */
  lemma FilteredOptionsKeepOrder(a: seq<SelectOption>, b: seq<SelectOption>, searchable: bool, term: string)
    ensures FilteredOptions(a + b, searchable, term) == FilteredOptions(a, searchable, term) + FilteredOptions(b, searchable, term)
  {
    if searchable {
      FilterAppend(a, b, o => Matches(term, o));
    }
  }

  /** An empty search term lists every option. */
  lemma EmptySearchListsAll(options: seq<SelectOption>, searchable: bool)
    ensures FilteredOptions(options, searchable, "") == options
  {
    if searchable {
      forall i | 0 <= i < |options| ensures Matches("", options[i]) {
        IncludesAt(Lower(options[i].labelText), "");
        assert OccursAt(Lower(options[i].labelText), Lower(""), 0);
      }
      FilterKeepsAll(options, o => Matches("", o));
    }
  }

  /** The component state (`isOpen`, `searchTerm`) and the values passed to `onChange`. */
  class SelectState {
    const disabled: bool
    const searchable: bool
    var isOpen: bool
    var searchTerm: string
    /** The arguments of the `onChange` calls, in order. */
    var emitted: seq<string>

    constructor (disabled: bool, searchable: bool)
      ensures this.disabled == disabled && this.searchable == searchable
      ensures !isOpen && searchTerm == "" && emitted == []
    {
      this.disabled := disabled;
      this.searchable := searchable;
      isOpen := false;
      searchTerm := "";
      emitted := [];
    }

    /** `handleOptionClick`: when enabled, emit the value, close the list and clear the search. */
    method HandleOptionClick(optionValue: string)
      modifies this
      ensures disabled ==> unchanged(this)
      ensures !disabled ==> emitted == old(emitted) + [optionValue] && !isOpen && searchTerm == ""
    {
      if !disabled {
        emitted := emitted + [optionValue];
        isOpen := false;
        searchTerm := "";
      }
    }

    /** A click on a listed option; a disabled option never reaches `handleOptionClick`. */
    method ClickOption(option: SelectOption)
      modifies this
      ensures option.disabled || disabled ==> unchanged(this)
      ensures !option.disabled && !disabled ==> emitted == old(emitted) + [option.value] && !isOpen && searchTerm == ""
    {
      if !option.disabled {
        HandleOptionClick(option.value);
      }
    }

    /** `handleClear`: when enabled, emit `""` and clear the search; the list stays as it was. */
    method HandleClear()
      modifies this
      ensures disabled ==> unchanged(this)
      ensures !disabled ==> emitted == old(emitted) + [""] && searchTerm == "" && isOpen == old(isOpen)
    {
      if !disabled {
        emitted := emitted + [""];
        searchTerm := "";
      }
    }

    /** `toggleOpen`: when enabled, flip `isOpen`; nothing else changes. */
    method ToggleOpen()
      modifies this`isOpen
      ensures isOpen == (if disabled then old(isOpen) else !old(isOpen))
    {
      if !disabled {
        isOpen := !isOpen;
      }
    }

    /** Typing in the search input. */
    method SetSearchTerm(term: string)
      modifies this`searchTerm
      ensures searchTerm == term
    {
      searchTerm := term;
    }

    /** `handleClickOutside`: a mouse-down outside the component closes it and clears the search. */
    method MouseDown(inside: bool)
      modifies this
      ensures inside ==> unchanged(this)
      ensures !inside ==> !isOpen && searchTerm == "" && emitted == old(emitted)
    {
      if !inside {
        isOpen := false;
        searchTerm := "";
      }
    }

    /**
     * Pressing the mouse on a listed option, then releasing it. The option
     * list is rendered next to the element `handleClickOutside` tests, not
     * inside it, so the press counts as outside: the list closes and the
     * search clears first. The option's click handler runs only if the
     * browser still delivers the click to it after the list has been
     * removed, which `clickReachesOption` says; when it does not, nothing is
     * emitted.
     */
    method PickOption(option: SelectOption, clickReachesOption: bool)
      modifies this
      ensures !isOpen && searchTerm == ""
      ensures emitted == old(emitted) +
        (if clickReachesOption && !option.disabled && !disabled then [option.value] else [])
    {
      MouseDown(false);
      if clickReachesOption {
        ClickOption(option);
      }
    }
  }
}
