/** The participant picker of the invite wizard (frontend/src/components/ParticipantSelector.js). */
module Participants {
  import opened Wrappers

  /** A chosen participant, copied from the search option. */
  datatype Participant = Participant(key: string, name: string, email: string, department: Option<string>)

  /** A search result as the auto-complete offers it. */
  datatype UserOption = UserOption(key: string, name: string, email: string, department: Option<string>)

  /** The `value` prop: an absent list is read as the empty list. */
  function ValueOrDefault(value: Option<seq<Participant>>): (r: seq<Participant>)
    ensures value.None? ==> r == []
    ensures value.Some? ==> r == value.value
  {
    value.GetOr([])
  }

  /** The list after a selection: one participant built from the option, appended at the end. */
  function Selected(value: seq<Participant>, option: UserOption): (r: seq<Participant>)
    ensures |r| == |value| + 1 && r[..|value|] == value
    ensures r[|value|].key == option.key && r[|value|].name == option.name
    ensures r[|value|].email == option.email && r[|value|].department == option.department
  {
    value + [Participant(option.key, option.name, option.email, option.department)]
  }

  /**
   * `handleRemove`: copy the list and `splice(index, 1)` the copy. An index past
   * the end removes nothing, as `splice` does.
   */
  method Removed(value: seq<Participant>, index: nat) returns (r: seq<Participant>)
    ensures index < |value| ==> |r| == |value| - 1 && r == value[..index] + value[index + 1..]
    ensures index >= |value| ==> r == value
  {
    if index >= |value| {
      return value;
    }
    var n := |value|;
    var copy := new Participant[n](i requires 0 <= i < n => value[i]);
    var k := index;
    while k < n - 1
      invariant index <= k <= n - 1
      invariant forall j :: 0 <= j < index ==> copy[j] == value[j]
      invariant forall j :: index <= j < k ==> copy[j] == value[j + 1]
      invariant forall j :: k <= j < n ==> copy[j] == value[j]
    {
      copy[k] := copy[k + 1];
      k := k + 1;
    }
    r := copy[..n - 1];
    assert r == value[..index] + value[index + 1..] by {
      forall j | 0 <= j < n - 1 ensures r[j] == (value[..index] + value[index + 1..])[j] {
      }
    }
  }

  /** The picker's own state: the search text, the results shown and the loading flag. */
  class ParticipantSelector {
    var searchText: string
    var searchResults: seq<UserOption>
    var loading: bool

    constructor ()
      ensures searchText == "" && searchResults == [] && !loading
    {
      searchText, searchResults, loading := "", [], false;
    }

    /**
     * A change of the search text. Empty text clears the results without a
     * request; otherwise `found` is what the search request returned (None when
     * it failed, which keeps the old results), and loading ends either way.
     */
    method HandleSearch(text: string, found: Option<seq<UserOption>>)
      modifies this
      ensures searchText == text
      ensures text == "" ==> searchResults == [] && loading == old(loading)
      ensures text != "" ==> !loading
      ensures text != "" ==> searchResults == (if found.Some? then found.value else old(searchResults))
    {
      searchText := text;
      if text == "" {
        searchResults := [];
        return;
      }
      loading := true;
      if found.Some? {
        searchResults := found.value;
      }
      loading := false;
    }

    /** Choosing an option appends it to the list passed to `onChange` and clears the search text. */
    method HandleSelect(value: seq<Participant>, option: UserOption) returns (newValue: seq<Participant>)
      modifies this`searchText
      ensures newValue == Selected(value, option) && searchText == ""
    {
      newValue := Selected(value, option);
      searchText := "";
    }
  }
}
