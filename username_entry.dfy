/** The single-room chat's username prompt: an input box and a Join button. Enter in the box and
    a click on the button call the same handler, which hands the trimmed name to the parent. */
module UsernameEntry {
  import opened Wrappers
  import opened Strings

  /** The Join button is disabled iff the trimmed input is empty. */
  predicate JoinDisabled(inputValue: string) {
    Trim(inputValue) == []
  }

  /** `handleSubmit`'s decision: the name passed to `setUsername`, if any. */
  function SubmittedName(inputValue: string): (r: Option<string>)
    ensures r.None? <==> AllSpace(inputValue)
    ensures r.None? <==> JoinDisabled(inputValue)
    ensures r.Some? ==> r.value == Trim(inputValue) && r.value != []
  {
    TrimEmptyIffBlank(inputValue);
    if Trim(inputValue) != [] then Some(Trim(inputValue)) else None
  }

  /** The name handed over has no white space at either end, and is a part of the input. */
  lemma SubmittedNameIsTrimmed(inputValue: string)
    requires SubmittedName(inputValue).Some?
    ensures var name := SubmittedName(inputValue).value;
            !IsSpace(name[0]) && !IsSpace(name[|name| - 1]) && Contains(inputValue, name)
  {
    TrimShape(inputValue);
    ContainsIffOccurs(inputValue, Trim(inputValue));
  }

  class EntryForm {
    var inputValue: string

    constructor ()
      ensures inputValue == ""
    {
      inputValue := "";
    }

    method OnChange(text: string)
      modifies this
      ensures inputValue == text
    {
      inputValue := text;
    }

    /** Pressing Enter and clicking Join: the input box is left as it is. */
    method HandleSubmit() returns (setUsername: Option<string>)
      ensures setUsername == SubmittedName(inputValue)
    {
      setUsername := if Trim(inputValue) != [] then Some(Trim(inputValue)) else None;
    }
  }
}
