/**
 * `LoginScreen`: a name and a class picked from a fixed list. Submitting
 * signs in with the trimmed name, and only when that is not empty.
 */
module LoginScreen {

  import opened Wrappers
  import opened JsString
  import opened Types

  const DefaultStandard := "Class 8"

  /** `Array.from({ length: 5 }, (_, i) => \`Class ${8 + i}\`)`. */
  function ClassList(): (classes: seq<string>)
    ensures |classes| == 5
    ensures forall i :: 0 <= i < 5 ==> classes[i] == "Class " + DecimalString(8 + i)
  {
    seq(5, i requires 0 <= i < 5 => "Class " + DecimalString(8 + i))
  }

  /** The numbers the class list interpolates, printed. */
  lemma ClassNumbers()
    ensures DecimalString(8) == "8" && DecimalString(9) == "9"
    ensures DecimalString(10) == "10" && DecimalString(11) == "11" && DecimalString(12) == "12"
  {
    assert DecimalString(1) == "1";
  }

  /** The offered classes are exactly these five, in this order, and the default is the first. */
  lemma ClassListExact()
    ensures ClassList() == ["Class 8", "Class 9", "Class 10", "Class 11", "Class 12"]
    ensures ClassList()[0] == DefaultStandard
  {
    ClassNumbers();
    var classes := ClassList();
    assert classes[0] == "Class 8";
    assert classes[1] == "Class 9";
    assert classes[2] == "Class 10";
    assert classes[3] == "Class 11";
    assert classes[4] == "Class 12";
  }

  class LoginScreen {
    var name: string
    var standard: string

    /** The class is always one the list offers. */
    ghost predicate Valid()
      reads this
    {
      standard in ClassList()
    }

    constructor ()
      ensures name == "" && standard == DefaultStandard
      ensures Valid()
    {
      name := "";
      standard := DefaultStandard;
      ClassListExact();
    }

    /** Typing in the name field. */
    method SetName(text: string)
      modifies this
      ensures name == text && standard == old(standard)
    {
      name := text;
    }

    /** Picking an option of the class list. */
    method SetStandard(choice: string)
      requires choice in ClassList()
      modifies this
      ensures Valid()
      ensures standard == choice && name == old(name)
    {
      standard := choice;
    }

    /** The submit button is disabled while the trimmed name is empty. */
    predicate SubmitDisabled()
      reads this
    {
      Trim(name) == ""
    }

    /**
     * `handleSubmit`: the user to sign in, if any. There is one exactly when
     * the trimmed name is not empty; it carries the trimmed name and the
     * selected class.
     */
    method HandleSubmit() returns (login: Option<User>)
      ensures login.Some? <==> !SubmitDisabled()
      ensures login.Some? ==> login.value == User(Trim(name), standard)
    {
      var trimmed := Trim(name);
      if trimmed != "" {
        login := Some(User(trimmed, standard));
      } else {
        login := None;
      }
    }
  }

  /**
   * Sign-in is refused exactly for a name that is whitespace only; a signed-in
   * name is non-empty and has no surrounding whitespace.
   */
  lemma SignInName(name: string)
    ensures Trim(name) == "" <==> AllWhitespace(name)
    ensures Trim(name) != "" ==>
      !IsWhitespace(Trim(name)[0]) && !IsWhitespace(Trim(name)[|Trim(name)| - 1])
    ensures Trim(Trim(name)) == Trim(name)
  {
    TrimEmptyIff(name);
    TrimTrimmed(name);
    TrimIdempotent(name);
  }
}
