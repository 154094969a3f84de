/**
 * The two input checks of the interactive loop: which state names it
 * accepts, and which menu entries select a site.
 */
module Prompt {
  import opened Text

  /** What the state prompt does with a line of input. */
  datatype StateChoice = Exit | Retry | Listing(stateUrl: string)

  /**
   * The state prompt: "exit" ends the loop; otherwise the lower-cased input
   * must be a key of the state dictionary, and selects its URL.
   */
  function ChooseState(command: string, states: map<string, string>): (choice: StateChoice)
    ensures choice.Listing? <==> command != "exit" && Lower(command) in states
    ensures choice.Listing? ==> choice.stateUrl == states[Lower(command)]
    ensures choice == Exit <==> command == "exit"
  {
    if command == "exit" then Exit
    else if Lower(command) in states then Listing(states[Lower(command)])
    else Retry
  }

  /** Spellings that differ only in letter case choose the same state. */
  lemma ChooseStateIgnoresCase(a: string, b: string, states: map<string, string>)
    requires a != "exit" && b != "exit"
    requires |a| == |b|
    requires forall i :: 0 <= i < |a| ==> LowerChar(a[i]) == LowerChar(b[i])
    ensures ChooseState(a, states) == ChooseState(b, states)
  {
    LowerIgnoresCase(a, b);
  }

  /**
   * A lower-case key, typed as stored, is accepted and gives its URL; every
   * key of the built state dictionary is lower case (`Nps.StateDictOf`).
   */
  lemma DictionaryNamesAccepted(states: map<string, string>, name: string)
    requires name in states && IsLowerCase(name) && name != "exit"
    ensures ChooseState(name, states) == Listing(states[name])
  {
    LowerOfLowerCase(name);
  }

  /** What the site menu does with a line of input. */
  datatype MenuChoice = Quit | Back | Invalid | Select(index: nat)

  /**
   * The site menu: "exit" and "back" leave it; a numeral n with
   * 1 <= n <= count selects `sites[n-1]`; anything else is re-prompted.
   */
  function ChooseSite(command: string, count: nat): (choice: MenuChoice)
    ensures choice == Quit <==> command == "exit"
    ensures choice == Back <==> command == "back"
    ensures choice.Select? <==> IsNumeric(command) && 1 <= DecimalValue(command) <= count
    ensures choice.Select? ==> choice.index < count && choice.index == DecimalValue(command) - 1
  {
    if command == "exit" then Quit
    else if command == "back" then Back
    else if IsNumeric(command) && 1 <= DecimalValue(command) <= count then Select(DecimalValue(command) - 1)
    else Invalid
  }

  /** Typing the label `[i+1]` printed before the i-th site selects that site. */
  lemma MenuLabelSelects(i: nat, count: nat)
    requires i < count
    ensures ChooseSite(Decimal(i + 1), count) == Select(i)
  {
    DecimalRoundTrip(i + 1);
    assert Decimal(i + 1) != "exit" && Decimal(i + 1) != "back" by {
      assert IsDigit(Decimal(i + 1)[0]);
    }
  }
}
