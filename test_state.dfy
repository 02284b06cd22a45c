/** TestState: the three outcomes a TestLink result reports, each with its description word and one-letter token. */
module TestState {

  datatype State = Passed | Blocked | Failed
  {
    /** getDescription(): the word used in notes. */
    function GetDescription(): string {
      match this
      case Passed => "PASSED"
      case Blocked => "BLOCKED"
      case Failed => "FAILED"
    }

    /** getState(): the one-letter token written into <result>. */
    function GetState(): (s: string)
      ensures |s| == 1
    {
      match this
      case Passed => "p"
      case Blocked => "b"
      case Failed => "f"
    }
  }

  /** The tokens are pairwise distinct, so a <result> text names one state. */
  lemma TokenIdentifiesState(a: State, b: State)
    ensures a.GetState() == b.GetState() <==> a == b
  {
  }

  /** The description words are pairwise distinct as well. */
  lemma DescriptionIdentifiesState(a: State, b: State)
    ensures a.GetDescription() == b.GetDescription() <==> a == b
  {
  }
}
