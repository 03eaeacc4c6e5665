/** The `fmt.Sprintf("[%s] %s", code, message)` rendering every variant's `Error()` uses. */
module Render {

  function Bracketed(code: string, message: string): (s: string)
    ensures |s| == |code| + |message| + 3
    ensures s[0] == '[' && s[1..|code| + 1] == code && s[|code| + 1..|code| + 3] == "] "
    ensures s[|code| + 3..] == message
  {
    "[" + code + "] " + message
  }

  /** In the rendering of a code without ']', the first ']' closes the code. */
  lemma FirstClosingBracket(code: string, message: string)
    requires ']' !in code
    ensures Bracketed(code, message)[|code| + 1] == ']'
    ensures forall i :: 0 <= i < |code| + 1 ==> Bracketed(code, message)[i] != ']'
  {
    var s := Bracketed(code, message);
    forall i | 1 <= i < |code| + 1 ensures s[i] != ']' {
      assert s[i] == code[i - 1];
    }
  }

  /**
   * A code without ']' can be read back from the rendering: two renderings
   * are equal only when both code and message are.
   */
  lemma BracketedInjective(c1: string, m1: string, c2: string, m2: string)
    requires ']' !in c1 && ']' !in c2
    requires Bracketed(c1, m1) == Bracketed(c2, m2)
    ensures c1 == c2 && m1 == m2
  {
    FirstClosingBracket(c1, m1);
    FirstClosingBracket(c2, m2);
    var s := Bracketed(c1, m1);
    assert |c1| == |c2|;
    assert c1 == s[1..|c1| + 1] == c2;
  }
}
