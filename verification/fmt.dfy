/** The one piece of Go's `fmt` the renderer depends on: `fmt.Println` writes
    its operands separated by single spaces and ends the line. A printed line is
    modelled as the string before its newline. */
module Fmt {

  /** Sum of the lengths of the operands. */
  function TotalLength(operands: seq<string>): nat
  {
    if operands == [] then 0 else |operands[0]| + TotalLength(operands[1..])
  }

  /** The line `fmt.Println(operands...)` prints: the operands joined by single
      spaces, nothing for no operands. */
  function Println(operands: seq<string>): (line: string)
    ensures operands == [] ==> line == ""
    ensures operands != [] ==> |line| == TotalLength(operands) + |operands| - 1
    ensures operands != [] ==> line[..|operands[0]|] == operands[0]
  {
    if |operands| == 0 then ""
    else if |operands| == 1 then operands[0]
    else operands[0] + " " + Println(operands[1..])
  }

  /** A single operand is printed as it is. */
  lemma PrintlnOne(s: string)
    ensures Println([s]) == s
  {
  }

  /** Two operands are printed with one space between them. */
  lemma PrintlnTwo(a: string, b: string)
    ensures Println([a, b]) == a + " " + b
  {
    assert [a, b][1..] == [b];
  }

  /** Printing the operands of `a + b` prints `a`'s line, a space and `b`'s
      line: the space-joining is associative. */
  lemma {:induction false} PrintlnAppend(a: seq<string>, b: seq<string>)
    requires a != [] && b != []
    ensures Println(a + b) == Println(a) + " " + Println(b)
  {
    if |a| == 1 {
      assert (a + b)[1..] == b;
    } else {
      assert (a + b)[1..] == a[1..] + b;
      PrintlnAppend(a[1..], b);
    }
  }
}
