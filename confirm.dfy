/**
 * The default confirmation policy: how an answer typed by the user is read
 * as "yes" or "no", in raw terminal mode (one byte) and in line mode.
 * Terminal handling itself (raw mode, echo, ANSI clearing) is not modelled;
 * its outcome enters as parameters.
 */
module Confirm {
  import opened Wrappers
  import opened Text

  type Byte = b: int | 0 <= b < 256

  /** The interrupt byte a raw-mode terminal delivers for Ctrl-C. */
  const CtrlC: Byte := 3

  /**
   * The raw-mode decision on the one byte read; `None` stands for a failed
   * read or a read of zero bytes. The byte is taken as the character with
   * that code point, as Go's string(byte) conversion does.
   */
  function RawAnswer(read: Option<Byte>): (r: bool)
    ensures r <==> read == Some('y' as int) || read == Some('Y' as int)
  {
    match read
    case None => false
    case Some(b) =>
      if b == CtrlC then false
      else assert Lower([b as char]) == [LowerChar(b as char)]; Lower([b as char]) == "y"
  }

  /**
   * bufio.Reader.ReadString('\n'): the text up to and including the first
   * newline, or `None` when the input ends (or fails) before a newline.
   */
  function ReadLine(input: string): (r: Option<string>)
    ensures r.None? <==> '\n' !in input
  {
    if input == [] then None
    else if input[0] == '\n' then Some("\n")
    else match ReadLine(input[1..])
      case None => None
      case Some(line) => Some([input[0]] + line)
  }

  /** n is the position of the first newline of input. */
  predicate FirstNewline(input: string, n: int) {
    0 <= n < |input| && input[n] == '\n' && '\n' !in input[..n]
  }

  lemma {:induction false} ReadLineAt(input: string, n: int)
    requires FirstNewline(input, n)
    ensures ReadLine(input) == Some(input[..n + 1])
  {
    if n > 0 {
      assert input[0] == input[..n][0];
      assert input[0] != '\n';
      assert input[1..][..n - 1] == input[..n][1..];
      assert FirstNewline(input[1..], n - 1);
      ReadLineAt(input[1..], n - 1);
      assert ReadLine(input) == Some([input[0]] + input[1..][..n]);
      assert input[..n + 1] == [input[0]] + input[1..][..n];
    } else {
      assert input[..1] == "\n";
    }
  }

  /** readLineConfirmation: the line, trimmed and lower-cased, must be "y" or "yes". */
  function ReadLineConfirmation(stdin: string): bool {
    match ReadLine(stdin)
    case None => false
    case Some(line) =>
      var answer := Lower(TrimSpace(line));
      answer == "y" || answer == "yes"
  }

  /** "y" or "yes" in any mix of letter cases. */
  predicate IsYesWord(w: string) {
    (|w| == 1 && w[0] in "yY") || (|w| == 3 && w[0] in "yY" && w[1] in "eE" && w[2] in "sS")
  }

  /** The answer occupies input[i..j], with only white space around it on the first line (which ends at n). */
  predicate AnswerAt(input: string, n: int, i: int, j: int) {
    0 <= i < j <= n < |input| && AllSpace(input[..i]) && IsYesWord(input[i..j]) && AllSpace(input[j..n])
  }

  lemma LowerYes(w: string)
    ensures Lower(w) == "y" || Lower(w) == "yes" <==> IsYesWord(w)
  {
    if |w| == 1 {
      assert Lower(w) == [LowerChar(w[0])];
    } else if |w| == 3 {
      assert Lower(w) == [LowerChar(w[0]), LowerChar(w[1]), LowerChar(w[2])];
    }
  }

  /** A line that line mode accepts is a yes word padded with white space. */
  lemma YesLineParts(line: string) returns (i: nat, j: nat)
    requires Lower(TrimSpace(line)) == "y" || Lower(TrimSpace(line)) == "yes"
    ensures i < j <= |line| && IsYesWord(line[i..j])
    ensures AllSpace(line[..i]) && AllSpace(line[j..]) && !IsSpace(line[j - 1])
  {
    i, j := TrimSpaceParts(line);
    LowerYes(line[i..j]);
  }

  lemma AnswerInFirstLine(stdin: string, n: int, i: nat, j: nat)
    requires FirstNewline(stdin, n)
    requires i < j <= n + 1 && IsYesWord(stdin[..n + 1][i..j])
    requires AllSpace(stdin[..n + 1][..i]) && AllSpace(stdin[..n + 1][j..]) && !IsSpace(stdin[..n + 1][j - 1])
    ensures AnswerAt(stdin, n, i, j)
  {
    var line := stdin[..n + 1];
    assert j <= n by {
      assert IsSpace(line[n]);
    }
    assert line[..i] == stdin[..i];
    assert line[i..j] == stdin[i..j];
    assert line[j..][..n - j] == stdin[j..n];
  }

  /** A yes from line mode locates the answer on the first line. */
  lemma LineConfirmationSound(stdin: string, n: int)
    requires FirstNewline(stdin, n)
    requires ReadLineConfirmation(stdin)
    ensures exists i, j :: AnswerAt(stdin, n, i, j)
  {
    ReadLineAt(stdin, n);
    var i, j := YesLineParts(stdin[..n + 1]);
    AnswerInFirstLine(stdin, n, i, j);
  }

  /** An answer on the first line, surrounded only by white space, is a yes. */
  lemma LineConfirmationComplete(stdin: string, n: int, i: int, j: int)
    requires FirstNewline(stdin, n)
    requires AnswerAt(stdin, n, i, j)
    ensures ReadLineConfirmation(stdin)
  {
    ReadLineAt(stdin, n);
    var w, b := FirstLineParts(stdin, n, i, j);
    TrimSpaceOfPadded(stdin[..i], w, b);
    LowerYes(w);
  }

  /** The first line of an answer is the white space before it, the word, and the white space and newline after it. */
  lemma FirstLineParts(stdin: string, n: int, i: int, j: int) returns (w: string, b: string)
    requires AnswerAt(stdin, n, i, j) && stdin[n] == '\n'
    ensures stdin[..n + 1] == stdin[..i] + w + b
    ensures w == stdin[i..j] && AllSpace(b)
  {
    w := stdin[i..j];
    b := stdin[j..n + 1];
    assert stdin[..n + 1] == stdin[..i] + w + b;
    forall k | 0 <= k < |b| ensures IsSpace(b[k]) {
      if k < n - j {
        assert b[k] == stdin[j..n][k];
      } else {
        assert b[k] == '\n';
      }
    }
  }

  /**
   * Line mode says yes exactly when the first line holds "y" or "yes" in any
   * letter case and nothing else but white space.
   */
  lemma LineConfirmationIff(stdin: string, n: int)
    requires FirstNewline(stdin, n)
    ensures ReadLineConfirmation(stdin) <==> exists i, j :: AnswerAt(stdin, n, i, j)
  {
    if ReadLineConfirmation(stdin) {
      LineConfirmationSound(stdin, n);
    }
    if exists i, j :: AnswerAt(stdin, n, i, j) {
      var i, j :| AnswerAt(stdin, n, i, j);
      LineConfirmationComplete(stdin, n, i, j);
    }
  }

  /** With no newline before the input ends, line mode says no. */
  lemma NoLineMeansNo(stdin: string)
    requires '\n' !in stdin
    ensures !ReadLineConfirmation(stdin)
  {
  }

  /** What the terminal checks of defaultConfirmFn found. */
  datatype Terminal = Terminal(stdinIsTerminal: bool, stderrIsTerminal: bool, rawModeAvailable: bool)

  predicate UsesRawMode(t: Terminal) {
    t.stdinIsTerminal && t.stderrIsTerminal && t.rawModeAvailable
  }

  /**
   * defaultConfirmFn: one raw keypress when both streams are terminals and
   * raw mode can be entered; otherwise (including when raw mode fails) a line.
   */
  function DefaultConfirm(t: Terminal, rawRead: Option<Byte>, stdin: string): (r: bool)
    ensures UsesRawMode(t) ==> (r <==> rawRead == Some('y' as int) || rawRead == Some('Y' as int))
    ensures !UsesRawMode(t) ==> r == ReadLineConfirmation(stdin)
  {
    if t.stdinIsTerminal && t.stderrIsTerminal then
      if !t.rawModeAvailable then ReadLineConfirmation(stdin) else RawAnswer(rawRead)
    else
      ReadLineConfirmation(stdin)
  }
}
