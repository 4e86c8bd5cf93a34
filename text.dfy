/** The string building the scripts rely on: `' '.join`, `c * n` and line-by-line writes. */
module Text {

  /** The total number of characters in `words`. */
  function SumLen(words: seq<string>): nat
  {
    if words == [] then 0 else |words[0]| + SumLen(words[1..])
  }

  /** Python's `' '.join(words)`. */
  function Join(words: seq<string>): (r: string)
    ensures words == [] ==> r == ""
    ensures words != [] ==> |r| == SumLen(words) + |words| - 1
    ensures forall c :: c in r ==> c == ' ' || exists i :: 0 <= i < |words| && c in words[i]
  {
    if words == [] then ""
    else if |words| == 1 then words[0]
    else
      var rest := Join(words[1..]);
      assert forall c :: c in rest ==> c == ' ' || exists i :: 1 <= i < |words| && c in words[i] by {
        forall c | c in rest && c != ' '
          ensures exists i :: 1 <= i < |words| && c in words[i]
        {
          var j :| 0 <= j < |words[1..]| && c in words[1..][j];
          assert c in words[j + 1];
        }
      }
      words[0] + " " + rest
  }

  /** Python's `c * n` for a one-character string `c`. */
  function Repeat(c: char, n: nat): (r: string)
    ensures |r| == n
    ensures forall i :: 0 <= i < n ==> r[i] == c
  {
    if n == 0 then "" else [c] + Repeat(c, n - 1)
  }

  /** The text produced by writing each line followed by a newline. */
  function Lines(lines: seq<string>): (r: string)
    ensures |r| == SumLen(lines) + |lines|
  {
    if lines == [] then "" else lines[0] + "\n" + Lines(lines[1..])
  }

  lemma {:induction false} LinesAppend(a: seq<string>, b: seq<string>)
    ensures Lines(a + b) == Lines(a) + Lines(b)
  {
    if a == [] {
      assert a + b == b;
    } else {
      assert (a + b)[0] == a[0];
      assert (a + b)[1..] == a[1..] + b;
      LinesAppend(a[1..], b);
    }
  }

  /** Writing one more line appends it and its newline. */
  lemma LinesSnoc(lines: seq<string>, line: string)
    ensures Lines(lines + [line]) == Lines(lines) + line + "\n"
  {
    LinesAppend(lines, [line]);
    assert Lines([line]) == line + "\n" + Lines([]);
  }

  /** The index of the first `c` in `s`, or `|s|` when there is none. */
  function IndexOf(s: string, c: char): (k: nat)
    ensures k <= |s|
    ensures forall j :: 0 <= j < k ==> s[j] != c
    ensures k < |s| ==> s[k] == c
  {
    if s == [] || s[0] == c then 0 else 1 + IndexOf(s[1..], c)
  }

  /** Python's `s.split(sep)` for a one-character separator: never empty. */
  function Split(s: string, sep: char): (r: seq<string>)
    decreases |s|
  {
    var k := IndexOf(s, sep);
    if k == |s| then [s] else [s[..k]] + Split(s[k + 1..], sep)
  }

  /**
   * Splitting a joined caption at its spaces gives back its words, when no
   * word contains a space: `' '.join` keeps the words in order, one space
   * apart.
   */
  lemma {:induction false} SplitJoin(words: seq<string>)
    requires words != []
    requires forall i :: 0 <= i < |words| ==> ' ' !in words[i]
    ensures Split(Join(words), ' ') == words
  {
    var w := words[0];
    var s := Join(words);
    var k := IndexOf(s, ' ');
    if |words| == 1 {
      assert s == w;
      assert k == |s|;
    } else {
      assert s == w + " " + Join(words[1..]);
      assert s[|w|] == ' ';
      assert forall j :: 0 <= j < |w| ==> s[j] == w[j];
      assert k == |w|;
      assert s[..k] == w;
      assert s[k + 1..] == Join(words[1..]);
      SplitJoin(words[1..]);
      assert words == [w] + words[1..];
    }
  }

  /** Reads a text back as its lines; a last line without a newline is kept too. */
  function SplitLines(s: string): seq<string>
    decreases |s|
  {
    if s == [] then []
    else
      var k := IndexOf(s, '\n');
      if k == |s| then [s] else [s[..k]] + SplitLines(s[k + 1..])
  }

  /** Reading back what was written line by line gives the lines again. */
  lemma {:induction false} SplitLinesOfLines(lines: seq<string>)
    requires forall i :: 0 <= i < |lines| ==> '\n' !in lines[i]
    ensures SplitLines(Lines(lines)) == lines
  {
    if lines != [] {
      var l := lines[0];
      var s := Lines(lines);
      assert s == l + "\n" + Lines(lines[1..]);
      var k := IndexOf(s, '\n');
      assert s[|l|] == '\n';
      assert forall j :: 0 <= j < |l| ==> s[j] == l[j];
      assert k == |l|;
      assert s[..k] == l;
      assert s[k + 1..] == Lines(lines[1..]);
      SplitLinesOfLines(lines[1..]);
    }
  }
}
