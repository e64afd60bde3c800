/** Line formatting of the Console dock's `append`. */
module Console {
  /** The two `logging` levels the window passes explicitly. */
  const Info: int := 20
  const Warning: int := 30

  const RedTag: string := "<font color=\"red\">"
  const PlainTag: string := "<font color=\"#222\">"
  const Close: string := "</font><br>"

  /** The opening tag: red for exactly the WARNING level, dark grey for every
      other level (ERROR and CRITICAL included). */
  function ColorTag(level: int): (tag: string)
    ensures tag == RedTag <==> level == Warning
    ensures tag == RedTag || tag == PlainTag
  {
    if level == Warning then RedTag else PlainTag
  }

  /** The HTML line appended to the console: the message wrapped, unaltered,
      between the colour tag and a closing tag with a line break. */
  function Format(line: string, level: int): (html: string)
    ensures |html| == |ColorTag(level)| + |line| + |Close|
    ensures html[..|ColorTag(level)|] == ColorTag(level)
    ensures html[|ColorTag(level)|..|html| - |Close|] == line
    ensures html[|html| - |Close|..] == Close
  {
    ColorTag(level) + line + Close
  }

  /** An appended line is shown red. */
  predicate IsRed(html: string) {
    |html| >= |RedTag| && html[..|RedTag|] == RedTag
  }

  /** A formatted line reads red exactly when it was logged at WARNING. */
  lemma RedExactlyForWarnings(line: string, level: int)
    ensures IsRed(Format(line, level)) <==> level == Warning
  {
    var html := Format(line, level);
    if level != Warning {
      assert html[..|PlainTag|] == PlainTag;
      assert html[13] == PlainTag[13] == '#';
      assert RedTag[13] == 'r';
    }
  }

  /** The message can be read back out of the formatted line. */
  lemma FormatKeepsLine(a: string, b: string, level: int)
    requires Format(a, level) == Format(b, level)
    ensures a == b
  {
  }
}
