/** Text as Python sees it; other white space than the ASCII kind is not modelled. */
module Text {
  predicate IsSpace(c: char) {
    c in {' ', '\t', '\n', '\r', 11 as char, 12 as char, 28 as char, 29 as char, 30 as char, 31 as char}
  }

  /** What reading a file in text mode makes of it: every line ends in a newline, however it ended. */
  function TextMode(raw: string): (text: string)
    ensures '\r' !in text
    decreases |raw|
  {
    if raw == "" then ""
    else if raw[0] == '\r' then
      ['\n'] + TextMode(if |raw| > 1 && raw[1] == '\n' then raw[2..] else raw[1..])
    else [raw[0]] + TextMode(raw[1..])
  }

  /** It leaves exactly the texts without carriage returns as they are. */
  lemma {:induction false} TextModeKeeps(raw: string)
    ensures TextMode(raw) == raw <==> '\r' !in raw
    decreases |raw|
  {
    if raw != "" && raw[0] != '\r' {
      TextModeKeeps(raw[1..]);
      assert raw == [raw[0]] + raw[1..];
    }
  }

  /** A line ends in a newline, a carriage return or both, and in any case in one newline. */
  lemma {:induction false} TextModeEndsLines(line: string, rest: string)
    requires '\r' !in line
    ensures TextMode(line + "\r\n" + rest) == line + "\n" + TextMode(rest)
    ensures rest == "" || rest[0] != '\n' ==> TextMode(line + "\r" + rest) == line + "\n" + TextMode(rest)
    decreases |line|
  {
    var both, one := line + "\r\n" + rest, line + "\r" + rest;
    if line == "" {
      assert both[0] == '\r' && both[1] == '\n' && both[2..] == rest;
      assert one[0] == '\r' && one[1..] == rest && (|one| > 1 ==> one[1] == rest[0]);
    } else {
      assert line[0] in line && forall c :: c in line[1..] ==> c in line;
      assert line == [line[0]] + line[1..];
      assert both[1..] == line[1..] + "\r\n" + rest && one[1..] == line[1..] + "\r" + rest;
      TextModeEndsLines(line[1..], rest);
    }
  }
}
