/** `update_hosts_file`: one line for each mapped address, replacing whatever names it. */
module HostsFile {
  import opened Text
  import opened Wrappers

  /** One item of the map, in iteration order; the addresses are the keys, so they are distinct. */
  datatype Host = Host(ip: string, name: string)

  /** The leading characters that are not white space. */
  function Word(s: string): (w: string)
    ensures |w| <= |s|
    ensures s != "" && !IsSpace(s[0]) ==> w != ""
  {
    if s == "" || IsSpace(s[0]) then "" else [s[0]] + Word(s[1..])
  }

  /** `line.split()` */
  function Split(s: string): seq<string>
    decreases |s|
  {
    if s == "" then []
    else if IsSpace(s[0]) then Split(s[1..])
    else [Word(s)] + Split(s[|Word(s)|..])
  }

  predicate IsWord(s: string) {
    s != "" && forall c :: c in s ==> !IsSpace(c)
  }

  /** `readlines`: each line keeps its newline. */
  function ReadLines(content: string): seq<string> {
    if content == "" then [] else
      var rest := ReadLines(content[1..]);
      if content[0] == '\n' || rest == [] then [[content[0]]] + rest
      else [[content[0]] + rest[0]] + rest[1..]
  }

  function Concat(lines: seq<string>): string {
    if lines == [] then "" else lines[0] + Concat(lines[1..])
  }

  /** A line that ends with its only newline. */
  predicate Terminated(line: string) {
    line != "" && line[|line| - 1] == '\n' && '\n' !in line[..|line| - 1]
  }

  /** An item with an empty address or name is skipped. */
  predicate Used(h: Host) {
    h.ip != "" && h.name != ""
  }

  /** A line of at least two characters without any word makes the code index an empty list. */
  predicate Blank(line: string) {
    |line| >= 2 && Split(line) == []
  }

  /** The line starts with the address or names the host. */
  predicate Conflicts(line: string, h: Host) {
    |line| >= 2 && Split(line) != [] && (Split(line)[0] == h.ip || h.name in Split(line)[1..])
  }

  predicate ConflictsAny(line: string, hosts: seq<Host>) {
    exists h :: h in hosts && Used(h) && Conflicts(line, h)
  }

  function Keepers(lines: seq<string>, hosts: seq<Host>): seq<string> {
    if lines == [] then []
    else (if ConflictsAny(lines[0], hosts) then [] else [lines[0]]) + Keepers(lines[1..], hosts)
  }

  function Line(h: Host): string {
    h.ip + " " + h.name + "\n"
  }

  function NewLines(hosts: seq<Host>): seq<string> {
    if hosts == [] then []
    else (if Used(hosts[0]) then [Line(hosts[0])] else []) + NewLines(hosts[1..])
  }

  predicate Fails(lines: seq<string>, hosts: seq<Host>) {
    (exists h :: h in hosts && Used(h)) && (exists line :: line in lines && Blank(line))
  }

  /** The lines after the update: the original lines nothing conflicts with, in order, and then the new ones. */
  function Updated(lines: seq<string>, hosts: seq<Host>): seq<string> {
    Keepers(lines, hosts) + NewLines(hosts)
  }

  /** The lines of a file as it is stored. */
  function FileLines(raw: string): seq<string> {
    ReadLines(TextMode(raw))
  }

  /** The file after an update. */
  function Rewritten(raw: string, hosts: seq<Host>): string {
    Concat(Updated(FileLines(raw), hosts))
  }

  lemma {:induction false} KeepersAppend(a: seq<string>, b: seq<string>, hosts: seq<Host>)
    ensures Keepers(a + b, hosts) == Keepers(a, hosts) + Keepers(b, hosts)
  {
    if a == [] {
      assert a + b == b;
    } else {
      assert (a + b)[1..] == a[1..] + b;
      KeepersAppend(a[1..], b, hosts);
    }
  }

  lemma {:induction false} KeepersStep(lines: seq<string>, hosts: seq<Host>, h: Host)
    ensures Keepers(Keepers(lines, hosts), [h]) == Keepers(lines, hosts + [h])
  {
    if lines != [] {
      var first := lines[0];
      KeepersStep(lines[1..], hosts, h);
      assert ConflictsAny(first, hosts + [h]) <==> ConflictsAny(first, hosts) || ConflictsAny(first, [h]);
      var head := if ConflictsAny(first, hosts) then [] else [first];
      KeepersAppend(head, Keepers(lines[1..], hosts), [h]);
    }
  }

  lemma {:induction false} KeepersFrom(lines: seq<string>, hosts: seq<Host>)
    ensures forall x :: x in Keepers(lines, hosts) <==> x in lines && !ConflictsAny(x, hosts)
  {
    if lines != [] {
      KeepersFrom(lines[1..], hosts);
    }
  }

  lemma {:induction false} KeepersAll(lines: seq<string>, hosts: seq<Host>)
    requires forall x :: x in lines ==> !ConflictsAny(x, hosts)
    ensures Keepers(lines, hosts) == lines
  {
    if lines != [] {
      assert lines[0] in lines && forall x :: x in lines[1..] ==> x in lines;
      KeepersAll(lines[1..], hosts);
    }
  }

  lemma {:induction false} KeepersNone(lines: seq<string>, hosts: seq<Host>)
    requires forall x :: x in lines ==> ConflictsAny(x, hosts)
    ensures Keepers(lines, hosts) == []
  {
    if lines != [] {
      assert lines[0] in lines && forall x :: x in lines[1..] ==> x in lines;
      KeepersNone(lines[1..], hosts);
    }
  }

  lemma {:induction false} NewLinesFrom(hosts: seq<Host>, x: string)
    ensures x in NewLines(hosts) <==> exists h :: h in hosts && Used(h) && x == Line(h)
  {
    if hosts != [] {
      NewLinesFrom(hosts[1..], x);
      assert forall h :: h in hosts <==> h == hosts[0] || h in hosts[1..];
    }
  }

  lemma {:induction false} NewLinesSnoc(hosts: seq<Host>, h: Host)
    ensures NewLines(hosts + [h]) == NewLines(hosts) + if Used(h) then [Line(h)] else []
  {
    if hosts != [] {
      assert (hosts + [h])[1..] == hosts[1..] + [h];
      NewLinesSnoc(hosts[1..], h);
    }
  }

  lemma ConflictsJust(line: string, h: Host)
    requires Used(h)
    ensures ConflictsAny(line, [h]) <==> Conflicts(line, h)
    ensures Keepers([line], [h]) == if Conflicts(line, h) then [] else [line]
  {
    assert h in [h] && [line][1..] == [];
  }

  lemma KeepersOfNone(hosts: seq<Host>)
    ensures Keepers([], hosts) == []
  {
  }

  /** The loop over the lines for one item; `None` is the IndexError. */
  method KeepLines(lines: seq<string>, h: Host) returns (r: Option<seq<string>>)
    requires Used(h)
    ensures r == if exists line :: line in lines && Blank(line) then None else Some(Keepers(lines, [h]))
  {
    hide Split, Keepers, ConflictsAny;
    KeepersOfNone([h]);
    var keepers: seq<string> := [];
    var i := 0;
    while i < |lines|
      invariant 0 <= i <= |lines|
      invariant forall line :: line in lines[..i] ==> !Blank(line)
      invariant keepers == Keepers(lines[..i], [h])
    {
      var line := lines[i];
      var words := Split(line);
      if |line| >= 2 && words == [] {
        assert line in lines && Blank(line);
        return None;
      }
      if |line| < 2 || !(words[0] == h.ip || h.name in words[1..]) {
        keepers := keepers + [line];
      }
      ConflictsJust(line, h);
      KeepersAppend(lines[..i], [line], [h]);
      assert lines[..i + 1] == lines[..i] + [line];
      i := i + 1;
    }
    assert lines[..i] == lines;
    return Some(keepers);
  }

  /** `update_hosts_file` on the file as it is stored; `None` is the IndexError, which leaves the file alone. */
  method UpdateHostsFile(raw: string, hosts: seq<Host>) returns (r: Option<string>)
    ensures r == if Fails(FileLines(raw), hosts) then None else Some(Rewritten(raw, hosts))
  {
    hide Split, Conflicts, FileLines, Concat, Line;
    var lines := FileLines(raw);
    ghost var original := lines;
    var newlines: seq<string> := [];
    var i := 0;
    KeepersAll(original, []);
    while i < |hosts|
      invariant 0 <= i <= |hosts|
      invariant lines == Keepers(original, hosts[..i])
      invariant newlines == NewLines(hosts[..i])
      invariant !Fails(original, hosts[..i])
    {
      var h := hosts[i];
      assert hosts[..i + 1] == hosts[..i] + [h];
      NewLinesSnoc(hosts[..i], h);
      KeepersStep(original, hosts[..i], h);
      if Used(h) {
        var kept := KeepLines(lines, h);
        BlanksAreKept(original, hosts[..i]);
        if kept.None? {
          assert h in hosts;
          return None;
        }
        lines := kept.value;
        newlines := newlines + [Line(h)];
      } else {
        assert forall line :: !ConflictsAny(line, [h]);
        KeepersAll(lines, [h]);
        assert forall x :: x in hosts[..i + 1] && Used(x) ==> x in hosts[..i];
      }
      i := i + 1;
    }
    assert hosts[..i] == hosts;
    lines := lines + newlines;
    var out := Join(lines);
    return Some(out);
  }

  /** A blank line conflicts with nothing, so it stays until it makes the code fail. */
  lemma BlanksAreKept(lines: seq<string>, hosts: seq<Host>)
    ensures (exists line :: line in Keepers(lines, hosts) && Blank(line)) <==> (exists line :: line in lines && Blank(line))
  {
    KeepersFrom(lines, hosts);
    forall line | line in lines && Blank(line)
      ensures line in Keepers(lines, hosts)
    {
    }
  }

  /** Writing the lines one after the other. */
  method Join(lines: seq<string>) returns (s: string)
    ensures s == Concat(lines)
  {
    s := "";
    var i := 0;
    while i < |lines|
      invariant 0 <= i <= |lines| && s == Concat(lines[..i])
    {
      ConcatAppend(lines[..i], [lines[i]]);
      ConcatOne(lines[i]);
      assert lines[..i + 1] == lines[..i] + [lines[i]];
      s := s + lines[i];
      i := i + 1;
    }
    assert lines[..i] == lines;
  }

  // ----- the file read back -----

  lemma {:induction false} ReadTerminated(line: string, rest: string)
    requires Terminated(line)
    ensures ReadLines(line + rest) == [line] + ReadLines(rest)
  {
    assert (line + rest)[1..] == line[1..] + rest;
    if |line| == 1 {
      assert line[1..] + rest == rest;
      assert line == ['\n'];
    } else {
      assert line[0] in line[..|line| - 1];
      assert line[1..][..|line| - 2] == line[..|line| - 1][1..];
      ReadTerminated(line[1..], rest);
      assert line == [line[0]] + line[1..];
    }
  }

  /** Terminated lines are read back as they were written. */
  lemma {:induction false} ReadBack(lines: seq<string>)
    requires forall x :: x in lines ==> Terminated(x)
    ensures ReadLines(Concat(lines)) == lines
  {
    if lines != [] {
      assert lines[0] in lines && forall x :: x in lines[1..] ==> x in lines;
      ReadBack(lines[1..]);
      ReadTerminated(lines[0], Concat(lines[1..]));
    }
  }

  /** A last line without its newline. */
  predicate Open(line: string) {
    line != "" && '\n' !in line
  }

  /** Every line but the last ends with its only newline. */
  predicate FileLike(lines: seq<string>) {
    (forall i :: 0 <= i < |lines| - 1 ==> Terminated(lines[i])) &&
    (lines != [] ==> Terminated(lines[|lines| - 1]) || Open(lines[|lines| - 1]))
  }

  /** One more character in front of the lines. */
  function Prepend(c: char, rest: seq<string>): seq<string> {
    if c == '\n' || rest == [] then [[c]] + rest else [[c] + rest[0]] + rest[1..]
  }

  lemma PrependShape(c: char, rest: seq<string>)
    requires FileLike(rest)
    ensures var lines := Prepend(c, rest);
            && FileLike(lines) && lines != []
            && (Terminated(lines[|lines| - 1]) <==> if rest == [] then c == '\n' else Terminated(rest[|rest| - 1]))
  {
    hide Terminated, Open;
    OneCharacter(c);
    if c != '\n' && rest != [] {
      OpenNotEmpty(rest[0]);
      OneMore(c, rest[0]);
      assert |rest| > 1 ==> Prepend(c, rest)[|rest| - 1] == rest[|rest| - 1];
    }
  }

  lemma PrependConcat(c: char, rest: seq<string>)
    ensures Concat(Prepend(c, rest)) == [c] + Concat(rest)
  {
    hide Concat;
    ConcatCons([c], rest);
    if rest != [] {
      ConcatCons([c] + rest[0], rest[1..]);
      ConcatCons(rest[0], rest[1..]);
      assert rest == [rest[0]] + rest[1..];
    }
  }

  /** `readlines` leaves at most the last line without its newline, and that one exactly if the file lacks it. */
  lemma {:induction false} ReadLinesShape(content: string)
    ensures FileLike(ReadLines(content)) && Concat(ReadLines(content)) == content
    ensures content == "" <==> ReadLines(content) == []
    ensures content != "" ==>
              (Terminated(ReadLines(content)[|ReadLines(content)| - 1]) <==> content[|content| - 1] == '\n')
  {
    if content != "" {
      var c, more := content[0], content[1..];
      assert content == [c] + more;
      ReadLinesShape(more);
      ReadsPrepended(c, more);
      hide ReadLines, Concat, FileLike, Terminated, Prepend;
      PrependShape(c, ReadLines(more));
      PrependConcat(c, ReadLines(more));
    }
  }

  lemma ReadsPrepended(c: char, more: string)
    ensures ReadLines([c] + more) == Prepend(c, ReadLines(more))
  {
    assert ([c] + more)[1..] == more;
  }

  lemma ConcatCons(x: string, rest: seq<string>)
    ensures Concat([x] + rest) == x + Concat(rest)
  {
    assert ([x] + rest)[1..] == rest;
  }

  lemma OneCharacter(c: char)
    ensures Terminated([c]) <==> c == '\n'
    ensures Open([c]) <==> c != '\n'
  {
    assert [c][..0] == "";
  }

  lemma OneMore(c: char, line: string)
    requires c != '\n' && line != ""
    ensures Terminated([c] + line) <==> Terminated(line)
    ensures Open([c] + line) <==> Open(line)
  {
    assert ([c] + line)[..|line|] == [c] + line[..|line| - 1];
    assert line == line[..|line| - 1] + [line[|line| - 1]];
  }

  lemma ReadCons(c: char, content: string)
    requires c != '\n'
    ensures ReadLines([c] + content) ==
            var rest := ReadLines(content);
            if rest == [] then [[c]] else [[c] + rest[0]] + rest[1..]
  {
    assert ([c] + content)[1..] == content;
  }

  lemma {:induction false} ReadOpen(p: string, rest: seq<string>)
    requires Open(p) && (forall x :: x in rest ==> Terminated(x))
    ensures ReadLines(p + Concat(rest)) == if rest == [] then [p] else [p + rest[0]] + rest[1..]
    decreases |p|
  {
    hide ReadLines, Concat, Terminated;
    var c, tail, more := p[0], p[1..], Concat(rest);
    assert c in p && (forall x :: x in tail ==> x in p) && p == [c] + tail;
    assert p + more == [c] + (tail + more);
    ReadCons(c, tail + more);
    if tail == "" {
      assert tail + more == more && p == [c];
      ReadBack(rest);
    } else {
      ReadOpen(tail, rest);
      if rest != [] {
        assert [c] + (tail + rest[0]) == p + rest[0];
        assert ([tail + rest[0]] + rest[1..])[1..] == rest[1..];
      } else {
        assert [tail][1..] == [];
      }
    }
  }

  function ButLast(lines: seq<string>): seq<string> {
    if lines == [] then [] else lines[..|lines| - 1]
  }

  /** What is read back of `kept` and `news`: an open last line takes in the first line that is added. */
  function Added(kept: seq<string>, news: seq<string>): seq<string> {
    if kept == [] || news == [] || Terminated(kept[|kept| - 1]) then kept + news
    else ButLast(kept) + [kept[|kept| - 1] + news[0]] + news[1..]
  }

  lemma AddedToOne(first: string, news: seq<string>)
    requires Terminated(first) || Open(first)
    requires forall x :: x in news ==> Terminated(x)
    ensures ReadLines(Concat([first] + news)) == Added([first], news)
  {
    hide Terminated, Open, ReadLines;
    assert ([first] + news)[1..] == news;
    if Terminated(first) {
      ReadBack(news);
      ReadTerminated(first, Concat(news));
    } else {
      ReadOpen(first, news);
      assert ButLast([first]) == [] && (news == [] ==> [first] + news == [first]);
    }
  }

  lemma AddedMore(first: string, more: seq<string>, news: seq<string>)
    requires more != []
    ensures [first] + Added(more, news) == Added([first] + more, news)
  {
    hide Terminated;
    var all := [first] + more;
    assert all != [] && all[|all| - 1] == more[|more| - 1];
    assert news == [] || Terminated(more[|more| - 1]) ==> [first] + (more + news) == all + news;
    assert ([first] + more)[|more|] == more[|more| - 1];
    assert ButLast([first] + more) == [first] + ButLast(more);
  }

  lemma {:induction false} ReadAdded(kept: seq<string>, news: seq<string>)
    requires FileLike(kept) && forall x :: x in news ==> Terminated(x)
    ensures ReadLines(Concat(kept + news)) == Added(kept, news)
  {
    hide Terminated, Open, ReadLines, Added;
    if kept == [] {
      assert kept + news == news;
      ReadBack(news);
      assert Added(kept, news) == news by { AddedToNone(news); }
    } else if |kept| == 1 {
      assert kept == [kept[0]];
      AddedToOne(kept[0], news);
    } else {
      var first, more := kept[0], kept[1..];
      assert more[|more| - 1] == kept[|kept| - 1] && kept == [first] + more;
      ReadAdded(more, news);
      AddedMore(first, more, news);
      assert (kept + news)[1..] == more + news;
      ReadTerminated(first, Concat(more + news));
    }
  }

  lemma AddedToNone(news: seq<string>)
    ensures Added([], news) == news
  {
  }

  lemma {:induction false} WordStops(w: string, rest: string)
    requires (forall c :: c in w ==> !IsSpace(c)) && (rest == "" || IsSpace(rest[0]))
    ensures Word(w + rest) == w
  {
    if w == "" {
      assert w + rest == rest;
    } else {
      assert (w + rest)[1..] == w[1..] + rest;
      assert w[0] in w && forall c :: c in w[1..] ==> c in w;
      WordStops(w[1..], rest);
      assert w == [w[0]] + w[1..];
    }
  }

  lemma SplitWord(w: string, rest: string)
    requires IsWord(w) && (rest == "" || IsSpace(rest[0]))
    ensures Split(w + rest) == [w] + Split(rest)
  {
    WordStops(w, rest);
    assert w[0] in w && (w + rest)[0] == w[0];
    assert (w + rest)[|w|..] == rest;
  }

  lemma SplitSpace(c: char, rest: string)
    requires IsSpace(c)
    ensures Split([c] + rest) == Split(rest)
  {
    assert ([c] + rest)[1..] == rest;
  }

  /** A new line reads as its address and its name. */
  lemma LineSplits(h: Host)
    requires IsWord(h.ip) && IsWord(h.name)
    ensures Split(Line(h)) == [h.ip, h.name] && Terminated(Line(h)) && |Line(h)| >= 2
  {
    hide Split, Word;
    var tail := " " + (h.name + "\n");
    assert Line(h) == h.ip + tail;
    SplitWord(h.ip, tail);
    SplitSpace(' ', h.name + "\n");
    SplitWord(h.name, "\n");
    SplitNewline();
    assert Line(h)[..|Line(h)| - 1] == h.ip + " " + h.name;
  }

  lemma SplitNewline()
    ensures Split("\n") == []
  {
    assert "\n" == ['\n'] + "";
    SplitSpace('\n', "");
  }

  /** The map's addresses and names are single words, where they are used at all. */
  predicate Words(hosts: seq<Host>) {
    forall h :: h in hosts && Used(h) ==> IsWord(h.ip) && IsWord(h.name)
  }

  lemma NewLinesConflict(hosts: seq<Host>, x: string)
    requires Words(hosts) && x in NewLines(hosts)
    ensures ConflictsAny(x, hosts) && Terminated(x) && !Blank(x)
  {
    NewLinesFrom(hosts, x);
    var h :| h in hosts && Used(h) && x == Line(h);
    LineSplits(h);
    assert Conflicts(x, h);
  }

  /** The last line ends in a newline or is replaced, or there is nothing to add. */
  predicate WellEnded(lines: seq<string>, hosts: seq<Host>) {
    || lines == []
    || Terminated(lines[|lines| - 1])
    || ConflictsAny(lines[|lines| - 1], hosts)
    || (forall h :: h in hosts ==> !Used(h))
  }

  lemma {:induction false} KeepersShape(lines: seq<string>, hosts: seq<Host>)
    requires FileLike(lines)
    ensures var kept := Keepers(lines, hosts);
            && FileLike(kept)
            && (kept == [] || Terminated(kept[|kept| - 1]) <==>
                  lines == [] || Terminated(lines[|lines| - 1]) || ConflictsAny(lines[|lines| - 1], hosts))
            && (kept != [] && !Terminated(kept[|kept| - 1]) ==> kept[|kept| - 1] == lines[|lines| - 1])
  {
    hide ConflictsAny, Terminated, Open;
    if lines != [] {
      KeepersShape(lines[1..], hosts);
      var kept, more := Keepers(lines, hosts), Keepers(lines[1..], hosts);
      if |lines| > 1 {
        assert lines[1..][|lines| - 2] == lines[|lines| - 1] && Terminated(lines[0]);
      }
      if !ConflictsAny(lines[0], hosts) {
        assert kept == [lines[0]] + more;
        assert forall i :: 0 < i < |kept| ==> kept[i] == more[i - 1];
      }
    }
  }

  lemma {:induction false} NewLinesNone(hosts: seq<Host>)
    ensures NewLines(hosts) == [] <==> forall h :: h in hosts ==> !Used(h)
  {
    if hosts != [] {
      NewLinesNone(hosts[1..]);
      assert forall h :: h in hosts <==> h == hosts[0] || h in hosts[1..];
    }
  }

  /** The file after an update, read back. */
  function FileAfter(lines: seq<string>, hosts: seq<Host>): seq<string> {
    Added(Keepers(lines, hosts), NewLines(hosts))
  }

  /** What is read back, for text that holds no carriage return. */
  lemma ReadsAsUpdatedInText(content: string, hosts: seq<Host>)
    requires Words(hosts)
    ensures var lines := ReadLines(content);
            var file := ReadLines(Concat(Updated(lines, hosts)));
            && file == FileAfter(lines, hosts)
            && (file == Updated(lines, hosts) <==> WellEnded(lines, hosts))
  {
    hide Split, Line, IsWord, Keepers, NewLines, ConflictsAny, ReadLines, Concat, Terminated, Used;
    var lines := ReadLines(content);
    var kept, news := Keepers(lines, hosts), NewLines(hosts);
    ReadLinesShape(content);
    KeepersShape(lines, hosts);
    NewLinesNone(hosts);
    forall x | x in news
      ensures Terminated(x)
    {
      NewLinesConflict(hosts, x);
    }
    ReadAdded(kept, news);
    if !WellEnded(lines, hosts) {
      assert |FileAfter(lines, hosts)| == |Updated(lines, hosts)| - 1;
    }
  }

  lemma {:induction false} SplitJoins(s: string, c: char, t: string)
    requires IsSpace(c)
    ensures Split(s + [c] + t) == Split(s) + Split(t)
    decreases |s|
  {
    hide Split, Word;
    if s == "" {
      assert s + [c] + t == [c] + t;
      SplitSpace(c, t);
      SplitEmpty();
    } else if IsSpace(s[0]) {
      var more := s[1..];
      assert s + [c] + t == [s[0]] + (more + [c] + t) && s == [s[0]] + more;
      SplitSpace(s[0], more + [c] + t);
      SplitSpace(s[0], more);
      SplitJoins(more, c, t);
    } else {
      var w := Word(s);
      WordSplits(s);
      var rest := s[|w|..];
      assert s + [c] + t == w + (rest + [c] + t) && s == w + rest;
      SplitWord(w, rest + [c] + t);
      SplitWord(w, rest);
      SplitJoins(rest, c, t);
    }
  }

  lemma {:induction false} WordSplits(s: string)
    requires s != "" && !IsSpace(s[0])
    ensures |Word(s)| <= |s| && IsWord(Word(s)) && s[..|Word(s)|] == Word(s)
    ensures |Word(s)| < |s| ==> IsSpace(s[|Word(s)|])
  {
    if |s| > 1 && !IsSpace(s[1]) {
      WordSplits(s[1..]);
    } else {
      assert Word(s) == [s[0]] + Word(s[1..]) && Word(s[1..]) == "";
    }
  }

  lemma {:induction false} SplitSomething(s: string)
    ensures (exists c :: c in s && !IsSpace(c)) ==> Split(s) != []
  {
    if s != "" && IsSpace(s[0]) {
      assert s == [s[0]] + s[1..];
      SplitSomething(s[1..]);
    }
  }

  /** A line that has taken in a new one names the new host, so the next update deletes it. */
  lemma GluedConflicts(p: string, h: Host)
    requires IsWord(h.ip) && IsWord(h.name)
    ensures Conflicts(p + Line(h), h) && Names(p + Line(h), h.name) && !Blank(p + Line(h))
  {
    hide Word, Split;
    var tail := h.name + "\n";
    assert p + Line(h) == (p + h.ip) + [' '] + tail;
    SplitJoins(p + h.ip, ' ', tail);
    assert h.ip[0] in p + h.ip && h.ip[0] in h.ip;
    SplitSomething(p + h.ip);
    SplitWord(h.name, "\n");
    SplitNewline();
    assert Split(p + Line(h)) == Split(p + h.ip) + [h.name];
    assert (Split(p + h.ip) + [h.name])[1..] == Split(p + h.ip)[1..] + [h.name];
  }

  lemma FirstNewLine(hosts: seq<Host>) returns (h: Host)
    requires NewLines(hosts) != []
    ensures h in hosts && Used(h) && NewLines(hosts)[0] == Line(h)
  {
    NewLinesFrom(hosts, NewLines(hosts)[0]);
    h :| h in hosts && Used(h) && NewLines(hosts)[0] == Line(h);
  }

  /** A second update with the same map never fails, and removes from the file exactly the glued line's old text. */
  lemma UpdatedAgain(content: string, hosts: seq<Host>)
    requires Words(hosts) && !Fails(ReadLines(content), hosts)
    ensures var lines := ReadLines(content);
            var file := FileAfter(lines, hosts);
            && !Fails(file, hosts)
            && Updated(file, hosts) ==
                 (if WellEnded(lines, hosts) then Updated(lines, hosts)
                  else ButLast(Keepers(lines, hosts)) + NewLines(hosts))
  {
    hide Split, Line, IsWord, Keepers, NewLines, ConflictsAny, ReadLines, Concat, Terminated, Used, Blank, Conflicts;
    var lines := ReadLines(content);
    var kept, news := Keepers(lines, hosts), NewLines(hosts);
    ReadLinesShape(content);
    KeepersShape(lines, hosts);
    KeepersFrom(lines, hosts);
    NewLinesNone(hosts);
    forall x | x in news
      ensures ConflictsAny(x, hosts) && Terminated(x) && !Blank(x)
    {
      NewLinesConflict(hosts, x);
    }
    if WellEnded(lines, hosts) {
      StaysUpdated(kept, news, hosts);
    } else {
      var last := kept[|kept| - 1];
      var h := FirstNewLine(hosts);
      GluedConflicts(last, h);
      assert ConflictsAny(last + news[0], hosts) by {
        assert Conflicts(last + Line(h), h);
        ConflictsOne(last + Line(h), hosts, h);
      }
      var back := [last + news[0]] + news[1..];
      assert forall x :: x in back ==> ConflictsAny(x, hosts) && !Blank(x);
      assert FileAfter(lines, hosts) == ButLast(kept) + back;
      StaysUpdated(ButLast(kept), back, hosts);
    }
  }

  lemma ConflictsOne(line: string, hosts: seq<Host>, h: Host)
    requires h in hosts && Used(h) && Conflicts(line, h)
    ensures ConflictsAny(line, hosts)
  {
  }

  lemma StaysUpdated(kept: seq<string>, back: seq<string>, hosts: seq<Host>)
    requires forall x :: x in kept ==> !ConflictsAny(x, hosts)
    requires forall x :: x in back ==> ConflictsAny(x, hosts)
    ensures Keepers(kept + back, hosts) == kept
  {
    KeepersAppend(kept, back, hosts);
    KeepersAll(kept, hosts);
    KeepersNone(back, hosts);
    assert kept + [] == kept;
  }

  lemma {:induction false} ConcatAppend(a: seq<string>, b: seq<string>)
    ensures Concat(a + b) == Concat(a) + Concat(b)
  {
    if a == [] {
      assert a + b == b;
    } else {
      assert (a + b)[1..] == a[1..] + b;
      ConcatAppend(a[1..], b);
    }
  }

  /** A second update, for such text. */
  lemma SecondUpdateIsIdentityInText(content: string, hosts: seq<Host>)
    requires Words(hosts) && !Fails(ReadLines(content), hosts)
    ensures var lines := ReadLines(content);
            var once := Concat(Updated(lines, hosts));
            var twice := Concat(Updated(ReadLines(once), hosts));
            && !Fails(ReadLines(once), hosts)
            && (twice == once <==> WellEnded(lines, hosts))
            && (!WellEnded(lines, hosts) ==>
                  var kept := Keepers(lines, hosts);
                  twice == Concat(ButLast(kept) + NewLines(hosts)))
  {
    hide Split, Line, IsWord, Keepers, NewLines, ConflictsAny, ReadLines, Concat, Terminated, Used, Conflicts, Blank;
    var lines := ReadLines(content);
    ReadsAsUpdatedInText(content, hosts);
    UpdatedAgain(content, hosts);
    if !WellEnded(lines, hosts) {
      var kept, news := Keepers(lines, hosts), NewLines(hosts);
      ReadLinesShape(content);
      KeepersShape(lines, hosts);
      var last := kept[|kept| - 1];
      assert kept == ButLast(kept) + [last];
      ConcatAppend(kept, news);
      ConcatAppend(ButLast(kept), [last]);
      ConcatAppend(ButLast(kept), news);
      ConcatOne(last);
      OpenNotEmpty(last);
    }
  }

  lemma ConcatOne(x: string)
    ensures Concat([x]) == x
  {
    assert [x][1..] == [];
  }

  lemma OpenNotEmpty(x: string)
    requires Terminated(x) || Open(x)
    ensures x != ""
  {
  }

  predicate Names(line: string, name: string) {
    Split(line) != [] && name in Split(line)[1..]
  }

  /** Addresses are the keys of the map; names are distinct too. */
  predicate Distinct(hosts: seq<Host>) {
    forall i, j :: 0 <= i < j < |hosts| ==> hosts[i].ip != hosts[j].ip && hosts[i].name != hosts[j].name
  }

  lemma ShortLinesNameNothing(line: string, name: string)
    requires |line| < 2
    ensures !Names(line, name)
  {
    if |line| == 1 {
      assert line == [line[0]] + "" == line + "";
      if IsSpace(line[0]) {
        SplitSpace(line[0], "");
      } else {
        SplitWord(line, "");
      }
    }
  }

  /** A used name stands on its new line, with its address, and among the updated lines on no other. */
  lemma NamedByItsLine(lines: seq<string>, hosts: seq<Host>, h: Host, i: nat)
    requires Words(hosts) && Distinct(hosts) && h in hosts && Used(h)
    requires i < |Updated(lines, hosts)|
    ensures Names(Updated(lines, hosts)[i], h.name) <==> Updated(lines, hosts)[i] == Line(h)
    ensures Line(h) in Updated(lines, hosts)
  {
    hide Split, Line, IsWord, Keepers, NewLines;
    var line := Updated(lines, hosts)[i];
    NewLinesFrom(hosts, Line(h));
    LineSplits(h);
    KeepersFrom(lines, hosts);
    if line in Keepers(lines, hosts) {
      assert !Conflicts(line, h);
      assert Conflicts(Line(h), h);
      if |line| < 2 {
        ShortLinesNameNothing(line, h.name);
      }
    } else {
      assert line in NewLines(hosts);
      NewLinesFrom(hosts, line);
      var g :| g in hosts && Used(g) && line == Line(g);
      LineSplits(g);
    }
  }

  /** No two new lines are the same. */
  lemma {:induction false} NewLinesOnce(hosts: seq<Host>, i: nat, j: nat)
    requires Words(hosts) && Distinct(hosts) && i < j < |NewLines(hosts)|
    ensures NewLines(hosts)[i] != NewLines(hosts)[j]
  {
    if !Used(hosts[0]) {
      assert NewLines(hosts) == NewLines(hosts[1..]);
      NewLinesOnce(hosts[1..], i, j);
    } else if i > 0 {
      assert NewLines(hosts)[1..] == NewLines(hosts[1..]);
      NewLinesOnce(hosts[1..], i - 1, j - 1);
    } else {
      var x := NewLines(hosts)[j];
      assert NewLines(hosts)[1..] == NewLines(hosts[1..]) && x == NewLines(hosts[1..])[j - 1];
      NewLinesFrom(hosts[1..], x);
      var g :| g in hosts[1..] && Used(g) && x == Line(g);
      LineSplits(g);
      LineSplits(hosts[0]);
      assert g in hosts;
    }
  }

  /** The host's name is on one line of the file and on no other, and that line is its entry. */
  ghost predicate OnOneLine(file: seq<string>, h: Host) {
    exists i :: 0 <= i < |file| && OnlyAt(file, h, i)
  }

  ghost predicate OnlyAt(file: seq<string>, h: Host, i: nat)
    requires i < |file|
  {
    file[i] == Line(h) && forall j :: 0 <= j < |file| ==> (Names(file[j], h.name) <==> j == i)
  }

  lemma NeverKept(lines: seq<string>, hosts: seq<Host>, h: Host)
    requires Words(hosts) && h in hosts && Used(h)
    ensures Line(h) !in Keepers(lines, hosts)
  {
    hide Split, Line, IsWord, Keepers;
    KeepersFrom(lines, hosts);
    LineSplits(h);
    assert Conflicts(Line(h), h);
  }

  lemma UpdatedNamesOnce(lines: seq<string>, hosts: seq<Host>, h: Host)
    requires Words(hosts) && Distinct(hosts) && h in hosts && Used(h)
    ensures OnOneLine(Updated(lines, hosts), h)
  {
    hide Split, Line, IsWord, Keepers, NewLines, Names, Words, Distinct, Used;
    var kept, news := Keepers(lines, hosts), NewLines(hosts);
    var file := kept + news;
    NewLinesFrom(hosts, Line(h));
    NeverKept(lines, hosts, h);
    var n :| 0 <= n < |news| && news[n] == Line(h);
    var i := |kept| + n;
    forall j | 0 <= j < |file|
      ensures Names(file[j], h.name) <==> j == i
    {
      NamedByItsLine(lines, hosts, h, j);
      if file[j] == Line(h) && j != i {
        assert file[j] == news[j - |kept|];
        if j < i {
          NewLinesOnce(hosts, j - |kept|, n);
        } else {
          NewLinesOnce(hosts, n, j - |kept|);
        }
      }
    }
    assert OnlyAt(file, h, i);
  }

  lemma GluedNamesNot(lines: seq<string>, hosts: seq<Host>) returns (h: Host)
    requires Words(hosts) && Distinct(hosts) && NewLines(hosts) != []
    requires var kept := Keepers(lines, hosts); kept != [] && !Terminated(kept[|kept| - 1]) && kept[|kept| - 1] != ""
    ensures h in hosts && Used(h) && Line(h) !in FileAfter(lines, hosts)
  {
    hide Split, Line, IsWord, Keepers, NewLines, Terminated, Words, Distinct, Used;
    var kept, news := Keepers(lines, hosts), NewLines(hosts);
    h := FirstNewLine(hosts);
    NeverKept(lines, hosts, h);
    assert forall x :: x in ButLast(kept) ==> x in kept;
    assert |kept[|kept| - 1] + news[0]| > |news[0]|;
    forall j | 0 < j < |news|
      ensures news[j] != Line(h)
    {
      NewLinesOnce(hosts, 0, j);
    }
  }

  /** The lines that name a host, for such text. */
  lemma EachNameOnceInText(content: string, hosts: seq<Host>)
    requires Words(hosts) && Distinct(hosts)
    ensures var lines := ReadLines(content);
            var file := ReadLines(Concat(Updated(lines, hosts)));
            (forall h :: h in hosts && Used(h) ==> OnOneLine(file, h)) <==> WellEnded(lines, hosts)
  {
    hide Split, Line, IsWord, Keepers, NewLines, ConflictsAny, ReadLines, Concat, Terminated, Used, Words, Distinct;
    var lines := ReadLines(content);
    ReadsAsUpdatedInText(content, hosts);
    if WellEnded(lines, hosts) {
      forall h | h in hosts && Used(h)
        ensures OnOneLine(Updated(lines, hosts), h)
      {
        UpdatedNamesOnce(lines, hosts, h);
      }
    } else {
      ReadLinesShape(content);
      KeepersShape(lines, hosts);
      NewLinesNone(hosts);
      OpenNotEmpty(Keepers(lines, hosts)[|Keepers(lines, hosts)| - 1]);
      var h := GluedNamesNot(lines, hosts);
      assert !OnOneLine(FileAfter(lines, hosts), h);
    }
  }

  // ----- the file as it is stored -----

  lemma {:induction false} ConcatHas(lines: seq<string>, c: char)
    ensures c in Concat(lines) <==> exists x :: x in lines && c in x
  {
    if lines != [] {
      ConcatHas(lines[1..], c);
      assert forall x :: x in lines <==> x == lines[0] || x in lines[1..];
    }
  }

  /** What is written holds no carriage return, so it is read again as it is. */
  lemma WrittenIsPlain(raw: string, hosts: seq<Host>)
    requires Words(hosts)
    ensures TextMode(Rewritten(raw, hosts)) == Rewritten(raw, hosts)
  {
    hide Split, IsWord, Keepers, NewLines, ConflictsAny, ReadLines, Concat, Used;
    var lines := FileLines(raw);
    ReadLinesShape(TextMode(raw));
    ConcatHas(lines, '\r');
    KeepersFrom(lines, hosts);
    forall x | x in NewLines(hosts)
      ensures '\r' !in x
    {
      NewLineIsPlain(hosts, x);
    }
    ConcatHas(Updated(lines, hosts), '\r');
    TextModeKeeps(Rewritten(raw, hosts));
  }

  lemma NewLineIsPlain(hosts: seq<Host>, x: string)
    requires Words(hosts) && x in NewLines(hosts)
    ensures '\r' !in x
  {
    NewLinesFrom(hosts, x);
  }

  /**
   What is written is read back as the updated lines exactly where the file is well ended; otherwise its last line
   has taken in the first new entry.
   */
  lemma ReadsAsUpdated(raw: string, hosts: seq<Host>)
    requires Words(hosts)
    ensures FileLines(Rewritten(raw, hosts)) == FileAfter(FileLines(raw), hosts)
    ensures FileLines(Rewritten(raw, hosts)) == Updated(FileLines(raw), hosts) <==> WellEnded(FileLines(raw), hosts)
  {
    WrittenIsPlain(raw, hosts);
    ReadsAsUpdatedInText(TextMode(raw), hosts);
  }

  /**
   A second update with the same map is the identity exactly where the file was well ended. Otherwise it deletes
   the line that took in a new entry, and with it the entry that was in the file before.
   */
  lemma SecondUpdateIsIdentity(raw: string, hosts: seq<Host>)
    requires Words(hosts) && !Fails(FileLines(raw), hosts)
    ensures var once := Rewritten(raw, hosts);
            var twice := Rewritten(once, hosts);
            && !Fails(FileLines(once), hosts)
            && (twice == once <==> WellEnded(FileLines(raw), hosts))
            && (!WellEnded(FileLines(raw), hosts) ==>
                  twice == Concat(ButLast(Keepers(FileLines(raw), hosts)) + NewLines(hosts)))
  {
    WrittenIsPlain(raw, hosts);
    SecondUpdateIsIdentityInText(TextMode(raw), hosts);
  }

  /**
   In the file as it is read back, every mapped name stands on exactly one line, its new entry, if and only if
   the file was well ended.
   */
  lemma EachNameOnce(raw: string, hosts: seq<Host>)
    requires Words(hosts) && Distinct(hosts)
    ensures (forall h :: h in hosts && Used(h) ==> OnOneLine(FileLines(Rewritten(raw, hosts)), h)) <==>
            WellEnded(FileLines(raw), hosts)
  {
    WrittenIsPlain(raw, hosts);
    EachNameOnceInText(TextMode(raw), hosts);
  }

  /** The first word of the line is the address. */
  predicate Begins(line: string, ip: string) {
    Split(line) != [] && Split(line)[0] == ip
  }

  /** The host's address begins one line of the file and no other, and that line is its entry. */
  ghost predicate AddressOnOneLine(file: seq<string>, h: Host) {
    exists i :: 0 <= i < |file| && AddressOnlyAt(file, h, i)
  }

  ghost predicate AddressOnlyAt(file: seq<string>, h: Host, i: nat)
    requires i < |file|
  {
    file[i] == Line(h) && forall j :: 0 <= j < |file| ==> (Begins(file[j], h.ip) <==> j == i)
  }

  /** Among terminated lines a used address begins no kept line, and of the new ones its own. */
  lemma BeginsItsLine(lines: seq<string>, hosts: seq<Host>, h: Host, x: string)
    requires Words(hosts) && Distinct(hosts) && h in hosts && Used(h)
    requires x in Keepers(lines, hosts) ==> Terminated(x)
    requires x in Updated(lines, hosts)
    ensures Begins(x, h.ip) <==> x == Line(h)
  {
    hide Split, Line, IsWord, Keepers, NewLines;
    LineSplits(h);
    KeepersFrom(lines, hosts);
    if x in Keepers(lines, hosts) {
      assert !Conflicts(x, h) && Conflicts(Line(h), h);
      if |x| < 2 {
        assert x == "\n";
        SplitNewline();
      }
    } else {
      NewLinesFrom(hosts, x);
      var g :| g in hosts && Used(g) && x == Line(g);
      LineSplits(g);
    }
  }

  lemma UpdatedAddressesOnce(lines: seq<string>, hosts: seq<Host>, h: Host)
    requires Words(hosts) && Distinct(hosts) && h in hosts && Used(h)
    requires forall x :: x in Keepers(lines, hosts) ==> Terminated(x)
    ensures AddressOnOneLine(Updated(lines, hosts), h)
  {
    hide Split, Line, IsWord, Keepers, NewLines, Begins, Words, Distinct, Used, Terminated;
    var file := Updated(lines, hosts);
    UpdatedNamesOnce(lines, hosts, h);
    var i :| 0 <= i < |file| && OnlyAt(file, h, i);
    forall j | 0 <= j < |file|
      ensures Begins(file[j], h.ip) <==> j == i
    {
      BeginsItsLine(lines, hosts, h, file[j]);
      LineNamesHost(h, hosts);
    }
    assert AddressOnlyAt(file, h, i);
  }

  lemma LineNamesHost(h: Host, hosts: seq<Host>)
    requires Words(hosts) && h in hosts && Used(h)
    ensures Names(Line(h), h.name)
  {
    hide Split, Line, IsWord;
    LineSplits(h);
  }

  lemma WellEndedIsTerminated(content: string, hosts: seq<Host>, h: Host)
    requires WellEnded(ReadLines(content), hosts) && h in hosts && Used(h)
    ensures forall x :: x in Keepers(ReadLines(content), hosts) ==> Terminated(x)
  {
    hide Keepers, ReadLines, ConflictsAny, Terminated;
    ReadLinesShape(content);
    KeepersShape(ReadLines(content), hosts);
  }

  /** In the file read back every mapped address begins exactly one line, its entry, under the same condition. */
  lemma EachAddressOnce(raw: string, hosts: seq<Host>)
    requires Words(hosts) && Distinct(hosts)
    ensures (forall h :: h in hosts && Used(h) ==> AddressOnOneLine(FileLines(Rewritten(raw, hosts)), h)) <==>
            WellEnded(FileLines(raw), hosts)
  {
    hide Split, Line, IsWord, Keepers, NewLines, ConflictsAny, ReadLines, Concat, Terminated, Used, Words, Distinct;
    var lines := FileLines(raw);
    ReadsAsUpdated(raw, hosts);
    if WellEnded(lines, hosts) {
      forall h | h in hosts && Used(h)
        ensures AddressOnOneLine(Updated(lines, hosts), h)
      {
        WellEndedIsTerminated(TextMode(raw), hosts, h);
        UpdatedAddressesOnce(lines, hosts, h);
      }
    } else {
      ReadLinesShape(TextMode(raw));
      KeepersShape(lines, hosts);
      NewLinesNone(hosts);
      OpenNotEmpty(Keepers(lines, hosts)[|Keepers(lines, hosts)| - 1]);
      var h := GluedNamesNot(lines, hosts);
      assert !AddressOnOneLine(FileAfter(lines, hosts), h);
    }
  }

  /** A line is kept exactly where no entry with an address and a name finds its address or its name on it. */
  lemma KeptExactly(lines: seq<string>, hosts: seq<Host>, x: string)
    ensures x in Keepers(lines, hosts) <==>
            x in lines && forall h :: h in hosts && h.ip != "" && h.name != "" ==>
              |x| < 2 || Split(x) == [] || (Split(x)[0] != h.ip && h.name !in Split(x)[1..])
  {
    hide Split;
    KeepersFrom(lines, hosts);
  }

  /** The update fails exactly where there is an entry to write and a line of two or more blanks. */
  lemma FailsExactly(lines: seq<string>, hosts: seq<Host>)
    ensures Fails(lines, hosts) <==>
            && (exists h :: h in hosts && h.ip != "" && h.name != "")
            && (exists x :: x in lines && |x| >= 2 && forall c :: c in x ==> IsSpace(c))
  {
    forall x | x in lines
      ensures Split(x) == [] <==> forall c :: c in x ==> IsSpace(c)
    {
      SplitSomething(x);
      SplitBlanks(x);
    }
  }

  lemma {:induction false} SplitBlanks(s: string)
    ensures (forall c :: c in s ==> IsSpace(c)) ==> Split(s) == []
  {
    if s != "" && forall c :: c in s ==> IsSpace(c) {
      assert s[0] in s && forall c :: c in s[1..] ==> c in s;
      SplitBlanks(s[1..]);
    }
  }

  // ----- for instance -----

  lemma LineWithoutNewline(ip: string, name: string)
    requires IsWord(ip) && IsWord(name)
    ensures FileLines(ip + " " + name) == [ip + " " + name] && Open(ip + " " + name)
    ensures Split(ip + " " + name) == [ip, name]
  {
    hide Split, ReadLines, Concat;
    var line := ip + " " + name;
    assert '\r' !in line && '\n' !in line by {
      assert forall c :: c in line ==> c in ip || c == ' ' || c in name;
    }
    TextModeKeeps(line);
    ConcatOfNone();
    assert line + "" == line;
    ReadOpen(line, []);
    assert line == ip + (" " + name) && " " + name == [' '] + name && name == name + "";
    SplitWord(ip, " " + name);
    SplitSpace(' ', name);
    SplitWord(name, "");
    SplitEmpty();
  }

  lemma ConcatOfNone()
    ensures Concat([]) == ""
  {
  }

  /** A file of one line without its newline: the new entry is glued to it, and a second update removes both. */
  lemma UnterminatedLineIsGlued(ip: string, name: string, h: Host)
    requires IsWord(ip) && IsWord(name) && IsWord(h.ip) && IsWord(h.name) && ip != h.ip && name != h.name
    ensures var raw := ip + " " + name;
            && !WellEnded(FileLines(raw), [h])
            && Rewritten(raw, [h]) == ip + " " + name + h.ip + " " + h.name + "\n"
            && Rewritten(Rewritten(raw, [h]), [h]) == h.ip + " " + h.name + "\n"
  {
    hide Split, IsWord, FileLines;
    var line := ip + " " + name;
    LineWithoutNewline(ip, name);
    assert h in [h] && Used(h) && Words([h]) by {
      UsedWord(h);
    }
    assert !Conflicts(line, h) && !ConflictsAny(line, [h]) && !Terminated(line) && !Blank(line);
    assert Keepers([line], [h]) == [line] + Keepers([], [h]);
    assert NewLines([h]) == [Line(h)] + NewLines([]);
    assert Updated([line], [h]) == [line, Line(h)];
    ConcatAppend([line], [Line(h)]);
    ConcatOne(line);
    ConcatOne(Line(h));
    SecondUpdateIsIdentity(line, [h]);
    assert ButLast([line]) + [Line(h)] == [Line(h)];
  }

  lemma UsedWord(h: Host)
    requires IsWord(h.ip) && IsWord(h.name)
    ensures Used(h) && Words([h])
  {
  }

  /** A file with a line of blanks: the IndexError. */
  lemma BlankLineExample()
    ensures Fails(FileLines("  \n"), [Host("10.0.0.2", "rabbit")])
  {
    var h := Host("10.0.0.2", "rabbit");
    var line := "  \n";
    TextModeKeeps(line);
    ReadBack([line]);
    ConcatOne(line);
    assert line[..2] == "  ";
    SplitSpace(' ', " \n");
    SplitSpace(' ', "\n");
    SplitNewline();
    assert line == [' '] + " \n" && " \n" == [' '] + "\n";
    assert Blank(line) && line in [line] && h in [h] && Used(h);
  }

  lemma SplitEmpty()
    ensures Split("") == []
  {
  }
}
