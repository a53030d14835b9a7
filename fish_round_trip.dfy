/** The fish worker prints its list in the numbered format the backend
    scrapes; these lemmas show the scrape recovers exactly the list the worker
    cleaned, and that the worker's "no data" text becomes an empty list. */
module FishRoundTrip {
  import opened PyStr
  import opened PyJson
  import opened Fishy
  import opened FishParser
  import opened RunScript

  /** A name `get_top_fish` can produce. */
  predicate CleanName(f: string) {
    f != "" && IsStripped(f) && '\n' !in f
  }

  /** Formatting a non-empty list of clean names and scraping the text back
      gives the same list, in the same order. */
  lemma {:induction false} ReportParsesBack(fish: seq<string>)
    requires fish != []
    requires forall k :: 0 <= k < |fish| ==> CleanName(fish[k])
    ensures ParseFishText(Printed(ReportLines(fish))) == FishList(fish)
  {
    var lines := ReportLines(fish);
    ReportLinesFit(fish);
    PrintedLinesSplit(lines);
    ReportLinesShape(fish);
    HeaderKeepsOut();
    FirstNumberedOpens(fish[0]);
    assert FirstListLine(lines) == Some(1);
    assert lines[1..] == Numbered(fish, 1);
    NamesOfNumbered(fish, 1);
  }

  lemma ReportLinesFit(fish: seq<string>)
    requires fish != []
    requires forall k :: 0 <= k < |fish| ==> CleanName(fish[k])
    ensures forall k :: 0 <= k < |ReportLines(fish)| ==> LineFit(ReportLines(fish)[k])
  {
    ReportLinesShape(fish);
    forall k | 0 <= k < |ReportLines(fish)| ensures LineFit(ReportLines(fish)[k]) {
      if k > 0 { NumberedLineFit(k, fish[k - 1]); }
    }
  }

  /** The header line does not open the list. */
  lemma HeaderKeepsOut()
    ensures !OpensList(Header)
  {
    StripFirstChar(Header);
  }

  /** The line numbered 1 opens the list. */
  lemma FirstNumberedOpens(f: string)
    requires CleanName(f)
    ensures OpensList(NumberedLine(1, f))
  {
    var line := NumberedLine(1, f);
    NumberedLineFit(1, f);
    StripPadded([], line, []);
    assert [] + line + [] == line;
    assert Decimal(1) == "1";
    assert line[..2] == "1.";
  }

  /** The whole path: whatever reply the model gave, if it had at least one
      non-blank line and no cleaned name holds a carriage return, the
      endpoint's parse of the worker's stdout, as the text-mode capture hands
      it over, is exactly the list `get_top_fish` built. */
  lemma WorkerToEndpoint(reply: string)
    requires TopFish(Replied(reply)) != []
    requires forall k :: 0 <= k < |CleanReply(reply)| ==> '\r' !in CleanReply(reply)[k]
    ensures ParseFishText(UniversalNewlines(Printed(ErrorLines(Replied(reply)) + ReportLines(TopFish(Replied(reply))))))
         == FishList(CleanReply(reply))
  {
    var fish := CleanReply(reply);
    assert ErrorLines(Replied(reply)) + ReportLines(TopFish(Replied(reply))) == ReportLines(fish);
    ReportLinesAvoidReturn(fish);
    PrintedAvoids(ReportLines(fish), '\r');
    ReportParsesBack(fish);
  }

  /** An empty list prints the no-data line, which the backend turns into an
      empty fish list; the same holds when the call raised (its error line
      is printed first) as long as the error text is a single line without
      a carriage return. */
  lemma {:induction false} NoDataParsesBack(reply: Reply)
    requires TopFish(reply) == []
    requires reply.Raised? ==> '\n' !in reply.message && '\r' !in reply.message
    ensures ParseFishText(UniversalNewlines(Printed(ErrorLines(reply) + ReportLines(TopFish(reply))))) == NoFishData
  {
    var lines := ErrorLines(reply) + [NoData];
    assert ReportLines(TopFish(reply)) == [NoData];
    NoDataLinesAvoidReturn(reply);
    PrintedAvoids(lines, '\r');
    NoDataLinesSplit(reply);
    NoDataLinesKeepOut(reply);
    assert FirstListLine(lines) == None;
    NoDataMarkerPrinted(ErrorLines(reply));
  }

  /** Why `WorkerToEndpoint` excludes carriage returns: a reply line
      `a + "\r" + b` (say `"Bass\rTrout"`) is one name to the worker, but the
      capture turns its carriage return into a line break, and the backend
      scrapes `a` alone. */
  lemma CarriageReturnSplitsName(a: string, b: string)
    requires CleanName(a) && CleanName(b) && '\r' !in a && '\r' !in b && '.' !in b
    ensures CleanReply(a + "\r" + b) == [a + "\r" + b]
    ensures ParseFishText(UniversalNewlines(Printed(ReportLines([a + "\r" + b])))) == FishList([a])
  {
    CarriageReturnKept(a, b);
    CarriageReturnCapture(a, b);
    CapturedLinesParse(a, b);
  }

  /** The worker keeps a carriage return inside a line as part of the name. */
  lemma CarriageReturnKept(a: string, b: string)
    requires CleanName(a) && CleanName(b)
    ensures CleanReply(a + "\r" + b) == [a + "\r" + b]
  {
    var name := a + "\r" + b;
    assert name[0] == a[0] && name[|name| - 1] == b[|b| - 1];
    assert '\n' !in name;
    assert Join([name], '\n') == name;
    CleanReplyOfClean([name]);
  }

  /** The capture of the report for `a + "\r" + b` reads as three lines. */
  lemma CarriageReturnCapture(a: string, b: string)
    requires '\r' !in a && '\r' !in b && '\n' !in b && b != []
    ensures UniversalNewlines(Printed(ReportLines([a + "\r" + b])))
         == Printed([Header, NumberedLine(1, a), b])
  {
    var name := a + "\r" + b;
    var first := NumberedLine(1, a);
    var front := Header + "\n" + first;
    var back := b + "\n";
    calc {
      UniversalNewlines(Printed(ReportLines([name])));
      { ReportOfOne(name); PrintedTwo(Header, NumberedLine(1, name)); }
      UniversalNewlines(Header + "\n" + NumberedLine(1, name) + "\n");
      { NumberedWithReturn(a, b); }
      UniversalNewlines(front + "\r" + back);
      { ConstantsAvoidReturn();
        CarriageReturnEndsLine(front, back);
        assert back[0] == b[0] != '\n'; }
      front + "\n" + UniversalNewlines(back);
      front + "\n" + back;
      { PrintedThree(Header, first, b); }
      Printed([Header, first, b]);
    }
  }

  lemma ReportOfOne(name: string)
    ensures ReportLines([name]) == [Header, NumberedLine(1, name)]
  {
    assert [name][..0] == [];
  }

  lemma NumberedWithReturn(a: string, b: string)
    ensures Header + "\n" + NumberedLine(1, a + "\r" + b) + "\n"
         == (Header + "\n" + NumberedLine(1, a)) + "\r" + (b + "\n")
  {
    var d := Decimal(1);
    assert NumberedLine(1, a + "\r" + b) == d + ". " + (a + "\r" + b);
    assert NumberedLine(1, a) == d + ". " + a;
  }

  /** The worker's fixed texts hold no carriage return. */
  lemma ConstantsAvoidReturn()
    ensures '\r' !in Header && '\r' !in NoData && '\r' !in ErrorPrefix
  {
    HeaderAvoidsReturn();
    NoDataAvoidsReturn();
    ErrorPrefixAvoidsReturn();
  }

  lemma HeaderAvoidsReturn()
    ensures '\r' !in Header
  {}

  lemma NoDataAvoidsReturn()
    ensures '\r' !in NoData
  {}

  lemma ErrorPrefixAvoidsReturn()
    ensures '\r' !in ErrorPrefix
  {}

  lemma PrintedTwo(x: string, y: string)
    ensures Printed([x, y]) == x + "\n" + y + "\n"
  {
    assert [x, y][..1] == [x];
    assert [x][..0] == [];
    assert Printed([x]) == x + "\n";
  }

  lemma PrintedThree(x: string, y: string, z: string)
    ensures Printed([x, y, z]) == x + "\n" + y + "\n" + z + "\n"
  {
    assert [x, y, z][..2] == [x, y];
    PrintedTwo(x, y);
  }

  /** The captured lines scrape to the part before the carriage return. */
  lemma CapturedLinesParse(a: string, b: string)
    requires CleanName(a) && CleanName(b) && '.' !in b
    ensures ParseFishText(Printed([Header, NumberedLine(1, a), b])) == FishList([a])
  {
    var first := NumberedLine(1, a);
    var captured := [Header, first, b];
    NumberedLineFit(1, a);
    HeaderFit();
    PrintedLinesSplit(captured);
    HeaderKeepsOut();
    FirstNumberedOpens(a);
    assert FirstListLine(captured) == Some(1);
    NameOfLine(first, 1, a);
    assert captured[1..] == [first, b];
    assert [first, b][..1] == [first];
    assert [first][..0] == [];
    assert NamesAfterDots([first]) == [a];
    assert NamesAfterDots([first, b]) == [a];
  }

  lemma HeaderFit()
    ensures LineFit(Header)
  {}

  /** A report of names without carriage returns has none in any line. */
  lemma ReportLinesAvoidReturn(fish: seq<string>)
    requires forall k :: 0 <= k < |fish| ==> '\r' !in fish[k]
    ensures forall k :: 0 <= k < |ReportLines(fish)| ==> '\r' !in ReportLines(fish)[k]
  {
    ReportLinesShape(fish);
    ConstantsAvoidReturn();
    forall k | 0 <= k < |ReportLines(fish)| ensures '\r' !in ReportLines(fish)[k] {
      if k > 0 {
        var d := Decimal(k);
        assert NumberedLine(k, fish[k - 1]) == d + ". " + fish[k - 1];
        assert '\r' !in d;
      }
    }
  }

  /** The no-data output holds no carriage return when the error text holds none. */
  lemma NoDataLinesAvoidReturn(reply: Reply)
    requires reply.Raised? ==> '\r' !in reply.message
    ensures forall k :: 0 <= k < |ErrorLines(reply) + [NoData]| ==> '\r' !in (ErrorLines(reply) + [NoData])[k]
  {
    ConstantsAvoidReturn();
    if reply.Raised? {
      assert ErrorLines(reply) + [NoData] == [ErrorPrefix + reply.message, NoData];
    } else {
      assert ErrorLines(reply) + [NoData] == [NoData];
    }
  }

  /** Printing lines that avoid a character other than the newline writes a
      text that avoids it too. */
  lemma {:induction false} PrintedAvoids(lines: seq<string>, c: char)
    requires c != '\n'
    requires forall k :: 0 <= k < |lines| ==> c !in lines[k]
    ensures c !in Printed(lines)
    decreases |lines|
  {
    if lines != [] {
      PrintedAvoids(lines[..|lines| - 1], c);
    }
  }

  /** The facts about the no-data line that the scrape depends on. */
  lemma NoDataFacts()
    ensures NoData != [] && NoData[0] == 'N' && NoData[|NoData| - 1] == '.'
    ensures '\n' !in NoData
    ensures |NoDataMarker| <= |NoData| && NoData[..|NoDataMarker|] == NoDataMarker
  {
    assert forall k :: 0 <= k < |NoData| ==> NoData[k] != '\n';
  }

  lemma NoDataLinesSplit(reply: Reply)
    requires reply.Raised? ==> '\n' !in reply.message
    ensures Split(Strip(Printed(ErrorLines(reply) + [NoData])), '\n') == ErrorLines(reply) + [NoData]
  {
    var lines := ErrorLines(reply) + [NoData];
    NoDataFacts();
    assert lines[|lines| - 1] == NoData;
    if reply.Raised? {
      var first := ErrorPrefix + reply.message;
      assert lines == [first, NoData];
      assert first[0] == 'E';
      assert '\n' !in ErrorPrefix by {
        assert forall k :: 0 <= k < |ErrorPrefix| ==> ErrorPrefix[k] != '\n';
      }
      assert '\n' !in first;
    } else {
      assert lines == [NoData];
    }
    PrintedLinesSplit(lines);
  }

  lemma NoDataLinesKeepOut(reply: Reply)
    ensures forall k :: 0 <= k < |ErrorLines(reply) + [NoData]| ==> !OpensList((ErrorLines(reply) + [NoData])[k])
  {
    var lines := ErrorLines(reply) + [NoData];
    NoDataFacts();
    assert ErrorPrefix[0] == 'E';
    forall k | 0 <= k < |lines| ensures !OpensList(lines[k]) {
      assert lines[k][0] == 'E' || lines[k][0] == 'N';
      StripFirstChar(lines[k]);
    }
  }

  lemma NoDataMarkerPrinted(before: seq<string>)
    ensures Contains(Printed(before + [NoData]), NoDataMarker)
  {
    PrintedSnoc(before, NoData);
    NoDataFacts();
    var p := Printed(before);
    var s := p + NoData + "\n";
    assert s[|p|..|p| + |NoDataMarker|] == NoData[..|NoDataMarker|];
    ContainsAt(s, NoDataMarker, |p|);
  }

  /** A line that is one line of text with no space at either end. */
  predicate LineFit(line: string) {
    line != [] && !IsSpace(line[0]) && !IsSpace(line[|line| - 1]) && '\n' !in line
  }

  lemma NumberedLineFit(i: nat, f: string)
    requires CleanName(f)
    ensures LineFit(NumberedLine(i, f))
  {
    var d := Decimal(i);
    assert NumberedLine(i, f)[0] == d[0];
    assert NumberedLine(i, f)[|NumberedLine(i, f)| - 1] == f[|f| - 1];
    assert forall k :: 0 <= k < |d| ==> d[k] != '\n';
  }

  /** A text that starts with a non-space keeps its first character when stripped. */
  lemma StripFirstChar(s: string)
    requires s != [] && !IsSpace(s[0])
    ensures Strip(s) != [] && Strip(s)[0] == s[0]
  {
    StripIsTrim(s);
    var i, j :| 0 <= i <= j <= |s| && Strip(s) == s[i..j] && AllSpace(s[..i]) && AllSpace(s[j..]);
  }

  /** The backend's `output.strip().split('\n')` of printed lines that fit
      is those lines. */
  lemma PrintedLinesSplit(lines: seq<string>)
    requires |lines| > 0 && lines[0] != [] && lines[|lines| - 1] != []
    requires !IsSpace(lines[0][0]) && !IsSpace(lines[|lines| - 1][|lines[|lines| - 1]| - 1])
    requires forall k :: 0 <= k < |lines| ==> '\n' !in lines[k]
    ensures Split(Strip(Printed(lines)), '\n') == lines
  {
    StripPrinted(lines);
    SplitJoin(lines, '\n');
  }

  lemma StripPrinted(lines: seq<string>)
    requires |lines| > 0 && lines[0] != [] && lines[|lines| - 1] != []
    requires !IsSpace(lines[0][0]) && !IsSpace(lines[|lines| - 1][|lines[|lines| - 1]| - 1])
    ensures Strip(Printed(lines)) == Join(lines, '\n')
  {
    PrintedIsJoin(lines);
    JoinEnds(lines, '\n');
    StripNewline(Join(lines, '\n'));
  }

  lemma StripNewline(text: string)
    requires IsStripped(text)
    ensures Strip(text + "\n") == text
  {
    assert AllSpace("\n");
    StripPadded([], text, "\n");
    assert [] + text + "\n" == text + "\n";
  }

  lemma {:induction false} JoinEnds(parts: seq<string>, sep: char)
    requires |parts| > 0 && parts[0] != [] && parts[|parts| - 1] != []
    ensures Join(parts, sep) != []
    ensures Join(parts, sep)[0] == parts[0][0]
    ensures Join(parts, sep)[|Join(parts, sep)| - 1] == parts[|parts| - 1][|parts[|parts| - 1]| - 1]
  {
    if |parts| > 1 {
      var rest := parts[1..];
      if |rest| > 1 || rest[0] != [] {
        assert rest[|rest| - 1] == parts[|parts| - 1];
        if rest[0] != [] {
          JoinEnds(rest, sep);
        } else {
          JoinLast(rest, sep);
        }
      }
    }
  }

  lemma {:induction false} JoinLast(parts: seq<string>, sep: char)
    requires |parts| > 0 && parts[|parts| - 1] != []
    ensures Join(parts, sep) != []
    ensures Join(parts, sep)[|Join(parts, sep)| - 1] == parts[|parts| - 1][|parts[|parts| - 1]| - 1]
  {
    if |parts| > 1 {
      assert parts[1..][|parts| - 2] == parts[|parts| - 1];
      JoinLast(parts[1..], sep);
    }
  }

  /** Each numbered line gives back its name: the text after the first `.`
      is a space and the name, which stripping returns. */
  lemma NameOfLine(line: string, i: nat, f: string)
    requires CleanName(f) && line == NumberedLine(i, f)
    ensures '.' in line
    ensures Strip(AfterFirst(line, '.')) == f
  {
    var d := Decimal(i);
    assert line == d + ". " + f;
    assert line[|d|] == '.';
    assert line[..|d|] == d;
    assert '.' !in d by {
      assert forall k :: 0 <= k < |d| ==> d[k] != '.';
    }
    IndexOfFirst(line, '.', |d|);
    assert line[|d| + 1..] == " " + f;
    SpaceThenName(f);
  }

  lemma SpaceThenName(f: string)
    requires CleanName(f)
    ensures Strip(" " + f) == f
  {
    assert AllSpace(" ");
    StripPadded(" ", f, []);
    assert " " + f + [] == " " + f;
  }

  lemma NamesOfNumbered(fish: seq<string>, start: nat)
    requires forall k :: 0 <= k < |fish| ==> CleanName(fish[k])
    ensures NamesAfterDots(Numbered(fish, start)) == fish
  {
    NumberedNames(fish, start);
    NamesOfLines(Numbered(fish, start), fish);
  }

  /** Each numbered line gives back the name at its position. */
  lemma NumberedNames(fish: seq<string>, start: nat)
    requires forall k :: 0 <= k < |fish| ==> CleanName(fish[k])
    ensures forall k :: 0 <= k < |fish| ==>
              '.' in Numbered(fish, start)[k] && Strip(AfterFirst(Numbered(fish, start)[k], '.')) == fish[k]
  {
    var lines := Numbered(fish, start);
    forall k | 0 <= k < |fish|
      ensures '.' in lines[k] && Strip(AfterFirst(lines[k], '.')) == fish[k]
    {
      NumberedAt(fish, start, k);
      NameOfLine(lines[k], start + k, fish[k]);
    }
  }

  /** Lines that each give back one name scrape to those names, in order. */
  lemma {:induction false} NamesOfLines(lines: seq<string>, names: seq<string>)
    requires |lines| == |names|
    requires forall k :: 0 <= k < |lines| ==> '.' in lines[k] && Strip(AfterFirst(lines[k], '.')) == names[k]
    ensures NamesAfterDots(lines) == names
    decreases |lines|
  {
    if lines != [] {
      var n := |lines| - 1;
      NamesOfLines(lines[..n], names[..n]);
      assert names == names[..n] + [names[n]];
    }
  }


}
