/** The fish-listing worker: `get_top_fish` cleans the generative model's
    reply into a list of names, and the `__main__` block prints that list as
    a header followed by numbered lines, or a fixed "no data" line. */
module Fishy {
  import opened PyStr

  /** What the text-generation call did: a reply text, or an exception. */
  datatype Reply = Replied(result: string) | Raised(message: string)

  const Header: string := "Top 5 fish in your area:"
  const NoData: string := "No fish data available for your area."
  const ErrorPrefix: string := "Error fetching data from Google GenAI API: "

  /** `[fish.strip() for fish in lines if fish.strip()]` */
  function CleanLines(lines: seq<string>): (fish: seq<string>)
    ensures |fish| <= |lines|
    ensures forall k :: 0 <= k < |fish| ==> fish[k] != "" && IsStripped(fish[k])
  {
    if lines == [] then []
    else
      StripIsTrim(lines[0]);
      (if Strip(lines[0]) != "" then [Strip(lines[0])] else []) + CleanLines(lines[1..])
  }

  /** The list `get_top_fish` builds from a reply text: one entry per line
      that is not blank, stripped, in the order of the lines. */
  function CleanReply(text: string): (fish: seq<string>)
    ensures forall k :: 0 <= k < |fish| ==> fish[k] != "" && IsStripped(fish[k]) && '\n' !in fish[k]
  {
    var lines := Split(text, '\n');
    CleanLinesAvoid(lines, '\n');
    CleanLines(lines)
  }

  lemma {:induction false} CleanLinesAvoid(lines: seq<string>, c: char)
    requires forall k :: 0 <= k < |lines| ==> c !in lines[k]
    ensures forall k :: 0 <= k < |CleanLines(lines)| ==> c !in CleanLines(lines)[k]
  {
    if lines != [] {
      StripIsTrim(lines[0]);
      CleanLinesAvoid(lines[1..], c);
    }
  }

  /** `get_top_fish`: the cleaned reply, or the empty list when the call raised. */
  function TopFish(reply: Reply): (fish: seq<string>)
    ensures reply.Raised? ==> fish == []
  {
    match reply
    case Replied(text) => CleanReply(text)
    case Raised(_) => []
  }

  /** A line is blank when stripping leaves nothing. */
  lemma StripEmptyIff(s: string)
    ensures Strip(s) == "" <==> AllSpace(s)
  {
    StripIsTrim(s);
    if AllSpace(s) {
      LStripAllSpace(s);
      RStripAllSpace([]);
    }
  }

  /** Cleaning is line by line: the lines of `a + b` clean to the cleaned
      lines of `a` followed by those of `b`, so order is kept. */
  lemma {:induction false} CleanLinesAppend(a: seq<string>, b: seq<string>)
    ensures CleanLines(a + b) == CleanLines(a) + CleanLines(b)
  {
    if a != [] {
      assert (a + b)[0] == a[0];
      assert (a + b)[1..] == a[1..] + b;
      CleanLinesAppend(a[1..], b);
    } else {
      assert a + b == b;
    }
  }

  /** One line cleans to nothing when it is blank and to its stripped self otherwise. */
  lemma CleanOneLine(line: string)
    ensures AllSpace(line) ==> CleanLines([line]) == []
    ensures !AllSpace(line) ==> CleanLines([line]) == [Strip(line)]
  {
    StripEmptyIff(line);
    assert [line][1..] == [];
  }

  /** Lines that are already clean are kept exactly: cleaning the joined
      list gives the list back, so cleaning its own output changes nothing. */
  lemma {:induction false} CleanReplyOfClean(fish: seq<string>)
    requires |fish| > 0
    requires forall k :: 0 <= k < |fish| ==> fish[k] != "" && IsStripped(fish[k]) && '\n' !in fish[k]
    ensures CleanReply(Join(fish, '\n')) == fish
  {
    SplitJoin(fish, '\n');
    CleanLinesOfClean(fish);
  }

  lemma {:induction false} CleanLinesOfClean(fish: seq<string>)
    requires forall k :: 0 <= k < |fish| ==> fish[k] != "" && IsStripped(fish[k])
    ensures CleanLines(fish) == fish
  {
    if fish != [] {
      StripPadded([], fish[0], []);
      assert [] + fish[0] + [] == fish[0];
      CleanLinesOfClean(fish[1..]);
    }
  }

  /** `f"{i}. {fish}"` */
  function NumberedLine(i: nat, name: string): string {
    Decimal(i) + ". " + name
  }

  /** The numbered lines for `fish`, the first one numbered `start`. */
  function Numbered(fish: seq<string>, start: nat): (lines: seq<string>)
    ensures |lines| == |fish|
    decreases |fish|
  {
    if fish == [] then [] else Numbered(fish[..|fish| - 1], start) + [NumberedLine(start + |fish| - 1, fish[|fish| - 1])]
  }

  /** The lines `__main__` prints for a fish list. */
  function ReportLines(fish: seq<string>): (lines: seq<string>)
    ensures |lines| == |fish| + 1
    ensures lines[0] == if fish == [] then NoData else Header
  {
    if fish == [] then [NoData] else [Header] + Numbered(fish, 1)
  }

  /** A report is the header and exactly one line `"i. name"` per fish,
      numbered from 1 in list order; an empty list gives the no-data line alone. */
  lemma ReportLinesShape(fish: seq<string>)
    ensures fish == [] ==> ReportLines(fish) == [NoData]
    ensures fish != [] ==> |ReportLines(fish)| == |fish| + 1 && ReportLines(fish)[0] == Header
    ensures forall k :: 0 <= k < |fish| ==> ReportLines(fish)[k + 1] == NumberedLine(k + 1, fish[k])
  {
    if fish != [] {
      var lines := Numbered(fish, 1);
      assert ReportLines(fish) == [Header] + lines;
      forall k | 0 <= k < |fish| ensures ReportLines(fish)[k + 1] == NumberedLine(k + 1, fish[k]) {
        assert ([Header] + lines)[k + 1] == lines[k];
        NumberedAt(fish, 1, k);
      }
    }
  }

  lemma {:induction false} NumberedAt(fish: seq<string>, start: nat, k: nat)
    requires k < |fish|
    ensures Numbered(fish, start)[k] == NumberedLine(start + k, fish[k])
    decreases |fish|
  {
    if k < |fish| - 1 {
      NumberedAt(fish[..|fish| - 1], start, k);
    }
  }

  /** What `print` writes for a sequence of lines: each line and a newline. */
  function Printed(lines: seq<string>): (out: string)
    ensures |out| >= |lines|
    ensures lines != [] ==> out[|out| - 1] == '\n'
    decreases |lines|
  {
    if lines == [] then "" else Printed(lines[..|lines| - 1]) + lines[|lines| - 1] + "\n"
  }

  lemma {:induction false} PrintedIsJoin(lines: seq<string>)
    requires |lines| > 0
    ensures Printed(lines) == Join(lines, '\n') + "\n"
    decreases |lines|
  {
    if |lines| > 1 {
      var init := lines[..|lines| - 1];
      assert lines == init + [lines[|lines| - 1]];
      PrintedIsJoin(init);
      JoinSnoc(init, lines[|lines| - 1], '\n');
    } else {
      assert lines[..0] == [];
    }
  }

  lemma {:induction false} JoinSnoc(parts: seq<string>, last: string, sep: char)
    requires |parts| > 0
    ensures Join(parts + [last], sep) == Join(parts, sep) + [sep] + last
  {
    if |parts| == 1 {
      assert (parts + [last])[1..] == [last];
    } else {
      assert (parts + [last])[1..] == parts[1..] + [last];
      JoinSnoc(parts[1..], last, sep);
    }
  }

  lemma PrintedSnoc(lines: seq<string>, line: string)
    ensures Printed(lines + [line]) == Printed(lines) + line + "\n"
  {
    assert (lines + [line])[..|lines|] == lines;
  }

  lemma NumberedSnoc(fish: seq<string>, i: nat)
    requires i < |fish|
    ensures Numbered(fish[..i + 1], 1) == Numbered(fish[..i], 1) + [NumberedLine(i + 1, fish[i])]
  {
    assert fish[..i + 1][..i] == fish[..i];
  }

  /** Printing two runs of lines one after the other writes their texts one
      after the other. */
  lemma {:induction false} PrintedAppend(a: seq<string>, b: seq<string>)
    ensures Printed(a + b) == Printed(a) + Printed(b)
    decreases |b|
  {
    if b != [] {
      var init := b[..|b| - 1];
      var last := b[|b| - 1];
      assert b == init + [last];
      assert a + b == (a + init) + [last];
      PrintedAppend(a, init);
      PrintedSnoc(a + init, last);
      PrintedSnoc(init, last);
    } else {
      assert a + b == a;
    }
  }

  /** The `for` loop of the `__main__` block: one numbered line per fish. */
  method PrintNumbered(fish: seq<string>) returns (out: string)
    ensures out == Printed(Numbered(fish, 1))
  {
    out := "";
    for i := 0 to |fish|
      invariant out == Printed(Numbered(fish[..i], 1))
    {
      var line := NumberedLine(i + 1, fish[i]);
      NumberedSnoc(fish, i);
      PrintedSnoc(Numbered(fish[..i], 1), line);
      out := out + line + "\n";
    }
    assert fish[..|fish|] == fish;
  }

  /** The `__main__` block: prints the error line when the call raised, then
      the report, line by line; the result is everything written to stdout. */
  method RunMain(reply: Reply) returns (stdout: string)
    ensures stdout == Printed(ErrorLines(reply) + ReportLines(TopFish(reply)))
  {
    var fish := TopFish(reply);
    stdout := "";
    if reply.Raised? {
      stdout := ErrorPrefix + reply.message + "\n";
      PrintedSnoc([], ErrorPrefix + reply.message);
    }
    assert stdout == Printed(ErrorLines(reply));
    if fish != [] {
      var numbered := PrintNumbered(fish);
      PrintedSnoc(ErrorLines(reply), Header);
      stdout := stdout + Header + "\n" + numbered;
      PrintedAppend(ErrorLines(reply) + [Header], Numbered(fish, 1));
      assert ErrorLines(reply) + ReportLines(fish) == (ErrorLines(reply) + [Header]) + Numbered(fish, 1);
    } else {
      PrintedSnoc(ErrorLines(reply), NoData);
      stdout := stdout + NoData + "\n";
    }
  }

  /** The error line `get_top_fish` prints to stdout when the call raised. */
  function ErrorLines(reply: Reply): seq<string> {
    if reply.Raised? then [ErrorPrefix + reply.message] else []
  }
}
