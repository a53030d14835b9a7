/** The `/api/fishy` endpoint: it runs the fish worker and scrapes its
    stdout back into a list of species names. */
module FishParser {
  import opened PyStr
  import opened PyJson
  import opened Http
  import opened RunScript

  const NoDataMarker: string := "No fish data available"

  /** `line.strip().startswith("1.")`: the line that opens the numbered list. */
  predicate OpensList(line: string) {
    StartsWith(Strip(line), "1.")
  }

  /** Index of the first line that opens the list, if any. */
  function FirstListLine(lines: seq<string>): (r: Option<nat>)
    ensures r.None? <==> forall k :: 0 <= k < |lines| ==> !OpensList(lines[k])
    ensures r.Some? ==> r.value < |lines| && OpensList(lines[r.value])
                        && forall k :: 0 <= k < r.value ==> !OpensList(lines[k])
  {
    if lines == [] then None
    else if OpensList(lines[0]) then Some(0)
    else
      var rest := FirstListLine(lines[1..]);
      assert forall k :: 0 < k < |lines| ==> lines[k] == lines[1..][k - 1];
      if rest.None? then None else Some(rest.value + 1)
  }

  /** `[line.split('.', 1)[1].strip() for line in lines if '.' in line]`:
      the stripped text after the first `.` of every line that has one. */
  function NamesAfterDots(lines: seq<string>): (names: seq<string>)
    ensures |names| <= |lines|
    decreases |lines|
  {
    if lines == [] then []
    else
      var last := lines[|lines| - 1];
      NamesAfterDots(lines[..|lines| - 1]) + (if '.' in last then [Strip(AfterFirst(last, '.'))] else [])
  }

  /** What the parser made of the worker's text. */
  datatype FishParse =
    | FishList(fish: seq<string>)
    | NoFishData
    | Unparsed(rawOutput: string)

  /** The decision the endpoint takes on a non-empty worker output. */
  function ParseFishText(output: string): (p: FishParse)
    ensures p.FishList? <==> FirstListLine(Split(Strip(output), '\n')).Some?
    ensures p.NoFishData? <==> FirstListLine(Split(Strip(output), '\n')).None? && Contains(output, NoDataMarker)
    ensures p.Unparsed? ==> p.rawOutput == output
  {
    var lines := Split(Strip(output), '\n');
    match FirstListLine(lines)
    case Some(start) => FishList(NamesAfterDots(lines[start..]))
    case None => if Contains(output, NoDataMarker) then NoFishData else Unparsed(output)
  }

  /** The loop at the heart of the parser: find the first line opening the list. */
  method FindListStart(lines: seq<string>) returns (index: int)
    ensures -1 <= index < |lines|
    ensures index == -1 <==> forall k :: 0 <= k < |lines| ==> !OpensList(lines[k])
    ensures index >= 0 ==> OpensList(lines[index]) && forall k :: 0 <= k < index ==> !OpensList(lines[k])
  {
    index := -1;
    var i := 0;
    while i < |lines|
      invariant 0 <= i <= |lines|
      invariant forall k :: 0 <= k < i ==> !OpensList(lines[k])
    {
      if OpensList(lines[i]) {
        index := i;
        return;
      }
      i := i + 1;
    }
  }

  /** The body `get_fish_info` sends for a parse. */
  function FishResponse(p: FishParse): (r: Response)
    ensures IsSuccess(r) && r.status == 200
  {
    match p
    case FishList(fish) =>
      Success(map["data" := JObj(map["fish" := JArr(Strs(fish))])])
    case NoFishData =>
      Success(map["data" := JObj(map["fish" := JArr([]), "message" := JStr("No fish data available for the area.")])])
    case Unparsed(raw) =>
      Success(map["data" := JObj(map["raw_output" := JStr(raw), "message" := JStr("Could not parse fish list from output.")])])
  }

  /** The list comprehension over the lines from the opening line on. */
  method CollectNames(lines: seq<string>, start: nat) returns (fish: seq<string>)
    requires start <= |lines|
    ensures fish == NamesAfterDots(lines[start..])
  {
    fish := [];
    var i := start;
    while i < |lines|
      invariant start <= i <= |lines|
      invariant fish == NamesAfterDots(lines[start..i])
    {
      NamesAfterDotsSnoc(lines[start..i], lines[i]);
      assert lines[start..i + 1] == lines[start..i] + [lines[i]];
      if '.' in lines[i] {
        fish := fish + [Strip(AfterFirst(lines[i], '.'))];
      }
      i := i + 1;
    }
    assert lines[start..|lines|] == lines[start..];
  }

  /** `get_fish_info` on the worker's result. */
  method GetFishInfo(result: RunResult) returns (response: Response)
    ensures !result.success ==> response == Failure(500, result.error)
    ensures result.success && result.output == "" ==>
              response == Failure(500, "fishy.py ran successfully but produced no output.")
    ensures result.success && result.output != "" ==> response == FishResponse(ParseFishText(result.output))
  {
    if result.success && result.output != "" {
      var lines := Split(Strip(result.output), '\n');
      var start := FindListStart(lines);
      if start != -1 {
        var fish := CollectNames(lines, start);
        response := FishResponse(FishList(fish));
      } else if Contains(result.output, NoDataMarker) {
        response := FishResponse(NoFishData);
      } else {
        response := FishResponse(Unparsed(result.output));
      }
    } else if !result.success {
      response := Failure(500, result.error);
    } else {
      response := Failure(500, "fishy.py ran successfully but produced no output.");
    }
  }

  /** The names of one more line come after those of the lines before it. */
  lemma NamesAfterDotsSnoc(lines: seq<string>, line: string)
    ensures NamesAfterDots(lines + [line])
         == NamesAfterDots(lines) + (if '.' in line then [Strip(AfterFirst(line, '.'))] else [])
  {
    assert (lines + [line])[..|lines|] == lines;
  }
}
