/** The streaming usage collector: it cuts a response body into lines as the chunks arrive, keeps at
    most one capped line, and must not depend on how the body was cut into chunks. */
module UsageStream {
  import opened Common
  import opened Text

  const LineLimit: nat := 1048576

  // ----- usage values ---------------------------------------------------------------------

  datatype StatName =
    | PromptN | PromptMS | PromptPerSecond | PromptPerTokenMS
    | PredictedN | PredictedMS | PredictedPerSecond | PredictedPerTokenMS
    | CacheN | DraftN | DraftNAccepted | FinishReason | ToolCallCount

  datatype StatValue = Count(count: int) | Number(number: real) | Reason(reason: string)

  // A statistic that was not reported is absent from the map.
  type Stats = map<StatName, StatValue>

  datatype UsageValues = UsageValues(
    prompt: int, generated: int, total: int,
    promptTPS: Option<real>, generationTPS: Option<real>, stats: Stats)

  function Merge(u: UsageValues, candidate: UsageValues): UsageValues {
    UsageValues(
      if candidate.prompt > 0 then candidate.prompt else u.prompt,
      if candidate.generated > 0 then candidate.generated else u.generated,
      if candidate.total > 0 then candidate.total else u.total,
      if candidate.promptTPS.Some? then candidate.promptTPS else u.promptTPS,
      if candidate.generationTPS.Some? then candidate.generationTPS else u.generationTPS,
      u.stats + candidate.stats)
  }

  /** What one JSON object of a payload reports: its usage and timings, the last finish reason of
      its choices and the keys of the tool calls they mention. */
  datatype Report = Report(usage: UsageValues, finish: Option<string>, tools: set<string>)

  // The reports of a payload: the object's own and its "response" object's.  None when it is not a JSON object.
  type Decoder = string -> Option<seq<Report>>

  datatype Accumulator = Accumulator(values: UsageValues, toolCalls: set<string>)

  const Nothing: UsageValues := UsageValues(0, 0, 0, None, None, map[])

  const NewAccumulator: Accumulator := Accumulator(Nothing, {})

  function AddReport(a: Accumulator, r: Report): Accumulator {
    var merged := Merge(a.values, r.usage);
    var values := if r.finish.Some? then merged.(stats := merged.stats[FinishReason := Reason(r.finish.value)])
        else merged;
    Accumulator(values, a.toolCalls + r.tools)
  }

  function AddReports(a: Accumulator, reports: seq<Report>): Accumulator
    decreases |reports|
  {
    if reports == [] then a else AddReport(AddReports(a, reports[..|reports| - 1]), reports[|reports| - 1])
  }

  function ReportsOf(decode: Decoder, raw: string): seq<Report> {
    match decode(raw)
    case None => []
    case Some(reports) => reports
  }

  function AddRaw(decode: Decoder, a: Accumulator, raw: string): Accumulator { AddReports(a, ReportsOf(decode, raw)) }

  function Usage(a: Accumulator): UsageValues {
    if a.toolCalls == {} then a.values
    else a.values.(stats := a.values.stats[ToolCallCount := Count(|a.toolCalls|)])
  }

  // ----- lines ----------------------------------------------------------------------------

  const DataField: string := "data:"

  // The payload a line carries, if any.
  function Payload(line: string): Option<string> {
    var field := TrimSpace(line);
    if !HasPrefix(field, DataField) then None
    else
      var payload := TrimSpace(field[|DataField|..]);
      if payload == "" || payload == "[DONE]" then None else Some(payload)
  }

  function ProcessLine(decode: Decoder, a: Accumulator, line: string): Accumulator {
    match Payload(line)
    case None => a
    case Some(payload) => AddRaw(decode, a, payload)
  }

  function ProcessLines(decode: Decoder, a: Accumulator, lines: seq<string>): Accumulator
    decreases |lines|
  {
    if lines == [] then a
    else ProcessLine(decode, ProcessLines(decode, a, lines[..|lines| - 1]), lines[|lines| - 1])
  }

  function Lines(text: string): (lines: seq<string>)
    ensures |lines| > 0
  {
    Split(text, '\n')
  }

  // The lines short enough to be looked at.
  function Kept(lines: seq<string>): seq<string> {
    if lines == [] then []
    else Kept(lines[..|lines| - 1]) + if |lines[|lines| - 1]| <= LineLimit then [lines[|lines| - 1]] else []
  }

  // ----- the collector ----------------------------------------------------------------------

  /** What a collector holds once it has seen `text`: the complete lines that fit are accounted for in
      order, and the unfinished line is kept unless it is already too long. */
  ghost predicate Holds(decode: Decoder, base: Accumulator, text: string, a: Accumulator, pending: string,
        discardLine: bool) {
    && a == ProcessLines(decode, base, Kept(Front(Lines(text))))
    && discardLine == (|Last(Lines(text))| > LineLimit)
    && pending == if discardLine then "" else Last(Lines(text))
  }

  /** At every moment the collector keeps at most one capped piece of one line. */
  lemma {:induction false} PendingIsCapped(
        decode: Decoder, base: Accumulator, text: string, a: Accumulator, pending: string, discardLine: bool)
    requires Holds(decode, base, text, a, pending, discardLine)
    ensures |pending| <= LineLimit && '\n' !in pending && HasSuffix(text, pending) && (discardLine ==> pending == "")
  {
    JoinSplit(text, '\n');
    JoinEndsWithLast(Lines(text));
  }

  lemma {:induction false} JoinEndsWithLast(lines: seq<string>)
    requires |lines| > 0
    ensures HasSuffix(Join(lines, "\n"), Last(lines))
  {
    if |lines| > 1 {
      JoinEndsWithLast(lines[1..]);
      var rest, last := Join(lines[1..], "\n"), Last(lines);
      var s := lines[0] + "\n" + rest;
      assert s[|s| - |last|..] == rest[|rest| - |last|..];
    }
  }

  // The next piece of the unfinished line, without a newline.
  lemma {:induction false} PieceArrives(
        decode: Decoder, base: Accumulator, text: string, piece: string, a: Accumulator, pending: string,
        discardLine: bool)
    requires '\n' !in piece && Holds(decode, base, text, a, pending, discardLine)
    ensures var overlong := discardLine || |pending| + |piece| > LineLimit;
      && Holds(decode, base, text + piece, a, if overlong then "" else pending + piece, overlong)
      && (discardLine ==> pending == "")
  {
    hide ProcessLines, Kept;
    SplitAppend(text, '\n', piece);
    JoinSplit(text, '\n');
    var line := Last(Lines(text)) + piece;
    FirstAt(line, '\n', |line|);
    assert Lines(line) == [line];
    hide Split, Lines;
    assert Front(Lines(text + piece)) == Front(Lines(text));
  }

  // The rest of the unfinished line, newline included.
  lemma {:induction false} LineArrives(text: string, segment: string)
    requires '\n' !in segment
    ensures Front(Lines(text + segment + "\n")) == Front(Lines(text)) + [Last(Lines(text)) + segment]
    ensures Last(Lines(text + segment + "\n")) == ""
  {
    var line := Last(Lines(text)) + segment;
    SplitAppend(text, '\n', segment + "\n");
    JoinSplit(text, '\n');
    LineAlone(line);
    hide Split, Join;
    assert text + segment + "\n" == text + (segment + "\n");
    assert Last(Lines(text)) + (segment + "\n") == line + "\n";
  }

  lemma {:induction false} LineAlone(line: string)
    requires '\n' !in line
    ensures Split(line + "\n", '\n') == [line, ""]
  {
    var s := line + "\n";
    assert s[..|line|] == line && s[|line| + 1..] == "";
    FirstAt(s, '\n', |line|);
  }

  lemma {:induction false} KeptSnoc(lines: seq<string>, line: string)
    ensures Kept(lines + [line]) == Kept(lines) + if |line| <= LineLimit then [line] else []
  {
    assert (lines + [line])[..|lines|] == lines;
  }

  lemma {:induction false} ProcessSnoc(decode: Decoder, a: Accumulator, lines: seq<string>, line: string)
    ensures ProcessLines(decode, a, lines + [line]) == ProcessLine(decode, ProcessLines(decode, a, lines), line)
  {
    assert (lines + [line])[..|lines|] == lines;
  }

  // The unfinished line ends.
  lemma {:induction false} LineEnds(
        decode: Decoder, base: Accumulator, text: string, segment: string, a: Accumulator, pending: string,
        discardLine: bool)
    requires '\n' !in segment && Holds(decode, base, text, a, pending, discardLine)
    ensures var fits := !discardLine && |pending| + |segment| <= LineLimit;
      Holds(decode, base, text + segment + "\n", if fits then ProcessLine(decode, a, pending + segment) else a, "",
          false)
  {
    hide ProcessLine, Lines, Kept, ProcessLines;
    var line := Last(Lines(text)) + segment;
    LineArrives(text, segment);
    KeptSnoc(Front(Lines(text)), line);
    ProcessSnoc(decode, base, Kept(Front(Lines(text))), line);
    assert Kept(Front(Lines(text))) + [] == Kept(Front(Lines(text)));
  }

  // The stream ends: a lone unfinished line remains only if it is still being skipped.
  lemma {:induction false} StreamEnds(
        decode: Decoder, base: Accumulator, text: string, a: Accumulator, pending: string, discardLine: bool)
    requires Holds(decode, base, text, a, pending, discardLine)
    ensures var after := if discardLine || pending == "" then a else ProcessLine(decode, a, pending);
      && after == ProcessLines(decode, base, Kept(Lines(text)))
      && Holds(decode, after, if discardLine then Last(Lines(text)) else "", after, "", discardLine)
  {
    hide ProcessLine, Lines, Kept, ProcessLines;
    var lines := Lines(text);
    KeptSnoc(Front(lines), Last(lines));
    assert Front(lines) + [Last(lines)] == lines;
    ProcessSnoc(decode, base, Kept(Front(lines)), Last(lines));
    assert Kept(Front(lines)) + [] == Kept(Front(lines));
    EmptyLine(decode, a);
    LoneLine(text);
    var after := if discardLine || pending == "" then a else ProcessLine(decode, a, pending);
    NothingProcessed(decode, after);
  }

  lemma {:induction false} LoneLine(text: string)
    ensures Lines(Last(Lines(text))) == [Last(Lines(text))] && Lines("") == [""]
  {
    JoinSplit(text, '\n');
    FirstAt(Last(Lines(text)), '\n', |Last(Lines(text))|);
    FirstAt("", '\n', 0);
  }

  lemma {:induction false} NothingProcessed(decode: Decoder, a: Accumulator)
    ensures forall line :: Front([line]) == [] && ProcessLines(decode, a, Kept(Front([line]))) == a
  {
    hide ProcessLine;
  }

  // A line of the chunk: what was read before it is followed by its segment and the newline.
  lemma {:induction false} CutAt(chunk: string, at: nat, index: nat)
    requires at + index < |chunk| && chunk[at + index] == '\n'
    ensures var segment, next := chunk[at..][..index], at + index + 1;
      && chunk[at..][index + 1..] == chunk[next..]
      && chunk[..next] == chunk[..at] + segment + "\n"
  {
  }

  class UsageStreamCollector {
    const decode: Decoder
    var accumulator: Accumulator
    var pending: string
    var discardLine: bool
    var finished: bool
    // The text seen since `base` was the accumulator: all of it, until Finish takes the last line.
    ghost var base: Accumulator
    ghost var text: string

    ghost predicate Valid()
      reads this
    {
      Holds(decode, base, text, accumulator, pending, discardLine)
    }

    constructor (decode: Decoder)
      ensures Valid() && text == "" && base == NewAccumulator && !finished && this.decode == decode
    {
      this.decode := decode;
      accumulator, pending, discardLine, finished := NewAccumulator, "", false, false;
      base, text := NewAccumulator, "";
    }

    /** Whatever the chunk holds, the collector ends as if the text and the chunk were one string. */
    method Feed(chunk: string)
      requires Valid()
      modifies this
      ensures Valid() && text == old(text) + chunk && base == old(base) && finished == old(finished)
    {
      hide ProcessLine, Lines, Holds;
      var data := chunk;
      ghost var start := text;
      assert start + [] == start;
      while |data| > 0
        invariant |data| <= |chunk| && data == chunk[|chunk| - |data|..]
        invariant Valid() && text == start + chunk[..|chunk| - |data|]
        invariant base == old(base) && finished == old(finished)
        decreases |data|
      {
        var index := IndexOf(data, '\n');
        ghost var seen := text;
        if index == |data| {
          PieceArrives(decode, base, seen, data, accumulator, pending, discardLine);
          assert seen + data == start + chunk;
          text := seen + data;
          if discardLine {
            return;
          }
          if |pending| + |data| > LineLimit {
            pending, discardLine := "", true;
            return;
          }
          pending := pending + data;
          return;
        }
        var segment := data[..index];
        LineEnds(decode, base, seen, segment, accumulator, pending, discardLine);
        if discardLine {
          discardLine := false;
        } else if |pending| + |segment| <= LineLimit {
          accumulator := ProcessLine(decode, accumulator, pending + segment);
        }
        pending := "";
        text := seen + segment + "\n";
        CutAt(chunk, |chunk| - |data|, index);
        assert text == start + (chunk[..|chunk| - |data|] + segment + "\n");
        data := data[index + 1..];
      }
      assert chunk[..|chunk|] == chunk;
    }

    /** The unfinished line is accounted for once, if it fits; an overlong one is still being skipped. */
    method Finish()
      requires Valid()
      modifies this
      ensures Valid() && finished
      ensures old(finished) ==>
          accumulator == old(accumulator) && pending == old(pending) && base == old(base) && text == old(text)
      ensures !old(finished) ==> accumulator == base == ProcessLines(decode, old(base), Kept(Lines(old(text))))
      ensures !old(finished) ==> text == if old(discardLine) then Last(Lines(old(text))) else ""
    {
      hide ProcessLine, Lines, Kept, ProcessLines, Holds;
      if finished {
        return;
      }
      finished := true;
      StreamEnds(decode, base, text, accumulator, pending, discardLine);
      if !discardLine && |pending| > 0 {
        accumulator := ProcessLine(decode, accumulator, pending);
      }
      pending := "";
      base, text := accumulator, if discardLine then Last(Lines(text)) else "";
    }

    method Result() returns (usage: UsageValues)
      requires Valid()
      modifies this
      ensures Valid() && finished
      ensures !old(finished) ==> usage == StreamUsageFrom(decode, old(base), old(text))
      ensures old(finished) ==> usage == Usage(old(accumulator)) && accumulator == old(accumulator)
    {
      Finish();
      usage := Usage(accumulator);
    }
  }

  lemma {:induction false} EmptyLine(decode: Decoder, a: Accumulator)
    ensures ProcessLine(decode, a, "") == a
  {
    assert |TrimSpace("")| == 0;
  }

  // The usage of a streamed body, whatever its chunks.
  function StreamUsageFrom(decode: Decoder, base: Accumulator, body: string): UsageValues {
    Usage(ProcessLines(decode, base, Kept(Lines(body))))
  }

  function StreamUsage(decode: Decoder, body: string): UsageValues { StreamUsageFrom(decode, NewAccumulator, body) }

  function Concat(chunks: seq<string>): string {
    if chunks == [] then "" else Concat(chunks[..|chunks| - 1]) + chunks[|chunks| - 1]
  }

  /** A response body read chunk by chunk: each read is fed, the failing or last one finishes, and
      the result depends on the concatenation of the chunks only. */
  method CaptureStream(decode: Decoder, chunks: seq<string>, finishes: bool) returns (usage: UsageValues)
    ensures usage == StreamUsage(decode, Concat(chunks))
  {
    hide ProcessLine, Lines, Kept, ProcessLines;
    var collector := new UsageStreamCollector(decode);
    for i := 0 to |chunks|
      invariant collector.Valid() && collector.text == Concat(chunks[..i]) && !collector.finished
      invariant collector.base == NewAccumulator && collector.decode == decode
    {
      if |chunks[i]| > 0 {
        collector.Feed(chunks[i]);
      }
      assert chunks[..i + 1][..i] == chunks[..i];
      assert Concat(chunks[..i]) + "" == Concat(chunks[..i]);
    }
    assert chunks[..|chunks|] == chunks;
    if finishes {
      collector.Finish();
    }
    usage := collector.Result();
  }

  // ----- the whole body at once -----------------------------------------------------------------

  predicate LooksLikeObject(body: string) { TrimSpace(body) != "" && TrimSpace(body)[0] == '{' }

  function ParseStart(decode: Decoder, body: string): Accumulator {
    if LooksLikeObject(body) then AddRaw(decode, NewAccumulator, TrimSpace(body)) else NewAccumulator
  }

  method ParseUsage(decode: Decoder, body: string) returns (usage: UsageValues)
    ensures usage == BodyUsage(decode, body)
  {
    hide ProcessLine, Lines, Kept, TrimSpace, AddRaw;
    var accumulator := NewAccumulator;
    var trimmed := TrimSpace(body);
    if |trimmed| > 0 && trimmed[0] == '{' {
      accumulator := AddRaw(decode, accumulator, trimmed);
    }
    ghost var start := accumulator;
    var lines := Lines(body);
    for i := 0 to |lines|
      invariant accumulator == ProcessLines(decode, start, lines[..i])
    {
      ProcessSnoc(decode, start, lines[..i], lines[i]);
      assert lines[..i] + [lines[i]] == lines[..i + 1];
      accumulator := ProcessLine(decode, accumulator, lines[i]);
    }
    assert lines[..|lines|] == lines;
    usage := Usage(accumulator);
  }

  function BodyUsage(decode: Decoder, body: string): UsageValues {
    Usage(ProcessLines(decode, ParseStart(decode, body), Lines(body)))
  }

  predicate AllLinesFit(body: string) { forall k :: 0 <= k < |Lines(body)| ==> |Lines(body)[k]| <= LineLimit }

  lemma {:induction false} KeptAll(lines: seq<string>)
    requires forall k :: 0 <= k < |lines| ==> |lines[k]| <= LineLimit
    ensures Kept(lines) == lines
  {
    if lines != [] {
      KeptAll(lines[..|lines| - 1]);
    }
  }

  // ----- what the result reports ------------------------------------------------------------------

  // All the reports of the lines, in order.
  function AllReports(decode: Decoder, lines: seq<string>): seq<Report> {
    if lines == [] then []
    else
      var last := Payload(lines[|lines| - 1]);
      AllReports(decode, lines[..|lines| - 1]) + if last.Some? then ReportsOf(decode, last.value) else []
  }

  lemma {:induction false} AddReportsConcat(a: Accumulator, xs: seq<Report>, ys: seq<Report>)
    ensures AddReports(a, xs + ys) == AddReports(AddReports(a, xs), ys)
    decreases |ys|
  {
    if ys == [] {
      assert xs + ys == xs;
    } else {
      AddReportsConcat(a, xs, ys[..|ys| - 1]);
      assert (xs + ys)[..|xs + ys| - 1] == xs + ys[..|ys| - 1];
    }
  }

  lemma {:induction false} LinesAddTheirReports(decode: Decoder, a: Accumulator, lines: seq<string>)
    ensures ProcessLines(decode, a, lines) == AddReports(a, AllReports(decode, lines))
  {
    if lines != [] {
      var last := Payload(lines[|lines| - 1]);
      LinesAddTheirReports(decode, a, lines[..|lines| - 1]);
      AddReportsConcat(a, AllReports(decode, lines[..|lines| - 1]),
          if last.Some? then ReportsOf(decode, last.value) else []);
    }
  }

  // The last positive number of a list, or 0.
  ghost predicate IsLastPositive(values: seq<int>, r: int) {
    || (r == 0 && forall i :: 0 <= i < |values| ==> values[i] <= 0)
    || (r > 0 && exists i :: 0 <= i < |values| && values[i] == r && forall j :: i < j < |values| ==> values[j] <= 0)
  }

  lemma {:induction false} NoneIsLastPositive()
    ensures IsLastPositive([], 0)
  {
  }

  lemma {:induction false} LastPositiveSnoc(values: seq<int>, r: int, x: int)
    requires IsLastPositive(values, r)
    ensures IsLastPositive(values + [x], if x > 0 then x else r)
  {
    var after := values + [x];
    if x > 0 {
      assert after[|values|] == x;
    } else if r > 0 {
      var i :| 0 <= i < |values| && values[i] == r && forall j :: i < j < |values| ==> values[j] <= 0;
      assert after[i] == r;
    }
  }

  function Prompts(reports: seq<Report>): seq<int> {
    seq(|reports|, i requires 0 <= i < |reports| => reports[i].usage.prompt)
  }
  function Generateds(reports: seq<Report>): seq<int> {
    seq(|reports|, i requires 0 <= i < |reports| => reports[i].usage.generated)
  }
  function Totals(reports: seq<Report>): seq<int> {
    seq(|reports|, i requires 0 <= i < |reports| => reports[i].usage.total)
  }

  lemma {:induction false} CountsAreLastPositive(reports: seq<Report>)
    ensures var values := AddReports(NewAccumulator, reports).values;
      && IsLastPositive(Prompts(reports), values.prompt)
      && IsLastPositive(Generateds(reports), values.generated)
      && IsLastPositive(Totals(reports), values.total)
  {
    hide IsLastPositive;
    if reports == [] {
      NoneIsLastPositive();
    } else {
      var shorter, r := reports[..|reports| - 1], reports[|reports| - 1];
      CountsAreLastPositive(shorter);
      var values := AddReports(NewAccumulator, shorter).values;
      LastPositiveSnoc(Prompts(shorter), values.prompt, r.usage.prompt);
      LastPositiveSnoc(Generateds(shorter), values.generated, r.usage.generated);
      LastPositiveSnoc(Totals(shorter), values.total, r.usage.total);
      assert Prompts(reports) == Prompts(shorter) + [r.usage.prompt];
      assert Generateds(reports) == Generateds(shorter) + [r.usage.generated];
      assert Totals(reports) == Totals(shorter) + [r.usage.total];
    }
  }

  ghost predicate Mentions(reports: seq<Report>, call: string) {
    exists i :: 0 <= i < |reports| && call in reports[i].tools
  }

  lemma {:induction false} ToolCallsAreTheUnion(reports: seq<Report>, call: string)
    ensures call in AddReports(NewAccumulator, reports).toolCalls <==> Mentions(reports, call)
  {
    if reports != [] {
      var shorter := reports[..|reports| - 1];
      ToolCallsAreTheUnion(shorter, call);
      if Mentions(shorter, call) {
        var i :| 0 <= i < |shorter| && call in shorter[i].tools;
        assert call in reports[i].tools;
      }
    }
  }

  // The last value given in a list, if any is.
  ghost predicate IsLastGiven<T(!new)>(values: seq<Option<T>>, r: Option<T>) {
    || (r.None? && forall i :: 0 <= i < |values| ==> values[i].None?)
    || (r.Some? && exists i :: 0 <= i < |values| && values[i] == r && forall j :: i < j < |values| ==> values[j].None?)
  }

  lemma {:induction false} LastGivenSnoc<T(!new)>(values: seq<Option<T>>, r: Option<T>, x: Option<T>)
    requires IsLastGiven(values, r)
    ensures IsLastGiven(values + [x], if x.Some? then x else r)
  {
    var after := values + [x];
    if x.Some? {
      assert after[|values|] == x;
    } else if r.Some? {
      var i :| 0 <= i < |values| && values[i] == r && forall j :: i < j < |values| ==> values[j].None?;
      assert after[i] == r;
    }
  }

  function PromptRates(reports: seq<Report>): seq<Option<real>> {
    seq(|reports|, i requires 0 <= i < |reports| => reports[i].usage.promptTPS)
  }

  function GenerationRates(reports: seq<Report>): seq<Option<real>> {
    seq(|reports|, i requires 0 <= i < |reports| => reports[i].usage.generationTPS)
  }

  // The value of a statistic, if it has one.
  function Statistic(stats: Stats, name: StatName): Option<StatValue> {
    if name in stats then Some(stats[name]) else None
  }

  // What one report says of a statistic; the finish reason of its choices counts as one.
  function Said(r: Report, name: StatName): Option<StatValue> {
    if name.FinishReason? && r.finish.Some? then Some(Reason(r.finish.value)) else Statistic(r.usage.stats, name)
  }

  function AllSaid(reports: seq<Report>, name: StatName): seq<Option<StatValue>> {
    seq(|reports|, i requires 0 <= i < |reports| => Said(reports[i], name))
  }

  lemma {:induction false} RatesAreLastGiven(reports: seq<Report>)
    ensures var values := AddReports(NewAccumulator, reports).values;
      && IsLastGiven(PromptRates(reports), values.promptTPS)
      && IsLastGiven(GenerationRates(reports), values.generationTPS)
  {
    if reports != [] {
      var shorter, r := reports[..|reports| - 1], reports[|reports| - 1];
      RatesAreLastGiven(shorter);
      var values := AddReports(NewAccumulator, shorter).values;
      LastGivenSnoc(PromptRates(shorter), values.promptTPS, r.usage.promptTPS);
      LastGivenSnoc(GenerationRates(shorter), values.generationTPS, r.usage.generationTPS);
      hide IsLastGiven;
      assert PromptRates(reports) == PromptRates(shorter) + [r.usage.promptTPS];
      assert GenerationRates(reports) == GenerationRates(shorter) + [r.usage.generationTPS];
    }
  }

  lemma {:induction false} StatisticsAreLastGiven(reports: seq<Report>, name: StatName)
    ensures IsLastGiven(AllSaid(reports, name), Statistic(AddReports(NewAccumulator, reports).values.stats, name))
  {
    if reports != [] {
      var shorter, r := reports[..|reports| - 1], reports[|reports| - 1];
      StatisticsAreLastGiven(shorter, name);
      var statistic := Statistic(AddReports(NewAccumulator, shorter).values.stats, name);
      LastGivenSnoc(AllSaid(shorter, name), statistic, Said(r, name));
      hide IsLastGiven;
      assert AllSaid(reports, name) == AllSaid(shorter, name) + [Said(r, name)];
    }
  }

  /** What reports in this order amount to: of every token count the last positive one, of every rate and statistic
      the last one given, and as the number of tool calls that of the distinct calls mentioned. */
  ghost predicate AmountsTo(reports: seq<Report>, calls: set<string>, usage: UsageValues) {
    && (forall call :: call in calls <==> Mentions(reports, call))
    && IsLastPositive(Prompts(reports), usage.prompt)
    && IsLastPositive(Generateds(reports), usage.generated)
    && IsLastPositive(Totals(reports), usage.total)
    && IsLastGiven(PromptRates(reports), usage.promptTPS)
    && IsLastGiven(GenerationRates(reports), usage.generationTPS)
    && (forall name: StatName ::
          (name.ToolCallCount? && calls != {}) || IsLastGiven(AllSaid(reports, name), Statistic(usage.stats, name)))
    && (calls != {} ==> Statistic(usage.stats, ToolCallCount) == Some(Count(|calls|)))
  }

  lemma {:induction false} ReportsAmountTo(reports: seq<Report>)
    ensures var acc := AddReports(NewAccumulator, reports);
      AmountsTo(reports, acc.toolCalls, Usage(acc))
  {
    CountsAreLastPositive(reports);
    RatesAreLastGiven(reports);
    var sum := AddReports(NewAccumulator, reports);
    hide IsLastPositive, IsLastGiven, AddReports, Mentions;
    forall call
      ensures call in sum.toolCalls <==> Mentions(reports, call)
    {
      ToolCallsAreTheUnion(reports, call);
    }
    forall name: StatName | !(name.ToolCallCount? && sum.toolCalls != {})
      ensures IsLastGiven(AllSaid(reports, name), Statistic(Usage(sum).stats, name))
    {
      StatisticsAreLastGiven(reports, name);
      assert Statistic(Usage(sum).stats, name) == Statistic(sum.values.stats, name);
    }
  }

  /** The usage of any streamed body is what the reports of its lines within the limit amount to. */
  lemma {:induction false} StreamUsageIsLastReported(decode: Decoder, body: string) returns (calls: set<string>)
    ensures AmountsTo(AllReports(decode, Kept(Lines(body))), calls, StreamUsage(decode, body))
  {
    hide AmountsTo, Lines, Kept, AllReports, ProcessLines, AddReports, Usage;
    var reports := AllReports(decode, Kept(Lines(body)));
    LinesAddTheirReports(decode, NewAccumulator, Kept(Lines(body)));
    ReportsAmountTo(reports);
    calls := AddReports(NewAccumulator, reports).toolCalls;
  }

  // ----- the lines of an event stream --------------------------------------------------------------------

  /** A line of an event stream, with the blanks in it: one that carries a payload, the mark of the end, a data
      line without payload, or anything that is no data line. */
  datatype Event =
    | Data(lead: string, before: string, payload: string, after: string)
    | EndMark(lead: string, before: string, after: string)
    | NoPayload(lead: string, before: string)
    | Other(text: string)

  function LineOf(e: Event): string {
    match e
    case Data(lead, before, payload, after) => lead + ("data:" + before + payload) + after
    case EndMark(lead, before, after) => lead + ("data:" + before + "[DONE]") + after
    case NoPayload(lead, before) => lead + "data:" + before
    case Other(text) => text
  }

  ghost predicate IsEvent(e: Event) {
    && '\n' !in LineOf(e)
    && match e
       case Data(lead, before, payload, after) =>
         && Blank(lead) && Blank(before) && Blank(after)
         && payload != "" && payload != "[DONE]" && TrimSpace(payload) == payload
       case EndMark(lead, before, after) => Blank(lead) && Blank(before) && Blank(after)
       case NoPayload(lead, before) => Blank(lead) && Blank(before)
       case Other(text) => !("data:" <= TrimSpace(text))
  }

  // What a decoder makes of a text.
  function Decoded(decode: Decoder, text: string): seq<Report> {
    match decode(text)
    case Some(reports) => reports
    case None => []
  }

  // The reports of the events in order; a stream looks at lines of at most 1 MiB only.
  function Reported(decode: Decoder, events: seq<Event>, streamed: bool): seq<Report> {
    if events == [] then []
    else
      var last := events[|events| - 1];
      Reported(decode, events[..|events| - 1], streamed)
      + if last.Data? && (!streamed || |LineOf(last)| <= 1_048_576) then Decoded(decode, last.payload) else []
  }

  function LinesOf(events: seq<Event>): (lines: seq<string>)
    ensures |lines| == |events| && forall i :: 0 <= i < |events| ==> lines[i] == LineOf(events[i])
  {
    seq(|events|, i requires 0 <= i < |events| => LineOf(events[i]))
  }

  lemma {:induction false} DataPayload(lead: string, before: string, payload: string, after: string)
    requires Blank(lead) && Blank(before) && Blank(after) && payload != "" && TrimSpace(payload) == payload
    ensures var line := lead + ("data:" + before + payload) + after;
      Payload(line) == if payload == "[DONE]" then None else Some(payload)
  {
    hide TrimSpace;
    var field := "data:" + before + payload;
    TrimBlanks(lead, field, after);
    TrimmedBehind("data:", before, payload);
    TrimBlanks(before, payload, "");
    hide Blank;
    FieldPayload(before, payload);
    assert TrimSpace(lead + field + after) == field;
  }

  lemma {:induction false} FieldPayload(before: string, payload: string)
    ensures var field := "data:" + before + payload;
      HasPrefix(field, DataField) && field[|DataField|..] == before + payload + ""
  {
  }

  lemma {:induction false} NoPayloadThere(lead: string, before: string)
    requires Blank(lead) && Blank(before)
    ensures Payload(lead + "data:" + before).None?
  {
    TrimBlanks(lead, "data:", before);
    NothingToTrim("data:");
    hide TrimSpace;
    assert "data:"[5..] == "";
    assert |TrimSpace("")| <= 0;
  }

  lemma {:induction false} EventPayload(e: Event)
    requires IsEvent(e)
    ensures Payload(LineOf(e)) == if e.Data? then Some(e.payload) else None
  {
    hide TrimSpace, Blank, Payload;
    match e
    case Data(lead, before, payload, after) => DataPayload(lead, before, payload, after);
    case EndMark(lead, before, after) => EndMarkPayload(lead, before, after);
    case NoPayload(lead, before) => NoPayloadThere(lead, before);
    case Other(text) => OtherPayload(text);
  }

  lemma {:induction false} EndMarkPayload(lead: string, before: string, after: string)
    requires Blank(lead) && Blank(before) && Blank(after)
    ensures Payload(lead + ("data:" + before + "[DONE]") + after).None?
  {
    NothingToTrim("[DONE]");
    DataPayload(lead, before, "[DONE]", after);
  }

  lemma {:induction false} OtherPayload(text: string)
    requires !("data:" <= TrimSpace(text))
    ensures Payload(text).None?
  {
    hide TrimSpace;
  }

  lemma {:induction false} EventsReport(decode: Decoder, events: seq<Event>)
    requires forall i :: 0 <= i < |events| ==> IsEvent(events[i])
    ensures AllReports(decode, Kept(LinesOf(events))) == Reported(decode, events, true)
    ensures AllReports(decode, LinesOf(events)) == Reported(decode, events, false)
    decreases |events|
  {
    hide Payload, IsEvent, LineOf, Kept, AllReports;
    if events == [] {
      NoEvents(decode);
    } else {
      var shorter, last := events[..|events| - 1], events[|events| - 1];
      EventsReport(decode, shorter);
      EventPayload(last);
      assert LinesOf(events) == LinesOf(shorter) + [LineOf(last)];
      KeptSnoc(LinesOf(shorter), LineOf(last));
      ReportsSnoc(decode, LinesOf(shorter), LineOf(last));
      ReportsSnoc(decode, Kept(LinesOf(shorter)), LineOf(last));
      assert Kept(LinesOf(shorter)) + [] == Kept(LinesOf(shorter));
    }
  }

  lemma {:induction false} NoEvents(decode: Decoder)
    ensures Kept([]) == [] && AllReports(decode, []) == []
  {
  }

  lemma {:induction false} ReportsSnoc(decode: Decoder, lines: seq<string>, line: string)
    ensures var payload := Payload(line);
      AllReports(decode, lines + [line]) ==
      AllReports(decode, lines) + if payload.Some? then Decoded(decode, payload.value) else []
  {
    hide Payload;
    assert (lines + [line])[..|lines|] == lines;
  }

  lemma {:induction false} EventLines(events: seq<Event>)
    requires |events| > 0 && forall i :: 0 <= i < |events| ==> IsEvent(events[i])
    ensures Lines(Join(LinesOf(events), "\n")) == LinesOf(events)
  {
    hide LineOf;
    forall i | 0 <= i < |events|
      ensures '\n' !in LinesOf(events)[i]
    {
      assert IsEvent(events[i]);
    }
    assert ['\n'] == "\n";
    SplitJoin(LinesOf(events), '\n');
  }

  /** The usage that is collected of an event stream, however it is cut into chunks, is what the payloads of its
      data lines amount to, decoded in order; a line of more than 1 MiB counts for nothing. */
  lemma {:induction false} StreamTells(decode: Decoder, events: seq<Event>) returns (calls: set<string>)
    requires |events| > 0 && forall i :: 0 <= i < |events| ==> IsEvent(events[i])
    ensures AmountsTo(Reported(decode, events, true), calls, StreamUsage(decode, Join(LinesOf(events), "\n")))
  {
    hide AmountsTo, Lines, Kept, AllReports, ProcessLines, IsEvent, AddReports, Usage, LineOf, Join;
    EventLines(events);
    EventsReport(decode, events);
    LinesAddTheirReports(decode, NewAccumulator, Kept(LinesOf(events)));
    var reports := Reported(decode, events, true);
    ReportsAmountTo(reports);
    calls := AddReports(NewAccumulator, reports).toolCalls;
  }

  /** Of a whole body the reports of the object that it begins with come first, and no line is too long. */
  lemma {:induction false} BodyTells(decode: Decoder, events: seq<Event>) returns (calls: set<string>)
    requires |events| > 0 && forall i :: 0 <= i < |events| ==> IsEvent(events[i])
    ensures var body := Join(LinesOf(events), "\n");
      var head := if TrimSpace(body) != "" && TrimSpace(body)[0] == '{' then Decoded(decode, TrimSpace(body)) else [];
      AmountsTo(head + Reported(decode, events, false), calls, BodyUsage(decode, body))
  {
    hide AmountsTo, Lines, AllReports, ProcessLines, IsEvent, Usage, LineOf, Join, TrimSpace, AddReport;
    EventLines(events);
    EventsReport(decode, events);
    var body := Join(LinesOf(events), "\n");
    var head := if TrimSpace(body) != "" && TrimSpace(body)[0] == '{' then Decoded(decode, TrimSpace(body)) else [];
    assert ParseStart(decode, body) == AddReports(NewAccumulator, head);
    LinesAddTheirReports(decode, ParseStart(decode, body), LinesOf(events));
    AddReportsConcat(NewAccumulator, head, Reported(decode, events, false));
    var reports := head + Reported(decode, events, false);
    ReportsAmountTo(reports);
    calls := AddReports(NewAccumulator, reports).toolCalls;
  }

  // ----- streaming against the whole body ------------------------------------------------------------

  // What a stretch of reports amounts to.
  function Sum(reports: seq<Report>): Accumulator { AddReports(NewAccumulator, reports) }

  function Overlay(a: Accumulator, b: Accumulator): Accumulator {
    Accumulator(Merge(a.values, b.values), a.toolCalls + b.toolCalls)
  }

  lemma {:induction false} OverlayAdds(a: Accumulator, x: Accumulator, r: Report)
    ensures Overlay(a, AddReport(x, r)) == AddReport(Overlay(a, x), r)
  {
    assert a.values.stats + (x.values.stats + r.usage.stats) == (a.values.stats + x.values.stats) + r.usage.stats;
    if r.finish.Some? {
      var v := Reason(r.finish.value);
      assert a.values.stats + (x.values.stats + r.usage.stats)[FinishReason := v] ==
          (a.values.stats + x.values.stats + r.usage.stats)[FinishReason := v];
    }
  }

  /** Adding reports to an accumulator lays what they amount to over it. */
  lemma {:induction false} AddReportsIsOverlay(a: Accumulator, reports: seq<Report>)
    ensures AddReports(a, reports) == Overlay(a, Sum(reports))
  {
    hide AddReport;
    if reports == [] {
      assert a.values.stats + map[] == a.values.stats;
    } else {
      AddReportsIsOverlay(a, reports[..|reports| - 1]);
      OverlayAdds(a, Sum(reports[..|reports| - 1]), reports[|reports| - 1]);
    }
  }

  // The decoder leaves the tool-call count to the accumulator.
  ghost predicate CountsNoCalls(decode: Decoder) {
    forall raw, i :: 0 <= i < |ReportsOf(decode, raw)| ==> ToolCallCount !in ReportsOf(decode, raw)[i].usage.stats
  }

  // Counts start at zero and only the accumulator counts calls.
  predicate Proper(a: Accumulator) {
    a.values.prompt >= 0 && a.values.generated >= 0 && a.values.total >= 0 && ToolCallCount !in a.values.stats
  }

  lemma {:induction false} SumIsProper(reports: seq<Report>)
    requires forall i :: 0 <= i < |reports| ==> ToolCallCount !in reports[i].usage.stats
    ensures Proper(Sum(reports))
  {
    if reports != [] {
      SumIsProper(reports[..|reports| - 1]);
    }
  }

  /** Everything that the first reports is also reported by the second, which comes later. */
  predicate AddsNothing(first: Accumulator, second: Accumulator) {
    var UsageValues(prompt, generated, total, promptTPS, generationTPS, stats) := first.values;
    && (prompt > 0 ==> second.values.prompt > 0) && (generated > 0 ==> second.values.generated > 0)
        && (total > 0 ==> second.values.total > 0)
    && (promptTPS.Some? ==> second.values.promptTPS.Some?)
        && (generationTPS.Some? ==> second.values.generationTPS.Some?)
    && stats.Keys <= second.values.stats.Keys && first.toolCalls <= second.toolCalls
  }

  lemma {:induction false} UsageTellsWhatIsAdded(first: Accumulator, second: Accumulator)
    requires Proper(first) && Proper(second)
    ensures Usage(Overlay(first, second)) == Usage(second) <==> AddsNothing(first, second)
  {
    var both := Overlay(first, second);
    StatsOverlay(first.values.stats, second.values.stats, first.toolCalls, second.toolCalls);
    hide StatsWithCalls;
    assert Usage(both) == both.values.(stats :=
        StatsWithCalls(both.values.stats, both.toolCalls)) by { UsageStats(both); }
    assert Usage(second) == second.values.(stats :=
        StatsWithCalls(second.values.stats, second.toolCalls)) by { UsageStats(second); }
  }

  function StatsWithCalls(stats: Stats, calls: set<string>): Stats {
    if calls == {} then stats else stats[ToolCallCount := Count(|calls|)]
  }

  lemma {:induction false} UsageStats(a: Accumulator)
    ensures Usage(a) == a.values.(stats := StatsWithCalls(a.values.stats, a.toolCalls))
  {
  }

  lemma {:induction false} StatsOverlay(a: Stats, b: Stats, x: set<string>, y: set<string>)
    requires ToolCallCount !in a && ToolCallCount !in b
    ensures StatsWithCalls(a + b, x + y) == StatsWithCalls(b, y) <==> a.Keys <= b.Keys && x <= y
  {
    var left, right := StatsWithCalls(a + b, x + y), StatsWithCalls(b, y);
    if a.Keys <= b.Keys && x <= y {
      assert a + b == b && x + y == y;
    } else if k :| k in a && k !in b {
      assert k in left && k !in right;
    } else {
      var call :| call in x && call !in y;
      assert call in x + y;
      assert ToolCallCount in left && left[ToolCallCount] == Count(|x + y|);
      SubsetIsSmaller(y + {call}, x + y);
      assert |y + {call}| == |y| + 1;
      assert y != {} ==> right[ToolCallCount] == Count(|y|);
    }
  }

  // The reports of the leading object, if the body begins with one.
  function LeadingReports(decode: Decoder, body: string): seq<Report> {
    if LooksLikeObject(body) then ReportsOf(decode, TrimSpace(body)) else []
  }

  /** With every line short enough, streaming and parsing the whole body give the same usage for a JSON decoder
      exactly when the body does not begin with an object, or the later lines report everything that this
      object reports. */
  lemma {:induction false} StreamAgreesWithBody(decode: Decoder, body: string)
    requires AllLinesFit(body) && CountsNoCalls(decode)
    ensures StreamUsage(decode, body) == BodyUsage(decode, body) <==>
        AddsNothing(Sum(LeadingReports(decode, body)), Sum(AllReports(decode, Lines(body))))
    ensures !LooksLikeObject(body) ==> StreamUsage(decode, body) == BodyUsage(decode, body)
  {
    hide ProcessLine, Lines, Kept, TrimSpace, Payload, ProcessLines, AddReport, Usage, AddsNothing, AddReports;
    KeptAll(Lines(body));
    var head, lines := LeadingReports(decode, body), AllReports(decode, Lines(body));
    AllReportsCountNoCalls(decode, Lines(body));
    assert ParseStart(decode, body) == Sum(head) by {
      NoReports();
    }
    LinesAddTheirReports(decode, NewAccumulator, Lines(body));
    LinesAddTheirReports(decode, Sum(head), Lines(body));
    AddReportsIsOverlay(Sum(head), lines);
    SumIsProper(head);
    SumIsProper(lines);
    UsageTellsWhatIsAdded(Sum(head), Sum(lines));
  }

  lemma {:induction false} NoReports()
    ensures AddReports(NewAccumulator, []) == NewAccumulator
  {
  }

  lemma {:induction false} AllReportsCountNoCalls(decode: Decoder, lines: seq<string>)
    requires CountsNoCalls(decode)
    ensures forall i :: 0 <= i < |AllReports(decode, lines)| ==>
        ToolCallCount !in AllReports(decode, lines)[i].usage.stats
  {
    hide Payload, ReportsOf;
    if lines != [] {
      AllReportsCountNoCalls(decode, lines[..|lines| - 1]);
      var last := Payload(lines[|lines| - 1]);
      if last.Some? {
        assert forall i :: 0 <= i < |ReportsOf(decode, last.value)| ==>
            ToolCallCount !in ReportsOf(decode, last.value)[i].usage.stats;
      }
    }
  }

  /** In particular a body of one line that is an object is lost on the collector, whatever its decoder
      makes of it: the two agree exactly when the object reports nothing. */
  lemma {:induction false} SingleObjectIsMissed(decode: Decoder, body: string)
    requires LooksLikeObject(body) && '\n' !in body && |body| <= LineLimit && CountsNoCalls(decode)
    ensures StreamUsage(decode, body) == Nothing
    ensures BodyUsage(decode, body) == Usage(Sum(ReportsOf(decode, TrimSpace(body))))
    ensures StreamUsage(decode, body) == BodyUsage(decode, body) <==>
        Sum(ReportsOf(decode, TrimSpace(body))) == NewAccumulator
  {
    hide Payload, TrimSpace, Lines, AddReport, AddReports, Kept, ProcessLines, AddsNothing, CountsNoCalls, Usage;
    ObjectLine(body);
    NoReports();
    NoLines(decode, body);
    StreamAgreesWithBody(decode, body);
    var head := Sum(ReportsOf(decode, TrimSpace(body)));
    OneLineAddsNothing(decode, head, body);
    OneLineAddsNothing(decode, NewAccumulator, body);
    KeptAll([body]);
    assert Usage(NewAccumulator) == Nothing by { UsageStats(NewAccumulator); }
    AllCountsKnown(decode, TrimSpace(body));
    SumIsProper(ReportsOf(decode, TrimSpace(body)));
    OnlyNothingAddsNothing(head);
  }

  // An object line carries no payload.
  lemma {:induction false} ObjectLine(body: string)
    requires LooksLikeObject(body) && '\n' !in body
    ensures Lines(body) == [body] && Payload(body).None?
  {
    hide TrimSpace;
    FirstAt(body, '\n', |body|);
  }

  lemma {:induction false} NoLines(decode: Decoder, line: string)
    requires Payload(line).None?
    ensures AllReports(decode, [line]) == []
  {
    hide Payload;
    assert [line][..0] == [];
  }

  lemma {:induction false} AllCountsKnown(decode: Decoder, raw: string)
    requires CountsNoCalls(decode)
    ensures forall i :: 0 <= i < |ReportsOf(decode, raw)| ==> ToolCallCount !in ReportsOf(decode, raw)[i].usage.stats
  {
  }

  lemma {:induction false} OnlyNothingAddsNothing(a: Accumulator)
    requires Proper(a)
    ensures AddsNothing(a, NewAccumulator) <==> a == NewAccumulator
  {
  }

  lemma {:induction false} OneLineAddsNothing(decode: Decoder, a: Accumulator, line: string)
    requires Payload(line).None?
    ensures ProcessLines(decode, a, [line]) == a
  {
    hide Payload;
    assert [line][..0] == [];
  }
}
