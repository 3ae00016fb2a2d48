/** The streamed-response consumer of `optimizeText` (src/lib/api.ts): each decoded chunk is split
    on "\n", blank lines are dropped, `data: ` lines give a JSON payload whose delta is appended to
    the running text, and the progress callback sees the running text after every non-empty delta.
    Chunks are processed independently: a line cut between two reads is not put back together. */
module Stream {
  import opened Wrappers
  import opened Text

  const DataPrefix := "data: "
  const DoneSentinel := "[DONE]"

  /** `JSON.parse(payload).choices?.[0]?.delta?.content || ""`: `None` when the payload is not
      JSON, `Some("")` when the field is missing. */
  type DeltaParser = string -> Option<string>

  /** `chunk.split("\n").filter(line => line.trim() !== "")` */
  function ChunkLines(chunk: string): seq<string> {
    NonBlank(Split(chunk, "\n"))
  }

  /** `line.trim() === ""`, stated as: every character is whitespace (see Text.TrimEmptyIff). */
  predicate Blank(line: string) {
    forall k :: 0 <= k < |line| ==> IsWhitespace(line[k])
  }

  /** The lines that do not trim to "", in their order. */
  function NonBlank(lines: seq<string>): (r: seq<string>)
  {
    if lines == [] then []
    else (if Blank(lines[0]) then [] else [lines[0]]) + NonBlank(lines[1..])
  }

  /** The filter keeps exactly the lines that are not blank. */
  lemma {:induction false} NonBlankMembers(lines: seq<string>)
    ensures forall l :: l in NonBlank(lines) <==> l in lines && !Blank(l)
    decreases |lines|
  {
    if lines != [] {
      NonBlankMembers(lines[1..]);
      assert lines == [lines[0]] + lines[1..];
    }
  }

  /** A chunk's lines are exactly its "\n"-separated pieces that are not blank. */
  lemma ChunkLinesMembers(chunk: string)
    ensures forall l :: l in ChunkLines(chunk) <==> l in Split(chunk, "\n") && !Blank(l)
  {
    NonBlankMembers(Split(chunk, "\n"));
  }

  /** What one line adds to the accumulated text; "" when it adds nothing. */
  function LineDelta(line: string, parse: DeltaParser): string {
    if !StartsWith(line, DataPrefix) then []
    else
      var payload := line[|DataPrefix|..];
      if payload == DoneSentinel then []
      else
        match parse(payload)
        case None => []
        case Some(delta) => delta
  }

  /** A line that cannot add anything: not a `data: ` line, the `[DONE]` marker, a payload that
      fails to parse, or one whose delta is empty. */
  predicate Ignored(line: string, parse: DeltaParser) {
    || !StartsWith(line, DataPrefix)
    || line[|DataPrefix|..] == DoneSentinel
    || parse(line[|DataPrefix|..]).None?
    || parse(line[|DataPrefix|..]) == Some([])
  }

  /** The non-empty deltas of a sequence of lines, in order. */
  function LinesDeltas(lines: seq<string>, parse: DeltaParser): (ds: seq<string>)
    ensures forall k :: 0 <= k < |ds| ==> ds[k] != []
  {
    if lines == [] then []
    else
      var d := LineDelta(lines[0], parse);
      (if d == [] then [] else [d]) + LinesDeltas(lines[1..], parse)
  }

  /** The non-empty deltas of a sequence of chunks, chunk by chunk. */
  function StreamDeltas(chunks: seq<string>, parse: DeltaParser): (ds: seq<string>)
    ensures forall k :: 0 <= k < |ds| ==> ds[k] != []
  {
    if chunks == [] then []
    else StreamDeltas(chunks[..|chunks| - 1], parse) + ChunkDeltas(chunks[|chunks| - 1], parse)
  }

  /** The non-empty deltas of one chunk's lines, in order. */
  function ChunkDeltas(chunk: string, parse: DeltaParser): (ds: seq<string>)
    ensures forall k :: 0 <= k < |ds| ==> ds[k] != []
  {
    LinesDeltas(ChunkLines(chunk), parse)
  }

  /** The in-order concatenation of the deltas. */
  function Concat(parts: seq<string>): string {
    if parts == [] then [] else Concat(parts[..|parts| - 1]) + parts[|parts| - 1]
  }

  /** The running text after each delta: what the progress callback receives, one call per delta. */
  function Running(parts: seq<string>): (acc: seq<string>)
    ensures |acc| == |parts|
  {
    if parts == [] then [] else Running(parts[..|parts| - 1]) + [Concat(parts)]
  }

  /** The read loop of `optimizeText` over the decoded chunks the reader hands out until it reports
      `done`. It returns the final `fullContent` and the arguments of the progress calls in order. */
  method ReadStream(chunks: seq<string>, parse: DeltaParser) returns (fullContent: string, progress: seq<string>)
    ensures fullContent == Concat(StreamDeltas(chunks, parse))
    ensures progress == Running(StreamDeltas(chunks, parse))
  {
    fullContent := [];
    progress := [];
    ghost var deltas: seq<string> := [];
    var i := 0;
    while i < |chunks|
      invariant 0 <= i <= |chunks|
      invariant deltas == StreamDeltas(chunks[..i], parse)
      invariant fullContent == Concat(deltas)
      invariant progress == Running(deltas)
    {
      var lines := ChunkLines(chunks[i]);
      ghost var added;
      fullContent, progress, added := ReadLines(lines, parse, fullContent, progress, deltas);
      deltas := deltas + added;
      TakeOneMore(chunks, i);
      i := i + 1;
    }
    assert chunks[..i] == chunks;
  }

  /** The `for` loop over one chunk's lines: appends each non-empty delta to `fullContent` and
      records one progress call with the new text per delta. */
  method ReadLines(lines: seq<string>, parse: DeltaParser, fullContent0: string, progress0: seq<string>, ghost deltas0: seq<string>)
    returns (fullContent: string, progress: seq<string>, ghost added: seq<string>)
    requires fullContent0 == Concat(deltas0) && progress0 == Running(deltas0)
    ensures added == LinesDeltas(lines, parse)
    ensures fullContent == Concat(deltas0 + LinesDeltas(lines, parse))
    ensures progress == Running(deltas0 + LinesDeltas(lines, parse))
  {
    fullContent, progress, added := fullContent0, progress0, [];
    assert deltas0 + added == deltas0;
    var j := 0;
    while j < |lines|
      invariant 0 <= j <= |lines|
      invariant added == LinesDeltas(lines[..j], parse)
      invariant fullContent == Concat(deltas0 + added)
      invariant progress == Running(deltas0 + added)
    {
      var content := LineContent(lines[j], parse);
      ReadStep(lines, j, parse, deltas0, added);
      if content != [] {
        fullContent := fullContent + content;
        progress := progress + [fullContent];
        added := added + [content];
      }
      j := j + 1;
    }
    assert lines[..j] == lines;
  }

  /** What one pass of the line loop does to the deltas read so far, the text and the progress
      calls. */
  lemma ReadStep(lines: seq<string>, j: nat, parse: DeltaParser, deltas0: seq<string>, added: seq<string>)
    requires j < |lines| && added == LinesDeltas(lines[..j], parse)
    ensures
      var d := LineDelta(lines[j], parse);
      var next := if d == [] then added else added + [d];
      && next == LinesDeltas(lines[..j + 1], parse)
      && (d != [] ==> Concat(deltas0 + next) == Concat(deltas0 + added) + d)
      && (d != [] ==> Running(deltas0 + next) == Running(deltas0 + added) + [Concat(deltas0 + added) + d])
  {
    var d := LineDelta(lines[j], parse);
    LinesStep(lines, j, parse);
    if d != [] {
      assert deltas0 + (added + [d]) == (deltas0 + added) + [d];
      AppendDelta(deltas0 + added, d);
    }
  }

  /** The body of the `for` loop up to the `if (content)` test: the delta a line carries, or ""
      when it is not a `data: ` line, is `[DONE]`, or fails to parse (the error is only logged). */
  method LineContent(line: string, parse: DeltaParser) returns (content: string)
    ensures content == LineDelta(line, parse)
    ensures content != [] <==> !Ignored(line, parse)
    ensures content != [] ==>
              && StartsWith(line, DataPrefix) && line[|DataPrefix|..] != DoneSentinel
              && parse(line[|DataPrefix|..]) == Some(content)
  {
    content := [];
    if StartsWith(line, DataPrefix) {
      var data := line[|DataPrefix|..];
      if data != DoneSentinel {
        match parse(data)
        case None =>
        case Some(delta) => content := delta;
      }
    }
  }

  /** One more line adds its delta, if any. */
  lemma LinesStep(lines: seq<string>, j: nat, parse: DeltaParser)
    requires j < |lines|
    ensures LinesDeltas(lines[..j + 1], parse)
            == LinesDeltas(lines[..j], parse) + (if LineDelta(lines[j], parse) == [] then [] else [LineDelta(lines[j], parse)])
  {
    SingleLineDeltas(lines[j], parse);
    LinesDeltasAppend(lines[..j], [lines[j]], parse);
    TakeOneMore(lines, j);
  }

  lemma TakeOneMore<T>(s: seq<T>, j: nat)
    requires j < |s|
    ensures s[..j + 1] == s[..j] + [s[j]]
  {
  }

  lemma SingleLineDeltas(line: string, parse: DeltaParser)
    ensures LinesDeltas([line], parse) == if LineDelta(line, parse) == [] then [] else [LineDelta(line, parse)]
  {
    assert [line][1..] == [];
  }

  /** Appending one delta extends the text by it and adds one progress call with the new text. */
  lemma AppendDelta(parts: seq<string>, d: string)
    ensures Concat(parts + [d]) == Concat(parts) + d
    ensures Running(parts + [d]) == Running(parts) + [Concat(parts) + d]
  {
    assert (parts + [d])[..|parts|] == parts;
  }

  /** The deltas of two runs of lines are the deltas of their concatenation. */
  lemma {:induction false} LinesDeltasAppend(a: seq<string>, b: seq<string>, parse: DeltaParser)
    ensures LinesDeltas(a + b, parse) == LinesDeltas(a, parse) + LinesDeltas(b, parse)
    decreases |a|
  {
    HeadSplit(a, b);
    if a != [] {
      LinesDeltasAppend(a[1..], b, parse);
    }
  }

  /** How the head and the tail of a concatenation relate to its parts. */
  lemma HeadSplit<T>(a: seq<T>, b: seq<T>)
    ensures a == [] ==> a + b == b
    ensures a != [] ==> (a + b)[0] == a[0] && (a + b)[1..] == a[1..] + b
  {
  }

  /** How the last element and the rest of a concatenation relate to its parts. */
  lemma LastSplit<T>(a: seq<T>, b: seq<T>)
    ensures b == [] ==> a + b == a
    ensures b != [] ==> (a + b)[..|a + b| - 1] == a + b[..|b| - 1] && (a + b)[|a + b| - 1] == b[|b| - 1]
  {
  }

  /** The deltas of two runs of chunks are the deltas of their concatenation: nothing in one chunk,
      `[DONE]` included, stops the chunks after it from being read. */
  lemma {:induction false} StreamDeltasAppend(a: seq<string>, b: seq<string>, parse: DeltaParser)
    ensures StreamDeltas(a + b, parse) == StreamDeltas(a, parse) + StreamDeltas(b, parse)
    decreases |b|
  {
    LastSplit(a, b);
    if b != [] {
      StreamDeltasAppend(a, b[..|b| - 1], parse);
    }
  }

  /** A line that cannot add anything adds nothing. */
  lemma IgnoredAddsNothing(line: string, parse: DeltaParser)
    ensures Ignored(line, parse) <==> LineDelta(line, parse) == []
  {
  }

  /** Fault isolation: a bad, blank, non-data or `[DONE]` line among others removes nothing from
      the lines before and after it. */
  lemma IgnoredLineIsolated(before: seq<string>, line: string, after: seq<string>, parse: DeltaParser)
    requires Ignored(line, parse)
    ensures LinesDeltas(before + [line] + after, parse) == LinesDeltas(before, parse) + LinesDeltas(after, parse)
  {
    LinesDeltasAppend(before + [line], after, parse);
    LinesDeltasAppend(before, [line], parse);
  }

  /** `Blank` is what `trim() === ""` tests. */
  lemma BlankIsTrimEmpty(line: string)
    ensures Blank(line) <==> Trim(line) == []
  {
    TrimEmptyIff(line);
  }

  /** A blank line is never a `data: ` line. */
  lemma BlankIsNotData(line: string)
    requires Blank(line)
    ensures !StartsWith(line, DataPrefix)
  {
    if |line| >= |DataPrefix| {
      assert IsWhitespace(line[0]);
      assert line[..|DataPrefix|][0] == line[0];
    }
  }

  /** Dropping blank lines first changes no delta. */
  lemma {:induction false} BlankFilterInert(lines: seq<string>, parse: DeltaParser)
    ensures LinesDeltas(NonBlank(lines), parse) == LinesDeltas(lines, parse)
    decreases |lines|
  {
    if lines != [] {
      BlankFilterInert(lines[1..], parse);
      var l := lines[0];
      if Blank(l) {
        BlankIsNotData(l);
        assert NonBlank(lines) == NonBlank(lines[1..]);
      } else {
        HeadSplit([l], NonBlank(lines[1..]));
      }
    }
  }

  /** A chunk adds the deltas of its lines, in order: the text split on "\n" with nothing carried
      over from the chunk before. */
  lemma ChunkIgnoresBlankFilter(chunk: string, parse: DeltaParser)
    ensures StreamDeltas([chunk], parse) == LinesDeltas(Split(chunk, "\n"), parse)
  {
    assert [chunk][..0] == [];
    BlankFilterInert(Split(chunk, "\n"), parse);
  }

  /** The k-th progress call carries the concatenation of the first k + 1 deltas. */
  lemma {:induction false} RunningAt(parts: seq<string>, k: nat)
    requires k < |parts|
    ensures Running(parts)[k] == Concat(parts[..k + 1])
    decreases |parts|
  {
    var n := |parts| - 1;
    if k < n {
      RunningAt(parts[..n], k);
      assert parts[..n][..k + 1] == parts[..k + 1];
    } else {
      assert parts[..k + 1] == parts;
    }
  }

  /** Each progress argument is a proper prefix of the next, and the last is the final text. */
  lemma {:induction false} RunningGrows(parts: seq<string>, k: nat)
    requires forall i :: 0 <= i < |parts| ==> parts[i] != []
    requires k + 1 < |parts|
    ensures Running(parts)[k] < Running(parts)[k + 1]
    ensures Running(parts)[|parts| - 1] == Concat(parts)
  {
    RunningAt(parts, k);
    RunningAt(parts, k + 1);
    RunningAt(parts, |parts| - 1);
    assert parts[..k + 2][..k + 1] == parts[..k + 1];
    assert parts[..|parts|] == parts;
  }

  /** The text of two runs of deltas is the text of the first followed by that of the second. */
  lemma {:induction false} ConcatAppend(a: seq<string>, b: seq<string>)
    ensures Concat(a + b) == Concat(a) + Concat(b)
    decreases |b|
  {
    LastSplit(a, b);
    if b != [] {
      ConcatAppend(a, b[..|b| - 1]);
    }
  }

  /** A chunk holding one line adds that line's delta, if any. */
  lemma SingleLineChunk(line: string, parse: DeltaParser)
    requires forall k :: 0 <= k < |line| ==> line[k] != '\n'
    ensures StreamDeltas([line], parse) == LinesDeltas([line], parse)
  {
    forall i ensures !OccursAt(line, "\n", i) {
      if 0 <= i < |line| {
        assert line[i..i + 1][0] == line[i];
      }
    }
    SplitFree(line, "\n");
    ChunkIgnoresBlankFilter(line, parse);
  }

  /** A one-line chunk whose payload parses to a non-empty delta adds that delta. */
  lemma DataChunk(payload: string, parse: DeltaParser, d: string)
    requires forall k :: 0 <= k < |payload| ==> payload[k] != '\n'
    requires payload != DoneSentinel && parse(payload) == Some(d)
    ensures d != [] ==> StreamDeltas([DataPrefix + payload], parse) == [d]
    ensures d == [] ==> StreamDeltas([DataPrefix + payload], parse) == []
  {
    var line := DataPrefix + payload;
    assert line[..|DataPrefix|] == DataPrefix && line[|DataPrefix|..] == payload;
    SingleLineChunk(line, parse);
    SingleLineDeltas(line, parse);
  }

  /** A one-line chunk whose payload does not parse adds nothing. */
  lemma BadDataChunk(payload: string, parse: DeltaParser)
    requires forall k :: 0 <= k < |payload| ==> payload[k] != '\n'
    requires parse(payload) == None
    ensures StreamDeltas([DataPrefix + payload], parse) == []
  {
    var line := DataPrefix + payload;
    assert line[..|DataPrefix|] == DataPrefix && line[|DataPrefix|..] == payload;
    SingleLineChunk(line, parse);
    SingleLineDeltas(line, parse);
  }

  /** Chunks are not reassembled: a `data: ` line that arrives cut in two contributes nothing,
      although the same line in one chunk contributes its delta. */
  lemma CutLineIsLost(parse: DeltaParser, d: string)
    requires parse("{}") == Some(d) && d != [] && parse("{") == None
    ensures StreamDeltas([DataPrefix + "{}"], parse) == [d]
    ensures StreamDeltas([DataPrefix + "{", "}"], parse) == []
  {
    DataChunk("{}", parse, d);
    BadDataChunk("{", parse);
    SingleLineChunk("}", parse);
    SingleLineDeltas("}", parse);
    StreamDeltasAppend([DataPrefix + "{"], ["}"], parse);
    assert [DataPrefix + "{", "}"] == [DataPrefix + "{"] + ["}"];
  }
}
