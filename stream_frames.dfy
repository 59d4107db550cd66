/** The per-line and per-chunk processing of a streamed reply. Every chunk the
    reader yields is split on newlines on its own (no partial line is carried to
    the next chunk); a line that starts with the frame marker has the rest parsed,
    and the parsed payload either clears the in-flight flag (`done`) or appends
    its token to the entries carrying the placeholder id. */
module StreamFrames {
  import opened Wrappers
  import opened JsString
  import opened ChatState

  /** The marker a frame line starts with; the payload is what follows its 6 characters. */
  const DataPrefix := "data: "

  /** What `JSON.parse` of a payload, followed by reading `done` and `token`, yields.
      `Malformed`: the parse threw, or reading a field threw (a `null` payload).
      `Payload(done, token)`: `done` is the truthiness of the `done` field; `token`
      is `Some(t)` when the `token` field is truthy, `t` being what `+` appends. */
  datatype Frame = Malformed | Payload(done: bool, token: Option<string>)

  /** One line of a chunk: act on it only if it is a frame line. */
  function ProcessLine(st: Session, line: string, key: int, parse: string -> Frame): (r: Session)
    ensures r.chatId == st.chatId && |r.messages| == |st.messages|
    ensures r.loading ==> st.loading
  {
    if !StartsWith(line, DataPrefix) then st
    else
      match parse(line[6..])
      case Malformed => st
      case Payload(done, token) =>
        if done then st.(loading := false)
        else if token.Some? then st.(messages := AppendToken(st.messages, key, token.value))
        else st
  }

  /** The lines of one chunk, processed in order. */
  function FoldLines(st: Session, lines: seq<string>, key: int, parse: string -> Frame): (r: Session)
    ensures r.chatId == st.chatId && |r.messages| == |st.messages|
    ensures r.loading ==> st.loading
    decreases |lines|
  {
    if lines == [] then st
    else ProcessLine(FoldLines(st, lines[..|lines| - 1], key, parse), lines[|lines| - 1], key, parse)
  }

  /** One chunk: split on its own and its lines processed in order. */
  function ProcessChunk(st: Session, chunk: string, key: int, parse: string -> Frame): (r: Session)
    ensures r.chatId == st.chatId && |r.messages| == |st.messages|
    ensures r.loading ==> st.loading
  {
    FoldLines(st, Split(chunk, '\n'), key, parse)
  }

  /** The chunks the reader yields, processed in order. */
  function FoldChunks(st: Session, chunks: seq<string>, key: int, parse: string -> Frame): (r: Session)
    ensures r.chatId == st.chatId && |r.messages| == |st.messages|
    ensures r.loading ==> st.loading
    decreases |chunks|
  {
    if chunks == [] then st
    else ProcessChunk(FoldChunks(st, chunks[..|chunks| - 1], key, parse), chunks[|chunks| - 1], key, parse)
  }

  /** The token a line contributes: that of a frame line whose payload is not `done`; otherwise none. */
  function LineToken(line: string, parse: string -> Frame): (token: string)
    ensures IsDoneLine(line, parse) ==> token == ""
  {
    if !StartsWith(line, DataPrefix) then ""
    else
      match parse(line[6..])
      case Payload(false, Some(t)) => t
      case _ => ""
  }

  /** A frame line whose payload has a truthy `done`. */
  predicate IsDoneLine(line: string, parse: string -> Frame) {
    StartsWith(line, DataPrefix) && parse(line[6..]).Payload? && parse(line[6..]).done
  }

  /** The concatenation of the tokens of `lines`, in order. */
  function LinesTokens(lines: seq<string>, parse: string -> Frame): (tokens: string)
    ensures (forall i | 0 <= i < |lines| :: !StartsWith(lines[i], DataPrefix)) ==> tokens == ""
    decreases |lines|
  {
    if lines == [] then ""
    else LinesTokens(lines[..|lines| - 1], parse) + LineToken(lines[|lines| - 1], parse)
  }

  /** Some line of `lines` is a `done` frame. */
  predicate AnyDone(lines: seq<string>, parse: string -> Frame)
    decreases |lines|
  {
    lines != [] && (AnyDone(lines[..|lines| - 1], parse) || IsDoneLine(lines[|lines| - 1], parse))
  }

  /** The concatenation of the tokens of every chunk, each chunk split on its own. */
  function ChunksTokens(chunks: seq<string>, parse: string -> Frame): (tokens: string)
    decreases |chunks|
  {
    if chunks == [] then ""
    else ChunksTokens(chunks[..|chunks| - 1], parse) + LinesTokens(Split(chunks[|chunks| - 1], '\n'), parse)
  }

  /** Some chunk holds a `done` frame line. */
  predicate ChunksDone(chunks: seq<string>, parse: string -> Frame)
    decreases |chunks|
  {
    chunks != [] && (ChunksDone(chunks[..|chunks| - 1], parse) || AnyDone(Split(chunks[|chunks| - 1], '\n'), parse))
  }

  /** The closed form of a run of frames: `tokens` appended to the entries carrying
      `key`, and the flag cleared if a `done` frame was seen. */
  function Advance(st: Session, key: int, tokens: string, sawDone: bool): (r: Session)
    ensures r.chatId == st.chatId && |r.messages| == |st.messages|
    ensures r.loading ==> st.loading
  {
    st.(messages := AppendToken(st.messages, key, tokens), loading := st.loading && !sawDone)
  }

  /** A line that is not a frame, a payload that fails to parse, and a payload with
      neither a truthy `done` nor a truthy `token` all leave the state as it was. */
  lemma IgnoredLinesChangeNothing(st: Session, line: string, key: int, parse: string -> Frame)
    requires || !StartsWith(line, DataPrefix)
             || parse(line[6..]).Malformed?
             || parse(line[6..]) == Payload(false, None)
    ensures ProcessLine(st, line, key, parse) == st
  {
  }

  /** A `done` frame clears the flag and nothing else, even if it also carries a token. */
  lemma DoneLineOnlyClearsFlag(st: Session, line: string, key: int, parse: string -> Frame)
    requires IsDoneLine(line, parse)
    ensures ProcessLine(st, line, key, parse) == st.(loading := false)
  {
  }

  /** Processing the lines of one chunk appends the concatenation of their tokens
      to the entries carrying `key`, changes nothing else in the transcript, and
      clears the flag exactly when one of them is a `done` frame: a `done` frame
      does not stop the later lines from being processed. */
  lemma {:induction false} FoldLinesEffect(st: Session, lines: seq<string>, key: int, parse: string -> Frame)
    ensures FoldLines(st, lines, key, parse) == Advance(st, key, LinesTokens(lines, parse), AnyDone(lines, parse))
    decreases |lines|
  {
    if lines == [] {
      AppendEmptyToken(st.messages, key);
    } else {
      var init, last := lines[..|lines| - 1], lines[|lines| - 1];
      FoldLinesEffect(st, init, key, parse);
      AppendTokenTwice(st.messages, key, LinesTokens(init, parse), LineToken(last, parse));
      if LineToken(last, parse) == "" {
        AppendEmptyToken(AppendToken(st.messages, key, LinesTokens(init, parse)), key);
      }
    }
  }

  /** Over a run of chunks, the entries carrying `key` receive the tokens of every
      chunk in order, each chunk split on its own; the flag is cleared exactly when
      some chunk held a `done` frame. */
  lemma {:induction false} FoldChunksEffect(st: Session, chunks: seq<string>, key: int, parse: string -> Frame)
    ensures FoldChunks(st, chunks, key, parse) == Advance(st, key, ChunksTokens(chunks, parse), ChunksDone(chunks, parse))
    decreases |chunks|
  {
    if chunks == [] {
      AppendEmptyToken(st.messages, key);
    } else {
      var init, last := chunks[..|chunks| - 1], chunks[|chunks| - 1];
      FoldChunksEffect(st, init, key, parse);
      var mid := FoldChunks(st, init, key, parse);
      FoldLinesEffect(mid, Split(last, '\n'), key, parse);
      AppendTokenTwice(st.messages, key, ChunksTokens(init, parse), LinesTokens(Split(last, '\n'), parse));
    }
  }

  /** Processing two runs of lines one after the other is processing them as one run. */
  lemma {:induction false} FoldLinesAppend(st: Session, xs: seq<string>, ys: seq<string>, key: int, parse: string -> Frame)
    ensures FoldLines(st, xs + ys, key, parse) == FoldLines(FoldLines(st, xs, key, parse), ys, key, parse)
    decreases |ys|
  {
    if ys == [] {
      assert xs + ys == xs;
    } else {
      assert (xs + ys)[..|xs + ys| - 1] == xs + ys[..|ys| - 1];
      FoldLinesAppend(st, xs, ys[..|ys| - 1], key, parse);
    }
  }

  /** A `done` frame in the middle of a chunk clears the flag, yet the token lines
      after it are still appended: the placeholder receives the tokens of the
      lines before it followed by those of the lines after it. */
  lemma TokensAfterDoneStillAppended(st: Session, before: seq<string>, doneLine: string, after: seq<string>,
                                     key: int, parse: string -> Frame)
    requires IsDoneLine(doneLine, parse)
    ensures var r := FoldLines(st, before + [doneLine] + after, key, parse);
      && !r.loading && r.chatId == st.chatId
      && r.messages == AppendToken(st.messages, key, LinesTokens(before, parse) + LinesTokens(after, parse))
  {
    FoldLinesAppend(st, before + [doneLine], after, key, parse);
    FoldLinesAppend(st, before, [doneLine], key, parse);
    var first := FoldLines(st, before, key, parse);
    FoldLinesEffect(st, before, key, parse);
    assert [doneLine][..0] == [];
    assert FoldLines(first, [doneLine], key, parse) == first.(loading := false);
    FoldLinesEffect(first.(loading := false), after, key, parse);
    AppendTokenTwice(st.messages, key, LinesTokens(before, parse), LinesTokens(after, parse));
  }

  /** A chunk that ends on a line boundary loses nothing: processing it and then the
      next chunk is the same as processing both as one chunk. */
  lemma AlignedChunkBoundaryIsHarmless(st: Session, a: string, b: string, key: int, parse: string -> Frame)
    ensures ProcessChunk(ProcessChunk(st, a + "\n", key, parse), b, key, parse)
         == ProcessChunk(st, a + "\n" + b, key, parse)
  {
    SplitAtSeparator(a, b, '\n');
    SplitAtSeparator(a, "", '\n');
    assert a + "\n" == a + ['\n'] + "";
    assert Split("", '\n') == [""];
    var first := FoldLines(st, Split(a, '\n'), key, parse);
    FoldLinesAppend(st, Split(a, '\n'), [""], key, parse);
    assert [""][..0] == [];
    assert FoldLines(first, [""], key, parse) == first;
    FoldLinesAppend(st, Split(a, '\n'), Split(b, '\n'), key, parse);
  }

  /** A frame split across two chunks is lost. Delivered as one chunk, the line
      `data: ` + `p` is processed as a frame line, so a token payload in `p`
      reaches the placeholder; delivered as the two chunks `data: ` and `p`, each
      chunk is split on its own: the first is a frame line with an empty payload,
      which `JSON.parse` rejects, and the second is not a frame line, so the state
      is left as it was. */
  lemma FrameSplitAcrossChunksIsLost(st: Session, p: string, key: int, parse: string -> Frame)
    requires '\n' !in p && !StartsWith(p, DataPrefix) && parse("") == Malformed
    ensures FoldChunks(st, [DataPrefix, p], key, parse) == st
    ensures FoldChunks(st, [DataPrefix + p], key, parse) == ProcessLine(st, DataPrefix + p, key, parse)
    ensures parse(p).Payload? && !parse(p).done && parse(p).token.Some? ==>
              FoldChunks(st, [DataPrefix + p], key, parse) == st.(messages := AppendToken(st.messages, key, parse(p).token.value))
  {
    var line := DataPrefix + p;
    var none: seq<string> := [];
    assert [DataPrefix][..0] == none && [line][..0] == none;
    assert [DataPrefix, p][..1] == [DataPrefix];
    assert DataPrefix[6..] == "";
    OneLineChunk(st, DataPrefix, key, parse);
    assert FoldChunks(st, [DataPrefix], key, parse) == st;
    OneLineChunk(st, p, key, parse);
    assert line[..6] == DataPrefix && line[6..] == p;
    OneLineChunk(st, line, key, parse);
  }

  /** A chunk without a newline is processed as that one line. */
  lemma OneLineChunk(st: Session, line: string, key: int, parse: string -> Frame)
    requires '\n' !in line
    ensures ProcessChunk(st, line, key, parse) == ProcessLine(st, line, key, parse)
  {
    SplitWithoutSeparator(line, '\n');
    var none: seq<string> := [];
    assert [line][..0] == none;
    assert ProcessChunk(st, line, key, parse) == FoldLines(st, [line], key, parse);
    assert FoldLines(st, [line], key, parse) == ProcessLine(FoldLines(st, none, key, parse), line, key, parse);
  }
}
