/** The line loop of one shard (`handleInputStream`) and the run over all
    shards (`main`, `handleCDXFile`), as functions of their inputs. */
module Pipeline {
  import opened Common
  import opened Text
  import opened Record
  import opened PayloadScan

  /** The decompressed content of one shard. `OpenFailed`: building the
      decompressing reader already raised (an empty or non-gzip body), which
      happens in the resource header, before the guarded block whose handler
      closes the client. `Lines`: the lines in order, and whether the read
      after the last of them failed on corrupt or truncated compressed data
      instead of reaching the end of the stream. */
  datatype LineSource =
    | OpenFailed
    | Lines(lines: seq<string>, truncated: bool)

  /** The state after a run of the line loop, the number of lines it handled
      completely, and how it ended. */
  datatype LoopResult = LoopResult(store: Store, count: nat, outcome: Outcome)

  /** The ways a single line can fail: it does not split, or its payload
      scan fails. */
  predicate LineError(e: Error)
  {
    e == NoEndOfUrl || e == NoEndOfTimestamp || ScanError(e)
  }

  /** One iteration of the line loop: split the line, then scan its payload.
      A line that does not split changes nothing. */
  function ProcessLine(env: Env, st: Store, line: string): (r: Scanned)
    ensures r.outcome.Aborted? ==> LineError(r.outcome.error)
    ensures SplitRecord(line).Failure? ==> r.store == st && r.outcome.Aborted?
  {
    match SplitRecord(line)
    case Failure(e) => Scanned(st, Aborted(e))
    case Success(rec) => ScanTokens(env, st, rec.payload, env.lex(rec.payload))
  }

  /** The line loop from line `i` on: each line in order, stopping at the
      first failure. The count is the position reached, i.e. the number of
      lines from the start that were handled completely. */
  function LinesFrom(env: Env, st: Store, lines: seq<string>, i: nat): (r: LoopResult)
    requires i <= |lines|
    ensures i <= r.count <= |lines|
    ensures r.outcome == Completed <==> r.count == |lines|
    ensures r.outcome.Aborted? ==> LineError(r.outcome.error)
    decreases |lines| - i
  {
    if i == |lines| then LoopResult(st, i, Completed)
    else
      var first := ProcessLine(env, st, lines[i]);
      if first.outcome.Aborted? then LoopResult(first.store, i, first.outcome)
      else LinesFrom(env, first.store, lines, i + 1)
  }

  /** The line loop over a sequence of lines. */
  function ProcessLines(env: Env, st: Store, lines: seq<string>): (r: LoopResult)
    ensures r.count <= |lines|
    ensures r.outcome == Completed <==> r.count == |lines|
    ensures r.outcome.Aborted? ==> LineError(r.outcome.error)
  {
    LinesFrom(env, st, lines, 0)
  }

  /** The line loop over one shard's stream, including a failure to open the
      stream and a read failure after the last line that could be read. It
      completes exactly when every line was handled and the stream ended
      cleanly; a decode error is the only failure that is not a line's own. */
  function ProcessStream(env: Env, st: Store, src: LineSource): (r: LoopResult)
    ensures src.Lines? ==> r.count <= |src.lines|
    ensures r.outcome == Completed <==> src.Lines? && !src.truncated && r.count == |src.lines|
    ensures r.outcome.Aborted? ==> LineError(r.outcome.error) || r.outcome.error == DecodeError
  {
    match src
    case OpenFailed => LoopResult(st, 0, Aborted(DecodeError))
    case Lines(lines, truncated) =>
      var r := ProcessLines(env, st, lines);
      if r.outcome == Completed && truncated then LoopResult(r.store, r.count, Aborted(DecodeError))
      else r
  }

  /** A line with fewer than two spaces is rejected before its payload is
      looked at: nothing is counted and nothing is appended. */
  lemma MalformedLineChangesNothing(env: Env, st: Store, line: string)
    requires Spaces(line) < 2
    ensures ProcessLine(env, st, line)
         == Scanned(st, Aborted(if Spaces(line) == 0 then NoEndOfUrl else NoEndOfTimestamp))
  {
    SplitRecordRejects(line);
  }

  /** A line that does split hands exactly the text after its second space
      to the scan. */
  lemma WellFormedLineScansPayload(env: Env, st: Store, key: string, ts: string, payload: string)
    requires ' ' !in key && ' ' !in ts
    ensures ProcessLine(env, st, key + " " + ts + " " + payload)
         == ScanTokens(env, st, payload, env.lex(payload))
  {
    SplitRecordJoin(key, ts, payload);
  }

  /** The line loop's own view of a line that splits: with both spaces found,
      the scan runs over the text after the second one. */
  lemma SplitLineScansPayload(env: Env, st: Store, line: string, endOfUrl: int, endOfTimestamp: int)
    requires endOfUrl == IndexOf(line, ' ', 0) && endOfUrl != -1
    requires endOfTimestamp == IndexOf(line, ' ', endOfUrl + 1) && endOfTimestamp != -1
    ensures 0 <= endOfTimestamp < |line|
    ensures ProcessLine(env, st, line)
         == ScanTokens(env, st, line[endOfTimestamp + 1..], env.lex(line[endOfTimestamp + 1..]))
  {
  }

  /** Lines are processed left to right: when a prefix completes, the rest
      continues from the state the prefix left behind. */
  lemma ProcessLinesAppend(env: Env, st: Store, a: seq<string>, b: seq<string>)
    requires ProcessLines(env, st, a).outcome == Completed
    ensures ProcessLines(env, st, a + b)
         == var r := ProcessLines(env, ProcessLines(env, st, a).store, b);
            LoopResult(r.store, |a| + r.count, r.outcome)
  {
    LinesFromPrefix(env, st, a, b, 0);
    LinesFromSuffix(env, ProcessLines(env, st, a).store, a, b, 0);
  }

  /** Running `a + b` from a position in `a` whose run over `a` completes
      reaches the start of `b` with the state that run leaves. */
  lemma {:induction false} LinesFromPrefix(env: Env, st: Store, a: seq<string>, b: seq<string>, i: nat)
    requires i <= |a| && LinesFrom(env, st, a, i).outcome == Completed
    ensures LinesFrom(env, st, a + b, i) == LinesFrom(env, LinesFrom(env, st, a, i).store, a + b, |a|)
    decreases |a| - i
  {
    if i < |a| {
      assert (a + b)[i] == a[i];
      LinesFromPrefix(env, ProcessLine(env, st, a[i]).store, a, b, i + 1);
    }
  }

  /** From the start of `b` on, running `a + b` is running `b`, the count
      shifted by `|a|`. */
  lemma {:induction false} LinesFromSuffix(env: Env, st: Store, a: seq<string>, b: seq<string>, j: nat)
    requires j <= |b|
    ensures LinesFrom(env, st, a + b, |a| + j)
         == var r := LinesFrom(env, st, b, j);
            LoopResult(r.store, |a| + r.count, r.outcome)
    decreases |b| - j
  {
    if j < |b| {
      var first := ProcessLine(env, st, b[j]);
      assert (a + b)[|a| + j] == b[j];
      if first.outcome.Completed? {
        LinesFromSuffix(env, first.store, a, b, j + 1);
      }
    }
  }

  /** Fail fast: once a prefix has failed, no later line is touched. */
  lemma ProcessLinesAbortIgnoresRest(env: Env, st: Store, a: seq<string>, b: seq<string>)
    requires ProcessLines(env, st, a).outcome.Aborted?
    ensures ProcessLines(env, st, a + b) == ProcessLines(env, st, a)
  {
    LinesFromAbortIgnoresRest(env, st, a, b, 0);
  }

  lemma {:induction false} LinesFromAbortIgnoresRest(env: Env, st: Store, a: seq<string>, b: seq<string>, i: nat)
    requires i <= |a| && LinesFrom(env, st, a, i).outcome.Aborted?
    ensures LinesFrom(env, st, a + b, i) == LinesFrom(env, st, a, i)
    decreases |a| - i
  {
    assert (a + b)[i] == a[i];
    var first := ProcessLine(env, st, a[i]);
    if first.outcome.Completed? {
      LinesFromAbortIgnoresRest(env, first.store, a, b, i + 1);
    }
  }

  /** When line k fails, the state is that left by lines 0..k-1 (which all
      completed) with the effects line k had before it failed. */
  lemma ProcessLinesAbortAt(env: Env, st: Store, lines: seq<string>)
    requires ProcessLines(env, st, lines).outcome.Aborted?
    ensures var r := ProcessLines(env, st, lines);
            var before := ProcessLines(env, st, lines[..r.count]);
            && r.count < |lines|
            && before.outcome == Completed
            && ProcessLine(env, before.store, lines[r.count]) == Scanned(r.store, r.outcome)
  {
    LinesFromAbortAt(env, st, lines, 0);
  }

  lemma {:induction false} LinesFromAbortAt(env: Env, st: Store, lines: seq<string>, i: nat)
    requires i <= |lines| && LinesFrom(env, st, lines, i).outcome.Aborted?
    ensures var r := LinesFrom(env, st, lines, i);
            var before := LinesFrom(env, st, lines[..r.count], i);
            && r.count < |lines|
            && before.outcome == Completed
            && ProcessLine(env, before.store, lines[r.count]) == Scanned(r.store, r.outcome)
    decreases |lines| - i
  {
    var r := LinesFrom(env, st, lines, i);
    var first := ProcessLine(env, st, lines[i]);
    assert lines[..r.count][i..] == lines[i..r.count];
    if first.outcome.Completed? {
      LinesFromAbortAt(env, first.store, lines, i + 1);
      assert lines[..r.count][i] == lines[i];
    }
  }

  /** Counts never decrease and the output file only grows at its end, however
      the loop ends. */
  lemma ProcessLinesOnlyGrows(env: Env, st: Store, lines: seq<string>)
    ensures st.sink <= ProcessLines(env, st, lines).store.sink
    ensures forall k :: Count(st.mimeCounts, k) <= Count(ProcessLines(env, st, lines).store.mimeCounts, k)
  {
    LinesFromOnlyGrows(env, st, lines, 0);
  }

  lemma {:induction false} LinesFromOnlyGrows(env: Env, st: Store, lines: seq<string>, i: nat)
    requires i <= |lines|
    ensures st.sink <= LinesFrom(env, st, lines, i).store.sink
    ensures forall k :: Count(st.mimeCounts, k) <= Count(LinesFrom(env, st, lines, i).store.mimeCounts, k)
    decreases |lines| - i
  {
    if i < |lines| {
      var first := ProcessLine(env, st, lines[i]);
      match SplitRecord(lines[i])
      case Failure(_) =>
      case Success(rec) => ScanOnlyGrows(env, st, rec.payload, env.lex(rec.payload));
      if first.outcome.Completed? {
        LinesFromOnlyGrows(env, first.store, lines, i + 1);
      }
    }
  }

  /** A stream that cannot be opened fails with a decode error before any
      line is read. Otherwise the state is the one its lines left, and the
      stream ends as its lines do unless a read failure follows the last line
      handled. */
  lemma ProcessStreamOutcome(env: Env, st: Store, src: LineSource)
    ensures src.OpenFailed? ==> ProcessStream(env, st, src) == LoopResult(st, 0, Aborted(DecodeError))
    ensures src.Lines? ==> ProcessStream(env, st, src).store == ProcessLines(env, st, src.lines).store
    ensures src.Lines? && ProcessStream(env, st, src).outcome != Aborted(DecodeError)
        ==> ProcessStream(env, st, src) == ProcessLines(env, st, src.lines)
  {
  }

  /** One shard of the run: fetch it, where a failed request ends the run with
      a transport error, then run the line loop over its stream. */
  function ProcessShard(env: Env, st: Store, fetch: string -> Option<LineSource>, url: string): (r: Scanned)
    ensures r.outcome == Aborted(TransportError) <==> fetch(url).None?
    ensures fetch(url).None? ==> r.store == st
    ensures r.outcome == Completed ==> fetch(url).Some? && fetch(url).value.Lines? && !fetch(url).value.truncated
  {
    match fetch(url)
    case None => Scanned(st, Aborted(TransportError))
    case Some(src) =>
      var r := ProcessStream(env, st, src);
      Scanned(r.store, r.outcome)
  }

  /** The state after the run over a list of shard URLs, how many shards it
      opened, and how it ended. */
  datatype RunResult = RunResult(store: Store, visited: nat, outcome: Outcome)

  /** The run from shard `i` of the list on: each shard in order, the first
      failure ending the whole run. `visited` is the number of shards from the
      start of the list that were opened. */
  function RunFrom(env: Env, st: Store, fetch: string -> Option<LineSource>, urls: seq<string>, i: nat): (r: RunResult)
    requires i <= |urls|
    ensures i <= r.visited <= |urls|
    ensures r.outcome == Completed ==> r.visited == |urls|
    ensures r.outcome.Aborted? ==> r.visited > i
    decreases |urls| - i
  {
    if i == |urls| then RunResult(st, i, Completed)
    else
      var first := ProcessShard(env, st, fetch, urls[i]);
      if first.outcome.Aborted? then RunResult(first.store, i + 1, first.outcome)
      else RunFrom(env, first.store, fetch, urls, i + 1)
  }

  /** The run over a list of shard URLs. */
  function RunShards(env: Env, st: Store, fetch: string -> Option<LineSource>, urls: seq<string>): (r: RunResult)
    ensures r.visited <= |urls|
    ensures r.outcome == Completed ==> r.visited == |urls|
    ensures r.outcome.Aborted? ==> r.visited >= 1
  {
    RunFrom(env, st, fetch, urls, 0)
  }

  /** One step of the run: shard `i` leaves `next` with `outcome`; a failure
      ends the run there, a success continues from the next shard. */
  lemma RunFromStep(env: Env, st: Store, fetch: string -> Option<LineSource>, urls: seq<string>, i: nat,
                    next: Store, outcome: Outcome)
    requires i < |urls| && Scanned(next, outcome) == ProcessShard(env, st, fetch, urls[i])
    ensures outcome.Aborted? ==> RunFrom(env, st, fetch, urls, i) == RunResult(next, i + 1, outcome)
    ensures outcome.Completed? ==> RunFrom(env, st, fetch, urls, i) == RunFrom(env, next, fetch, urls, i + 1)
  {
  }

  /** Once a run has failed, the shards after the failing one are never
      requested: appending more shards changes nothing. */
  lemma RunShardsAbortIgnoresRest(env: Env, st: Store, fetch: string -> Option<LineSource>,
                                  done: seq<string>, rest: seq<string>)
    requires RunShards(env, st, fetch, done).outcome.Aborted?
    ensures RunShards(env, st, fetch, done + rest) == RunShards(env, st, fetch, done)
  {
    RunFromAbortIgnoresRest(env, st, fetch, done, rest, 0);
  }

  lemma {:induction false} RunFromAbortIgnoresRest(env: Env, st: Store, fetch: string -> Option<LineSource>,
                                                   done: seq<string>, rest: seq<string>, i: nat)
    requires i <= |done| && RunFrom(env, st, fetch, done, i).outcome.Aborted?
    ensures RunFrom(env, st, fetch, done + rest, i) == RunFrom(env, st, fetch, done, i)
    decreases |done| - i
  {
    assert (done + rest)[i] == done[i];
    var first := ProcessShard(env, st, fetch, done[i]);
    if first.outcome.Completed? {
      RunFromAbortIgnoresRest(env, first.store, fetch, done, rest, i + 1);
    }
  }

  /** The counter and the output file belong to the process, not to a shard:
      across the whole run, counts never decrease and the output file only
      grows at its end, however the run ends. */
  lemma RunShardsOnlyGrows(env: Env, st: Store, fetch: string -> Option<LineSource>, urls: seq<string>)
    ensures st.sink <= RunShards(env, st, fetch, urls).store.sink
    ensures forall k :: Count(st.mimeCounts, k) <= Count(RunShards(env, st, fetch, urls).store.mimeCounts, k)
  {
    RunFromOnlyGrows(env, st, fetch, urls, 0);
  }

  lemma {:induction false} RunFromOnlyGrows(env: Env, st: Store, fetch: string -> Option<LineSource>,
                                            urls: seq<string>, i: nat)
    requires i <= |urls|
    ensures st.sink <= RunFrom(env, st, fetch, urls, i).store.sink
    ensures forall k :: Count(st.mimeCounts, k) <= Count(RunFrom(env, st, fetch, urls, i).store.mimeCounts, k)
    decreases |urls| - i
  {
    if i < |urls| {
      var first := ProcessShard(env, st, fetch, urls[i]);
      ProcessShardOnlyGrows(env, st, fetch, urls[i]);
      if first.outcome.Completed? {
        RunFromOnlyGrows(env, first.store, fetch, urls, i + 1);
      }
    }
  }

  /** One shard, fetched or not, only adds to the counter and the output file. */
  lemma ProcessShardOnlyGrows(env: Env, st: Store, fetch: string -> Option<LineSource>, url: string)
    ensures st.sink <= ProcessShard(env, st, fetch, url).store.sink
    ensures forall k :: Count(st.mimeCounts, k) <= Count(ProcessShard(env, st, fetch, url).store.mimeCounts, k)
  {
    match fetch(url)
    case None =>
    case Some(src) =>
      match src
      case OpenFailed =>
      case Lines(lines, truncated) => ProcessLinesOnlyGrows(env, st, lines);
  }

  /** When the run fails, it fails in the last shard it opened; every shard
      before it completed, and no later shard is requested. */
  lemma RunStopsAtFailingShard(env: Env, st: Store, fetch: string -> Option<LineSource>, urls: seq<string>)
    requires RunShards(env, st, fetch, urls).outcome.Aborted?
    ensures var r := RunShards(env, st, fetch, urls);
            var before := RunShards(env, st, fetch, urls[..r.visited - 1]);
            && before.outcome == Completed
            && ProcessShard(env, before.store, fetch, urls[r.visited - 1]) == Scanned(r.store, r.outcome)
  {
    RunFromStopsAtFailingShard(env, st, fetch, urls, 0);
  }

  lemma {:induction false} RunFromStopsAtFailingShard(env: Env, st: Store, fetch: string -> Option<LineSource>,
                                                      urls: seq<string>, i: nat)
    requires i <= |urls| && RunFrom(env, st, fetch, urls, i).outcome.Aborted?
    ensures var r := RunFrom(env, st, fetch, urls, i);
            var before := RunFrom(env, st, fetch, urls[..r.visited - 1], i);
            && before.outcome == Completed
            && ProcessShard(env, before.store, fetch, urls[r.visited - 1]) == Scanned(r.store, r.outcome)
    decreases |urls| - i
  {
    var first := ProcessShard(env, st, fetch, urls[i]);
    if first.outcome.Aborted? {
      FailsAtFirstShard(env, st, fetch, urls, i);
    } else {
      RunFromStopsAtFailingShard(env, first.store, fetch, urls, i + 1);
      FailsAtLaterShard(env, st, fetch, urls, i, first.store);
    }
  }

  /** A run whose shard i fails stops there, having completed the empty run
      over no further shards. */
  lemma FailsAtFirstShard(env: Env, st: Store, fetch: string -> Option<LineSource>, urls: seq<string>, i: nat)
    requires i < |urls| && ProcessShard(env, st, fetch, urls[i]).outcome.Aborted?
    ensures RunFrom(env, st, fetch, urls, i).visited == i + 1
    ensures RunFrom(env, st, fetch, urls[..i], i) == RunResult(st, i, Completed)
    ensures ProcessShard(env, st, fetch, urls[i]) == Scanned(RunFrom(env, st, fetch, urls, i).store, RunFrom(env, st, fetch, urls, i).outcome)
  {
  }

  /** A run whose shard i completes goes on from shard i + 1, over the whole
      list and over any prefix of it that still holds shard i. */
  lemma FailsAtLaterShard(env: Env, st: Store, fetch: string -> Option<LineSource>, urls: seq<string>, i: nat, next: Store)
    requires i < |urls| && ProcessShard(env, st, fetch, urls[i]) == Scanned(next, Completed)
    ensures RunFrom(env, st, fetch, urls, i) == RunFrom(env, next, fetch, urls, i + 1)
    ensures forall k :: i < k <= |urls| ==>
              RunFrom(env, st, fetch, urls[..k], i) == RunFrom(env, next, fetch, urls[..k], i + 1)
  {
    forall k | i < k <= |urls|
      ensures RunFrom(env, st, fetch, urls[..k], i) == RunFrom(env, next, fetch, urls[..k], i + 1)
    {
      assert urls[..k][i] == urls[i];
    }
  }

  // A three-line shard: two well-formed lines whose payloads carry only a
  // `mime` value, then one line without any space.

  const NoSpaceLine: string := "nospace{...}"

  /** The three lines, for any two payloads, such as `{"mime":"text/html"}`
      and `{"mime":"application/pdf"}`. */
  function ScenarioLines(htmlPayload: string, pdfPayload: string): seq<string>
  {
    ["a" + " " + "b" + " " + htmlPayload, "c" + " " + "d" + " " + pdfPayload, NoSpaceLine]
  }

  function MimeOnlyTokens(value: string): seq<Token>
  {
    [Token(StartObject, "", ""), Token(FieldName, "mime", "mime"), Token(ValueString, "mime", value), Token(EndObject, "", "")]
  }

  /** Both MIME types are counted once, the third line aborts the loop with
      the effects of the first two kept, and, with only application/pdf
      matching, the output file gains the second payload alone. */
  lemma ScenarioAbortsOnThirdLine(env: Env, st: Store, htmlPayload: string, pdfPayload: string)
    requires env.lex(htmlPayload) == MimeOnlyTokens("text/html")
    requires env.lex(pdfPayload) == MimeOnlyTokens("application/pdf")
    requires !env.mimeMatches("text/html") && env.mimeMatches("application/pdf")
    ensures ProcessLines(env, st, ScenarioLines(htmlPayload, pdfPayload)).outcome == Aborted(NoEndOfUrl)
    ensures ProcessLines(env, st, ScenarioLines(htmlPayload, pdfPayload)).count == 2
    ensures Count(ProcessLines(env, st, ScenarioLines(htmlPayload, pdfPayload)).store.mimeCounts, "text/html")
         == Count(st.mimeCounts, "text/html") + 1
    ensures Count(ProcessLines(env, st, ScenarioLines(htmlPayload, pdfPayload)).store.mimeCounts, "application/pdf")
         == Count(st.mimeCounts, "application/pdf") + 1
    ensures ProcessLines(env, st, ScenarioLines(htmlPayload, pdfPayload)).store.sink == st.sink + [Entry(pdfPayload)]
  {
    var lines := ScenarioLines(htmlPayload, pdfPayload);
    var s1 := Store(Bump(st.mimeCounts, "text/html"), st.sink);
    var s2 := Store(Bump(s1.mimeCounts, "application/pdf"), st.sink + [Entry(pdfPayload)]);
    LowerScenario();
    ScenarioLine(env, st, "a", "b", htmlPayload, "text/html");
    assert ProcessLine(env, st, lines[0]) == Scanned(s1, Completed);
    ScenarioLine(env, s1, "c", "d", pdfPayload, "application/pdf");
    assert ProcessLine(env, s1, lines[1]) == Scanned(s2, Completed);
    MalformedScenarioLine(env, s2);
    assert LinesFrom(env, s2, lines, 2) == LoopResult(s2, 2, Aborted(NoEndOfUrl));
    assert LinesFrom(env, s1, lines, 1) == LinesFrom(env, s2, lines, 2);
    assert LinesFrom(env, st, lines, 0) == LinesFrom(env, s1, lines, 1);
  }

  lemma LowerScenario()
    ensures ToLower("text/html") == "text/html"
    ensures ToLower("application/pdf") == "application/pdf"
  {
  }

  lemma MalformedScenarioLine(env: Env, st: Store)
    ensures ProcessLine(env, st, NoSpaceLine) == Scanned(st, Aborted(NoEndOfUrl))
    ensures ProcessLines(env, st, [NoSpaceLine]) == LoopResult(st, 0, Aborted(NoEndOfUrl))
  {
    assert ' ' !in NoSpaceLine;
  }

  /** A well-formed scenario line whose payload holds a single `mime` value
      that is already lower-case. */
  lemma ScenarioLine(env: Env, st: Store, key: string, ts: string, payload: string, mimeType: string)
    requires ' ' !in key && ' ' !in ts
    requires env.lex(payload) == MimeOnlyTokens(mimeType)
    requires ToLower(mimeType) == mimeType
    ensures ProcessLine(env, st, key + " " + ts + " " + payload)
         == Scanned(Store(Bump(st.mimeCounts, mimeType),
                          st.sink + if env.mimeMatches(mimeType) then [Entry(payload)] else []),
                    Completed)
  {
    WellFormedLineScansPayload(env, st, key, ts, payload);
    var toks := MimeOnlyTokens(mimeType);
    var s3 := StepToken(env, st, payload, toks[2]);
    ScanStep(env, st, payload, toks, 0);
    ScanStep(env, st, payload, toks, 1);
    ScanStep(env, st, payload, toks, 2);
  }
}
