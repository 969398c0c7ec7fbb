/** The driver as the program runs it: one object holding the run's mutable
    state, whose methods update it in place, each proved against the function
    of the Pipeline or PayloadScan module that specifies it. */
module Downloader {
  import opened Common
  import opened Text
  import opened Shards
  import opened PayloadScan
  import opened Pipeline

  /** A prefix of a list, extended by the list's next element, is still a
      prefix of it. */
  lemma PrefixExtend(visited: seq<string>, urls: seq<string>)
    requires visited <= urls && |visited| < |urls|
    ensures visited + [urls[|visited|]] <= urls
  {
  }

  /** The process-wide state of a run: the MIME-type frequency counter, the
      output file (its earlier content kept, since it is only ever appended
      to), and whether the HTTP client has been closed. The tokenizer and the
      two matchers are fixed for the object's lifetime. */
  class DownloadUrlIndex {
    const env: Env
    var mimeCounts: map<string, nat>
    var sink: seq<string>
    var closed: bool

    function State(): Store
      reads this
    {
      Store(mimeCounts, sink)
    }

    constructor (env: Env, existing: seq<string>)
      ensures this.env == env
      ensures mimeCounts == map[] && sink == existing && !closed
    {
      this.env := env;
      mimeCounts := map[];
      sink := existing;
      closed := false;
    }

    /** `handleJSON`, corrected: pull tokens until `END_OBJECT`, counting
        every `mime` value and appending the payload for every matching `mime`
        or `url` value. Unlike the loop as written, which never tests for the
        end of the tokens and spins there (see ScanAsWritten and the README's
        Findings), this loop also stops at the end of the tokens and fails the
        line as an unterminated payload. */
    method HandleJson(json: string) returns (outcome: Outcome)
      modifies this`mimeCounts, this`sink
      ensures Scanned(State(), outcome) == ScanTokens(env, old(State()), json, env.lex(json))
    {
      var toks := env.lex(json);
      var i := 0;
      while true
        invariant 0 <= i <= |toks|
        invariant ScanTokens(env, old(State()), json, toks) == ScanFrom(env, State(), json, toks, i)
        decreases |toks| - i
      {
        if i == |toks| {
          outcome := Aborted(PayloadUnterminated);
          return;
        }
        var t := toks[i];
        ghost var before := State();
        i := i + 1;
        if t.kind == Invalid {
          outcome := Aborted(PayloadMalformed);
          return;
        }
        if t.kind == EndObject {
          outcome := Completed;
          return;
        }
        if t.kind == ValueString {
          if t.name == "mime" {
            var mimeType := ToLower(t.text);
            mimeCounts := Bump(mimeCounts, mimeType);
            if env.mimeMatches(mimeType) {
              sink := sink + [Entry(json)];
            }
          } else if t.name == "url" {
            var url := ToLower(t.text);
            if env.urlMatches(url) {
              sink := sink + [Entry(json)];
            }
          }
        }
        assert State() == StepToken(env, before, json, t);
      }
    }

    /** `handleInputStream`: read lines until the end of the stream, split each
        one and scan its payload, counting the lines handled. The first failure
        in the loop ends it; the client is then closed before the failure is
        passed on, and only then. A stream that cannot be opened fails before
        the loop's handler is in place and leaves the client open. */
    method HandleInputStream(src: LineSource) returns (count: nat, outcome: Outcome)
      modifies this`mimeCounts, this`sink, this`closed
      ensures var r := ProcessStream(env, old(State()), src);
              State() == r.store && count == r.count && outcome == r.outcome
      ensures closed == (old(closed) || (src.Lines? && outcome.Aborted?))
    {
      if src.OpenFailed? {
        count := 0;
        outcome := Aborted(DecodeError);
        return;
      }
      var lines := src.lines;
      count := 0;
      outcome := Completed;
      while true
        invariant count <= |lines|
        invariant closed == old(closed)
        invariant ProcessLines(env, old(State()), lines) == LinesFrom(env, State(), lines, count)
        invariant outcome == Completed
        decreases |lines| - count
      {
        if count == |lines| {
          // readLine() answers null at the end of the stream, or raises on a
          // corrupt or truncated compressed stream.
          if src.truncated {
            outcome := Aborted(DecodeError);
          }
          break;
        }
        var line := lines[count];
        var endOfUrl := IndexOf(line, ' ', 0);
        if endOfUrl == -1 {
          outcome := Aborted(NoEndOfUrl);
          break;
        }
        var endOfTimestamp := IndexOf(line, ' ', endOfUrl + 1);
        if endOfTimestamp == -1 {
          outcome := Aborted(NoEndOfTimestamp);
          break;
        }
        var json := line[endOfTimestamp + 1..];
        ghost var before := State();
        outcome := HandleJson(json);
        assert Scanned(State(), outcome) == ProcessLine(env, before, line) by {
          SplitLineScansPayload(env, before, line, endOfUrl, endOfTimestamp);
        }
        if outcome.Aborted? {
          break;
        }
        count := count + 1;
      }
      if outcome.Aborted? {
        // Stop the transfer rather than let the implicit close drain the rest
        // of the body; the failure then propagates.
        closed := true;
      }
    }

    /** `handleCDXFile`: request the shard, then run the line loop over its
        decompressed lines. */
    method HandleCdxFile(fetch: string -> Option<LineSource>, url: string) returns (outcome: Outcome)
      modifies this`mimeCounts, this`sink, this`closed
      ensures Scanned(State(), outcome) == ProcessShard(env, old(State()), fetch, url)
      ensures closed == (old(closed) || (fetch(url).Some? && fetch(url).value.Lines? && outcome.Aborted?))
    {
      var response := fetch(url);
      if response.None? {
        outcome := Aborted(TransportError);
        return;
      }
      var count;
      count, outcome := HandleInputStream(response.value);
    }

    /** `main`: the shards in ascending index order, each URL built from the
        template and the index as five zero-padded digits; the first failure
        ends the run. The client is closed when the run ends, either way. */
    method Run(fetch: string -> Option<LineSource>) returns (visited: seq<string>, outcome: Outcome)
      modifies this`mimeCounts, this`sink, this`closed
      ensures var r := RunShards(env, old(State()), fetch, ShardUrls());
              State() == r.store && |visited| == r.visited && outcome == r.outcome
      ensures visited <= ShardUrls()
      ensures closed
    {
      ghost var urls := ShardUrls();
      visited := [];
      outcome := Completed;
      var index := StartIndex;
      while index <= EndIndex
        invariant StartIndex <= index <= EndIndex + 1
        invariant |visited| == index - StartIndex
        invariant visited <= urls
        invariant RunShards(env, old(State()), fetch, urls) == RunFrom(env, State(), fetch, urls, |visited|)
        invariant outcome == Completed
        decreases EndIndex + 1 - index
      {
        var indexStr := Format05(index);
        var url := UrlPrefix + indexStr + UrlSuffix;
        assert url == urls[|visited|] by { ShardUrlsAt(index); }
        ghost var before := State();
        outcome := HandleCdxFile(fetch, url);
        RunFromStep(env, before, fetch, urls, |visited|, State(), outcome);
        PrefixExtend(visited, urls);
        visited := visited + [url];
        if outcome.Aborted? {
          break;
        }
        index := index + 1;
      }
      closed := true;
    }
  }
}
