# Common Crawl CDX index downloader: a Dafny model

`DownloadURLIndex` walks the 300 index shards of one Common Crawl crawl
(`CC-MAIN-2017-34`, shards 00000 to 00299). For each shard it:

- downloads the gzip-compressed CDX index file;
- reads its decompressed lines;
- splits each line `<urlKey> <timestamp> <payload>` at its first two spaces;
- scans the JSON payload token by token.

Every `mime` value is lower-cased and counted in a process-wide frequency
counter. A payload whose lower-cased `mime` value or `url` value matches the
configured matchers is appended, followed by a newline, to an append-only
output file. The first failure ends the run. The HTTP client is closed as
soon as a line fails, so the rest of the shard is not downloaded.

The model has seven modules:

- `Common`: the `Option`/`Result` wrappers, the error kinds, and a step's `Outcome`.
- `Text`: `String.indexOf`, ASCII lower-casing, `%05d` formatting and its decimal reading.
- `Shards`: the crawl constants, the URL template, and the shard list.
- `Record`: the split of one index line.
- `PayloadScan`: the token scan of one payload as functions, with the lemmas about its effects.
- `Pipeline`: the line loop, one shard, and the run, as functions of their inputs, with the lemmas about them.
- `Downloader`: the class `DownloadUrlIndex`. It holds the run's mutable state: the counter, the output file and the client's `closed` flag. Its methods have the same loops as the source, with one correction: the token loop of `HandleJson` also stops at the end of the tokens, where the loop as written spins (see "## Findings" and `PayloadScan.ScanAsWritten`). Each method is proved against the function that specifies it.

The rest of the environment becomes parameters:

- the JSON tokenizer and the two matchers are the fields of an `Env` value;
- the HTTP fetch of a shard is a function from URL to an optional `LineSource`;
- the decompressed stream is a `LineSource`. It is either `OpenFailed`, when building the decompressing reader raises, or `Lines`: its lines, plus a flag saying whether reading stopped on corrupt or truncated data instead of the end of the stream.

The payload is the text after the second space, and one copy of it plus a
newline is appended per match. The code appends the payload, not the whole
line (lines 136, 142).

## Model

| member | source | states |
|---|---|---|
| Text.IndexOf | src/main/java/org/dstadler/commoncrawl/index/DownloadURLIndex.java:98-100 | `indexOf(' ', from)`: -1, or a position at or after `from` that holds the character |
| Text.IndexOfFirst | src/main/java/org/dstadler/commoncrawl/index/DownloadURLIndex.java:98-100 | -1 exactly when the character does not occur from `from` on; otherwise no occurrence precedes the answer |
| Text.IndexOfAt | src/main/java/org/dstadler/commoncrawl/index/DownloadURLIndex.java:98-100 | conversely, the first occurrence from `from` on is what `indexOf` answers |
| Text.LowerChar | src/main/java/org/dstadler/commoncrawl/index/DownloadURLIndex.java:131 | a capital letter maps to its lower-case letter, every other character to itself, and no capital remains |
| Text.ToLower | src/main/java/org/dstadler/commoncrawl/index/DownloadURLIndex.java:131 | `toLowerCase()` keeps the length and lower-cases each character in place |
| Text.ToLowerCanonical | src/main/java/org/dstadler/commoncrawl/index/DownloadURLIndex.java:131-132 | lower-casing leaves no capital and is idempotent, so counter keys are canonical |
| Text.ParseDecimalDigits | src/main/java/org/dstadler/commoncrawl/index/DownloadURLIndex.java:49 | the decimal rendering of n is all digits and reads back to n |
| Text.DecimalDigitsLength | src/main/java/org/dstadler/commoncrawl/index/DownloadURLIndex.java:49 | a number below 10^k renders in at most k digits |
| Text.Format05 | src/main/java/org/dstadler/commoncrawl/index/DownloadURLIndex.java:49 | `%05d` gives at least five characters, and exactly five for every number below 100000 |
| Text.ParseDecimalBound | src/main/java/org/dstadler/commoncrawl/index/DownloadURLIndex.java:49 | k digits denote a number below 10^k |
| Text.ParseDecimalLeadingZeros | src/main/java/org/dstadler/commoncrawl/index/DownloadURLIndex.java:49 | zero padding keeps the string all digits and does not change its value |
| Text.ZerosParseToZero | src/main/java/org/dstadler/commoncrawl/index/DownloadURLIndex.java:49 | the padding itself is digits that read as zero |
| Text.Format05RoundTrip | src/main/java/org/dstadler/commoncrawl/index/DownloadURLIndex.java:49 | `%05d` gives only digits, and they read back to the number: the padding does not change the value |
| Shards.ShardIndexOf | src/main/java/org/dstadler/commoncrawl/index/DownloadURLIndex.java:36-37 | reading an index out of a URL succeeds only on the template's prefix and length, and gives a value below 100000 |
| Shards.ShardUrl | src/main/java/org/dstadler/commoncrawl/index/DownloadURLIndex.java:49-50 | a shard URL starts with the template's prefix and is at least the template plus five digits long |
| Shards.ShardUrlRoundTrip | src/main/java/org/dstadler/commoncrawl/index/DownloadURLIndex.java:49-50 | the index can be read back out of every shard URL |
| Shards.ShardUrlInjective | src/main/java/org/dstadler/commoncrawl/index/DownloadURLIndex.java:49-50 | two shard URLs are equal if and only if their indices are |
| Shards.ShardUrls | src/main/java/org/dstadler/commoncrawl/index/DownloadURLIndex.java:33-34 | the run has END_INDEX - START_INDEX + 1 shards |
| Shards.ShardUrlsAt | src/main/java/org/dstadler/commoncrawl/index/DownloadURLIndex.java:48-50 | the shard visited for `index` is the template filled with `%05d` of `index` |
| Shards.ShardUrlsAscending | src/main/java/org/dstadler/commoncrawl/index/DownloadURLIndex.java:33-37 | the run covers 300 shards, and the i-th URL names shard i (ascending, 0 to 299) |
| Record.SplitRecord | src/main/java/org/dstadler/commoncrawl/index/DownloadURLIndex.java:98-102 | the split fails only with one of the two `checkState` errors |
| Record.SplitRecordSound | src/main/java/org/dstadler/commoncrawl/index/DownloadURLIndex.java:98-102 | the line is refused for want of the end of the URL exactly when it has no space; an accepted line equals key + " " + timestamp + " " + payload, with no space in key or timestamp |
| Record.SplitRecordRejects | src/main/java/org/dstadler/commoncrawl/index/DownloadURLIndex.java:98-101 | no space gives NoEndOfUrl, exactly one space gives NoEndOfTimestamp, two or more are accepted (each an if-and-only-if) |
| Record.FirstSpace | src/main/java/org/dstadler/commoncrawl/index/DownloadURLIndex.java:98-100 | cutting after the first space found removes exactly one space |
| Record.SplitRecordJoin | src/main/java/org/dstadler/commoncrawl/index/DownloadURLIndex.java:98-102 | key, timestamp and any payload (spaces included) join into a line that splits back into exactly those parts |
| PayloadScan.Bump | src/main/java/org/dstadler/commoncrawl/index/DownloadURLIndex.java:132 | `addInt(key, 1)` raises the key's count by one, keeps every other count, and adds only that key |
| PayloadScan.StepToken | src/main/java/org/dstadler/commoncrawl/index/DownloadURLIndex.java:128-144 | one token appends the payload once per match (mime first, then url); every count grows by its tally; a token that is not a `mime` or `url` string value changes nothing |
| PayloadScan.ScanFrom | src/main/java/org/dstadler/commoncrawl/index/DownloadURLIndex.java:127-146 | the scan from any token on fails only as malformed or unterminated |
| PayloadScan.ScanTokens | src/main/java/org/dstadler/commoncrawl/index/DownloadURLIndex.java:127-146 | a payload scan fails only as malformed or unterminated |
| PayloadScan.FirstStopSound | src/main/java/org/dstadler/commoncrawl/index/DownloadURLIndex.java:127 | FirstStop is the first END_OBJECT or tokenizer failure, or the length when there is none |
| PayloadScan.ScanOutcome | src/main/java/org/dstadler/commoncrawl/index/DownloadURLIndex.java:127 | the scan completes at END_OBJECT, fails as malformed at a tokenizer failure, and fails as unterminated when no stopping token exists |
| PayloadScan.ScanEffects | src/main/java/org/dstadler/commoncrawl/index/DownloadURLIndex.java:127-146 | after a scan, the output file is the old one plus one copy of payload + "\n" per match before the first stop; each counter grows by the number of its `mime` values |
| PayloadScan.ScanOnlyGrows | src/main/java/org/dstadler/commoncrawl/index/DownloadURLIndex.java:132-142 | counts never decrease, and the output file only grows at its end |
| PayloadScan.ScanIgnoresRest | src/main/java/org/dstadler/commoncrawl/index/DownloadURLIndex.java:127 | tokens after the first stopping token are never looked at |
| PayloadScan.ExampleScan | src/main/java/org/dstadler/commoncrawl/index/DownloadURLIndex.java:128-143 | with mixed-case url and mime values that both match, the payload is appended twice and its lower-cased MIME type is counted once |
| PayloadScan.ScanAsWritten | src/main/java/org/dstadler/commoncrawl/index/DownloadURLIndex.java:127 | the loop as written, when it finishes at all, finishes on a token that exists, and never reports an unterminated payload |
| PayloadScan.AsWrittenSpins | src/main/java/org/dstadler/commoncrawl/index/DownloadURLIndex.java:127 | the loop as written never finishes on tokens without a stopping token |
| PayloadScan.EmptyPayloadSpins | src/main/java/org/dstadler/commoncrawl/index/DownloadURLIndex.java:127 | the empty payload makes the loop as written spin, while the corrected scan fails as unterminated |
| PayloadScan.AsWrittenAgrees | src/main/java/org/dstadler/commoncrawl/index/DownloadURLIndex.java:127-146 | whenever the loop as written finishes, it agrees with the corrected scan |
| Pipeline.ProcessLine | src/main/java/org/dstadler/commoncrawl/index/DownloadURLIndex.java:98-104 | one line fails only as a split error or a payload-scan error; a line that does not split fails and changes nothing |
| Pipeline.LinesFrom | src/main/java/org/dstadler/commoncrawl/index/DownloadURLIndex.java:83-114 | the loop from line i reaches a count between i and the number of lines, completes exactly when it reaches the end, and fails only with a line's own error |
| Pipeline.ProcessLines | src/main/java/org/dstadler/commoncrawl/index/DownloadURLIndex.java:83-114 | the count is at most the number of lines, equals it exactly when the loop completes, and a failure is a line's own error |
| Pipeline.MalformedLineChangesNothing | src/main/java/org/dstadler/commoncrawl/index/DownloadURLIndex.java:98-101 | a line with fewer than two spaces fails with the matching error and leaves counter and output file unchanged |
| Pipeline.WellFormedLineScansPayload | src/main/java/org/dstadler/commoncrawl/index/DownloadURLIndex.java:98-104 | a line that splits scans exactly the text after its second space |
| Pipeline.ProcessLinesAppend | src/main/java/org/dstadler/commoncrawl/index/DownloadURLIndex.java:83-114 | lines are a left-to-right fold: after a completed prefix, the rest runs on the state it left, and the counts add up |
| Pipeline.ProcessLinesAbortIgnoresRest | src/main/java/org/dstadler/commoncrawl/index/DownloadURLIndex.java:83-121 | once a prefix fails, no later line is touched |
| Pipeline.ProcessLinesAbortAt | src/main/java/org/dstadler/commoncrawl/index/DownloadURLIndex.java:83-121 | when line k fails, lines 0..k-1 all completed, and the state is theirs plus what line k did before failing |
| Pipeline.ProcessLinesOnlyGrows | src/main/java/org/dstadler/commoncrawl/index/DownloadURLIndex.java:83-121 | counts never decrease and the output file only grows, however the loop ends |
| Pipeline.ProcessStream | src/main/java/org/dstadler/commoncrawl/index/DownloadURLIndex.java:76-96 | a stream completes exactly when it opened, was not truncated and every line was handled; a failure is a line's own error or a decode error |
| Pipeline.ProcessStreamOutcome | src/main/java/org/dstadler/commoncrawl/index/DownloadURLIndex.java:76-96 | a stream that cannot be opened fails with a decode error and changes nothing; otherwise its state is its lines' state, and it ends as its lines do unless it fails with a decode error |
| Pipeline.ProcessShard | src/main/java/org/dstadler/commoncrawl/index/DownloadURLIndex.java:57-72 | one shard fails with a transport error exactly when its request fails, and then leaves the state unchanged; it completes only when its stream opened and ended cleanly |
| Pipeline.ProcessShardOnlyGrows | src/main/java/org/dstadler/commoncrawl/index/DownloadURLIndex.java:57-72 | one shard, fetched or not, never lowers a count and only appends to the output file |
| Pipeline.RunFrom | src/main/java/org/dstadler/commoncrawl/index/DownloadURLIndex.java:48-53 | the run from shard i opens between i and all shards, all of them when it completes, and at least one more when it fails |
| Pipeline.RunShards | src/main/java/org/dstadler/commoncrawl/index/DownloadURLIndex.java:48-53 | a completed run opened every shard; a failed one opened at least one |
| Pipeline.RunShardsAbortIgnoresRest | src/main/java/org/dstadler/commoncrawl/index/DownloadURLIndex.java:48-53 | after a failed shard, later shards are never requested |
| Pipeline.RunShardsOnlyGrows | src/main/java/org/dstadler/commoncrawl/index/DownloadURLIndex.java:41-55 | the counter and the output file live for the whole run: across all shards counts never decrease and the output file only grows at its end, however the run ends |
| Pipeline.RunStopsAtFailingShard | src/main/java/org/dstadler/commoncrawl/index/DownloadURLIndex.java:48-53 | a failed run failed in the last shard it opened, and all shards before it completed |
| Pipeline.ScenarioAbortsOnThirdLine | src/main/java/org/dstadler/commoncrawl/index/DownloadURLIndex.java:83-143 | two well-formed lines then one without a space: both MIME types are counted once, only the matching payload is appended, and the loop fails on the third line after two lines |
| Pipeline.ScenarioLine | src/main/java/org/dstadler/commoncrawl/index/DownloadURLIndex.java:98-137 | a line whose payload holds one lower-case `mime` value bumps its count and appends the payload exactly when the value matches |
| Downloader.DownloadUrlIndex.constructor | src/main/java/org/dstadler/commoncrawl/index/DownloadURLIndex.java:41 | the counter starts empty, and the output file keeps its earlier content |
| Downloader.DownloadUrlIndex.HandleJson | src/main/java/org/dstadler/commoncrawl/index/DownloadURLIndex.java:125-148 | the token loop, corrected to stop at the end of the tokens, leaves the state and outcome of ScanTokens on the payload's tokens |
| Downloader.DownloadUrlIndex.HandleInputStream | src/main/java/org/dstadler/commoncrawl/index/DownloadURLIndex.java:74-123 | the line loop leaves the state, count and outcome of ProcessStream; the client is closed if and only if the stream opened and the loop failed |
| Downloader.DownloadUrlIndex.HandleCdxFile | src/main/java/org/dstadler/commoncrawl/index/DownloadURLIndex.java:57-72 | one shard leaves the state of ProcessShard; the client is closed exactly when the shard was fetched, its stream opened, and its loop failed |
| Downloader.DownloadUrlIndex.Run | src/main/java/org/dstadler/commoncrawl/index/DownloadURLIndex.java:43-55 | the run leaves the state and outcome of RunShards over the 300 shard URLs; the URLs requested are a prefix of that list, in order; the client is closed at the end |

## Left out

- HTTP: the client wrapper, `execute` and `Utils.checkAndFetch` (lines 47, 60-62) are network I/O. They become the `fetch` parameter, and a failed request becomes `TransportError`. Only the client's `closed` flag is kept.
- `EntityUtils.consume` in the `finally` block (line 69) is assumed to succeed. Its failure is not modelled: after a completed loop it would fail a shard that ProcessShard reports as completed, and after a failed loop it would replace the loop's error.
- Decompression: `GZIPMembersInputStream` and the buffered reader (lines 76-79) are library code. Their output is the `LineSource` lines. A corrupt or truncated stream is modelled as the lines read before the failure, then `DecodeError`. A failure while the readers are built (an empty or non-gzip body) is `OpenFailed`: it also ends in `DecodeError`, but it happens in the resource header, outside the `try` at line 80, so the client is not closed.
- Progress reporting: the byte counters, the wall-clock and `count % 100000` log trigger, and the percentage computed in floating point (lines 82, 107-113) only produce log messages. Log output (lines 46, 58, 64, 86, 135, 141) is left out too.
- The JSON tokenizer (line 126) is the `lex` parameter. A tokenizer exception is a token of kind `Invalid`, and `getValueAsString` of a string value is the token's text.
- `MimeTypes.matches` and `Extensions.matches` are not part of this model. They are uninterpreted predicates in `Env`.
- Text.LowerChar: `toLowerCase()` is Unicode- and locale-dependent; the model lower-cases ASCII capitals only.
- Writing the output file (lines 136, 142) always succeeds in the model. A failed write, the file name (line 31) and its UTF-8 encoding are not modelled.
- Downloader.DownloadUrlIndex.HandleInputStream: `count` is unbounded, whereas the source's `int` would wrap after 2^31 - 1 lines.
- Exceptions are `Aborted` outcomes carrying an error kind. The Java exception types (`IllegalStateException` from `checkState`, `IOException`) are not distinguished beyond that.
- The `index` parameter of `handleCDXFile` and `handleInputStream` and the `length` parameter are only logged, so they are dropped.

## Findings

| source | as written | input that shows it | evidently intended | confidence | as-written member | corrected member |
|---|---|---|---|---|---|---|
| src/main/java/org/dstadler/commoncrawl/index/DownloadURLIndex.java:127 | the loop `while (jp.nextToken() != END_OBJECT)` never tests for the end of the input, where `nextToken()` keeps answering null | the line `"a b "`, whose payload is empty and yields no token; likewise a payload whose tokens end at the top level without any `END_OBJECT`, such as a bare scalar `42` or an array without objects `[1]` (end of input inside an open object makes the tokenizer raise instead) | stop at the end of the tokens and fail the line as an unterminated payload | high (not executed) | PayloadScan.EmptyPayloadSpins | PayloadScan.ScanOutcome |
