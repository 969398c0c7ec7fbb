/** The token scan of one JSON payload (`handleJSON`): the MIME-type frequency
    counter and the append-only output file it updates, and when it stops. */
module PayloadScan {
  import opened Common
  import opened Text

  /** The token kinds the scan tells apart. `OtherValue` stands for every
      non-string scalar and array token; `Invalid` is the point at which the
      tokenizer raises instead of returning a token, as it does on malformed
      text and at the end of input inside an open object. */
  datatype TokenKind = StartObject | EndObject | FieldName | ValueString | OtherValue | Invalid

  /** A token with the field name the parser reports as current for it ("" when
      it reports none) and its text. */
  datatype Token = Token(kind: TokenKind, name: string, text: string)

  /** What the scan consults but does not own: the JSON tokenizer, and the MIME
      type and URL extension matchers. */
  datatype Env = Env(lex: string -> seq<Token>, mimeMatches: string -> bool, urlMatches: string -> bool)

  /** The state the scan changes: MIME type -> occurrences, and the lines of the
      output file in the order they were appended. */
  datatype Store = Store(mimeCounts: map<string, nat>, sink: seq<string>)

  /** The state after a step, with the way the step ended. */
  datatype Scanned = Scanned(store: Store, outcome: Outcome)

  function Count(counts: map<string, nat>, key: string): nat
  {
    if key in counts then counts[key] else 0
  }

  /** `addInt(key, 1)` on the counter. */
  function Bump(counts: map<string, nat>, key: string): (r: map<string, nat>)
    ensures Count(r, key) == Count(counts, key) + 1
    ensures forall k :: k != key ==> Count(r, k) == Count(counts, k)
    ensures r.Keys == counts.Keys + {key}
  {
    counts[key := Count(counts, key) + 1]
  }

  predicate IsMime(t: Token) { t.kind == ValueString && t.name == "mime" }

  predicate IsUrl(t: Token) { t.kind == ValueString && t.name == "url" }

  /** The text one match appends to the output file: the payload and a newline. */
  function Entry(json: string): string { json + "\n" }

  function Repeat(x: string, n: nat): (r: seq<string>)
    ensures |r| == n && forall i :: 0 <= i < n ==> r[i] == x
  {
    if n == 0 then [] else [x] + Repeat(x, n - 1)
  }

  /** How many appends token `t` causes: one for a matching MIME type, one for
      a matching URL. */
  function Hits(env: Env, t: Token): nat
  {
    (if IsMime(t) && env.mimeMatches(ToLower(t.text)) then 1 else 0)
    + (if IsUrl(t) && env.urlMatches(ToLower(t.text)) then 1 else 0)
  }

  /** Whether token `t` is a `mime` value that lower-cases to `key`. */
  function Tally(t: Token, key: string): nat
  {
    if IsMime(t) && ToLower(t.text) == key then 1 else 0
  }

  /** The appends caused by the tokens at positions `lo` up to `hi`. */
  function HitsIn(env: Env, toks: seq<Token>, lo: nat, hi: nat): nat
    requires lo <= hi <= |toks|
    decreases hi - lo
  {
    if lo == hi then 0 else Hits(env, toks[lo]) + HitsIn(env, toks, lo + 1, hi)
  }

  /** The `mime` values among positions `lo` up to `hi` that lower-case to `key`. */
  function TallyIn(toks: seq<Token>, key: string, lo: nat, hi: nat): nat
    requires lo <= hi <= |toks|
    decreases hi - lo
  {
    if lo == hi then 0 else Tally(toks[lo], key) + TallyIn(toks, key, lo + 1, hi)
  }

  /** The effect of one string token on the state: a `mime` value bumps the
      counter for its lower-cased value and, when that value matches, appends
      the payload; a `url` value appends the payload when its lower-cased value
      matches; every other token changes nothing. */
  function StepToken(env: Env, st: Store, json: string, t: Token): (r: Store)
    ensures r.sink == st.sink + Repeat(Entry(json), Hits(env, t))
    ensures forall k :: Count(r.mimeCounts, k) == Count(st.mimeCounts, k) + Tally(t, k)
    ensures !IsMime(t) ==> r.mimeCounts == st.mimeCounts
    ensures !IsMime(t) && !IsUrl(t) ==> r == st
  {
    if t.kind != ValueString then st
    else if t.name == "mime" then
      var mimeType := ToLower(t.text);
      var counts := Bump(st.mimeCounts, mimeType);
      if env.mimeMatches(mimeType) then Store(counts, st.sink + [Entry(json)]) else Store(counts, st.sink)
    else if t.name == "url" then
      var url := ToLower(t.text);
      if env.urlMatches(url) then Store(st.mimeCounts, st.sink + [Entry(json)]) else st
    else st
  }

  /** A token at which the scan ends: the closing `END_OBJECT`, or the point
      where the tokenizer raises. */
  predicate Stops(t: Token) { t.kind == EndObject || t.kind == Invalid }

  /** Position of the first stopping token at or after `i`, or the length
      when there is none. */
  function FirstStopFrom(toks: seq<Token>, i: nat): (r: nat)
    requires i <= |toks|
    ensures i <= r <= |toks|
    decreases |toks| - i
  {
    if i == |toks| || Stops(toks[i]) then i else FirstStopFrom(toks, i + 1)
  }

  function FirstStop(toks: seq<Token>): nat
  {
    FirstStopFrom(toks, 0)
  }

  /** FirstStop is the first stopping token: none comes before it, and it is
      one unless it is the length. */
  lemma FirstStopSound(toks: seq<Token>)
    ensures FirstStop(toks) <= |toks|
    ensures forall j :: 0 <= j < FirstStop(toks) ==> !Stops(toks[j])
    ensures FirstStop(toks) < |toks| ==> Stops(toks[FirstStop(toks)])
  {
    FirstStopFromSound(toks, 0);
  }

  lemma {:induction false} FirstStopFromSound(toks: seq<Token>, i: nat)
    requires i <= |toks|
    ensures forall j :: i <= j < FirstStopFrom(toks, i) ==> !Stops(toks[j])
    ensures FirstStopFrom(toks, i) < |toks| ==> Stops(toks[FirstStopFrom(toks, i)])
    decreases |toks| - i
  {
    if i < |toks| && !Stops(toks[i]) {
      FirstStopFromSound(toks, i + 1);
    }
  }

  /** The two ways a payload scan can fail. */
  predicate ScanError(e: Error)
  {
    e == PayloadMalformed || e == PayloadUnterminated
  }

  /** The scan loop from token `i` on: apply each token in order until the
      first `END_OBJECT` (success) or the tokenizer's failure. A stream that
      ends before any `END_OBJECT` is reported as `PayloadUnterminated`; see
      ScanAsWritten for what the loop as written does there. */
  function ScanFrom(env: Env, st: Store, json: string, toks: seq<Token>, i: nat): (r: Scanned)
    requires i <= |toks|
    ensures r.outcome.Aborted? ==> ScanError(r.outcome.error)
    decreases |toks| - i
  {
    if i == |toks| then Scanned(st, Aborted(PayloadUnterminated))
    else if toks[i].kind == EndObject then Scanned(st, Completed)
    else if toks[i].kind == Invalid then Scanned(st, Aborted(PayloadMalformed))
    else ScanFrom(env, StepToken(env, st, json, toks[i]), json, toks, i + 1)
  }

  /** The scan of a whole payload's tokens. */
  function ScanTokens(env: Env, st: Store, json: string, toks: seq<Token>): (r: Scanned)
    ensures r.outcome.Aborted? ==> ScanError(r.outcome.error)
  {
    ScanFrom(env, st, json, toks, 0)
  }

  /** How the scan ends depends only on the first stopping token: none is an
      unterminated payload, `END_OBJECT` a success, the tokenizer's failure a
      malformed payload. */
  lemma ScanOutcome(env: Env, st: Store, json: string, toks: seq<Token>)
    ensures FirstStop(toks) == |toks| ==> ScanTokens(env, st, json, toks).outcome == Aborted(PayloadUnterminated)
    ensures FirstStop(toks) < |toks| && toks[FirstStop(toks)].kind == EndObject
            ==> ScanTokens(env, st, json, toks).outcome == Completed
    ensures FirstStop(toks) < |toks| && toks[FirstStop(toks)].kind == Invalid
            ==> ScanTokens(env, st, json, toks).outcome == Aborted(PayloadMalformed)
  {
    ScanFromOutcome(env, st, json, toks, 0);
  }

  lemma {:induction false} ScanFromOutcome(env: Env, st: Store, json: string, toks: seq<Token>, i: nat)
    requires i <= |toks|
    ensures var r := ScanFrom(env, st, json, toks, i);
            var f := FirstStopFrom(toks, i);
            && (f == |toks| ==> r.outcome == Aborted(PayloadUnterminated))
            && (f < |toks| && toks[f].kind == EndObject ==> r.outcome == Completed)
            && (f < |toks| && toks[f].kind == Invalid ==> r.outcome == Aborted(PayloadMalformed))
    decreases |toks| - i
  {
    if i < |toks| && !Stops(toks[i]) {
      ScanFromOutcome(env, StepToken(env, st, json, toks[i]), json, toks, i + 1);
    }
  }

  lemma {:induction false} RepeatAdd(x: string, a: nat, b: nat)
    ensures Repeat(x, a) + Repeat(x, b) == Repeat(x, a + b)
  {
  }

  /** The whole effect of a scan, token order aside: the output file gains one
      copy of the payload per match among the tokens before the first stopping
      one (so a payload whose MIME type and URL both match is appended twice)
      and nothing else, and each counter key grows by the number of `mime`
      values among them that lower-case to it, every other key keeping its
      count. */
  lemma ScanEffects(env: Env, st: Store, json: string, toks: seq<Token>)
    ensures ScanTokens(env, st, json, toks).store.sink
         == st.sink + Repeat(Entry(json), HitsIn(env, toks, 0, FirstStop(toks)))
    ensures forall k ::
              Count(ScanTokens(env, st, json, toks).store.mimeCounts, k)
              == Count(st.mimeCounts, k) + TallyIn(toks, k, 0, FirstStop(toks))
  {
    ScanFromEffects(env, st, json, toks, 0);
  }

  lemma {:induction false} ScanFromEffects(env: Env, st: Store, json: string, toks: seq<Token>, i: nat)
    requires i <= |toks|
    ensures ScanFrom(env, st, json, toks, i).store.sink
         == st.sink + Repeat(Entry(json), HitsIn(env, toks, i, FirstStopFrom(toks, i)))
    ensures forall k ::
              Count(ScanFrom(env, st, json, toks, i).store.mimeCounts, k)
              == Count(st.mimeCounts, k) + TallyIn(toks, k, i, FirstStopFrom(toks, i))
    decreases |toks| - i
  {
    if i < |toks| && !Stops(toks[i]) {
      var t := toks[i];
      var st' := StepToken(env, st, json, t);
      var f := FirstStopFrom(toks, i + 1);
      ScanFromEffects(env, st', json, toks, i + 1);
      RepeatAdd(Entry(json), Hits(env, t), HitsIn(env, toks, i + 1, f));
      assert ScanFrom(env, st, json, toks, i).store.sink
          == st.sink + Repeat(Entry(json), Hits(env, t)) + Repeat(Entry(json), HitsIn(env, toks, i + 1, f));
    }
  }

  /** Counts never decrease and the output file only grows at its end. */
  lemma ScanOnlyGrows(env: Env, st: Store, json: string, toks: seq<Token>)
    ensures st.sink <= ScanTokens(env, st, json, toks).store.sink
    ensures forall k :: Count(st.mimeCounts, k) <= Count(ScanTokens(env, st, json, toks).store.mimeCounts, k)
  {
    ScanEffects(env, st, json, toks);
  }

  /** Nothing after the first stopping token is looked at. */
  lemma ScanIgnoresRest(env: Env, st: Store, json: string, a: seq<Token>, b: seq<Token>)
    requires FirstStop(a) < |a|
    ensures ScanTokens(env, st, json, a + b) == ScanTokens(env, st, json, a)
  {
    ScanFromIgnoresRest(env, st, json, a, b, 0);
  }

  lemma {:induction false} ScanFromIgnoresRest(env: Env, st: Store, json: string, a: seq<Token>, b: seq<Token>, i: nat)
    requires i <= |a| && FirstStopFrom(a, i) < |a|
    ensures ScanFrom(env, st, json, a + b, i) == ScanFrom(env, st, json, a, i)
    decreases |a| - i
  {
    assert (a + b)[i] == a[i];
    if !Stops(a[i]) {
      ScanFromIgnoresRest(env, StepToken(env, st, json, a[i]), json, a, b, i + 1);
    }
  }

  /** The payload `{"url": "http://EXAMPLE.com/x.PDF", "mime": "Application/PDF"}`
      as the tokenizer delivers it. */
  function ExampleTokens(): seq<Token>
  {
    [ Token(StartObject, "", ""),
      Token(FieldName, "url", "url"), Token(ValueString, "url", "http://EXAMPLE.com/x.PDF"),
      Token(FieldName, "mime", "mime"), Token(ValueString, "mime", "Application/PDF"),
      Token(EndObject, "", "") ]
  }

  /** Both values are lower-cased before they are matched and counted; the
      counter for "application/pdf" grows by exactly one and, when both
      matchers accept, the payload is appended twice, URL match first. */
  lemma ExampleScan(env: Env, st: Store, json: string)
    requires env.urlMatches("http://example.com/x.pdf") && env.mimeMatches("application/pdf")
    ensures ScanTokens(env, st, json, ExampleTokens()).outcome == Completed
    ensures Count(ScanTokens(env, st, json, ExampleTokens()).store.mimeCounts, "application/pdf")
         == Count(st.mimeCounts, "application/pdf") + 1
    ensures ScanTokens(env, st, json, ExampleTokens()).store.sink == st.sink + [Entry(json), Entry(json)]
  {
    var toks := ExampleTokens();
    LowerExample();
    var s3 := StepToken(env, st, json, toks[2]);
    assert s3 == Store(st.mimeCounts, st.sink + [Entry(json)]);
    var s5 := StepToken(env, s3, json, toks[4]);
    assert s5 == Store(Bump(st.mimeCounts, "application/pdf"), st.sink + [Entry(json), Entry(json)]);
    ScanStep(env, st, json, toks, 0);
    ScanStep(env, st, json, toks, 1);
    ScanStep(env, st, json, toks, 2);
    ScanStep(env, s3, json, toks, 3);
    ScanStep(env, s3, json, toks, 4);
  }

  lemma LowerExample()
    ensures ToLower("http://EXAMPLE.com/x.PDF") == "http://example.com/x.pdf"
    ensures ToLower("Application/PDF") == "application/pdf"
  {
  }

  /** One iteration of the scan loop on a token that does not stop it. */
  lemma ScanStep(env: Env, st: Store, json: string, toks: seq<Token>, i: nat)
    requires i < |toks| && !Stops(toks[i])
    ensures ScanFrom(env, st, json, toks, i) == ScanFrom(env, StepToken(env, st, json, toks[i]), json, toks, i + 1)
  {
  }

  // ---------------------------------------------------------------------------
  // The loop as written: `while (jp.nextToken() != END_OBJECT)` never tests for
  // the end of the input, where `nextToken()` keeps returning null.

  datatype Spin = Finished(result: Scanned) | Spinning(store: Store)

  /** The scan loop as written, run for at most `fuel` iterations from token
      index `i`; past the last token the tokenizer answers null, which is
      neither `END_OBJECT` nor a string value, so the loop goes round again. */
  function ScanAsWritten(env: Env, st: Store, json: string, toks: seq<Token>, i: nat, fuel: nat): (r: Spin)
    ensures r.Finished? ==> r.result.outcome != Aborted(PayloadUnterminated)
    ensures r.Finished? ==> i < |toks|
    decreases fuel
  {
    if fuel == 0 then Spinning(st)
    else if i >= |toks| then ScanAsWritten(env, st, json, toks, i + 1, fuel - 1)
    else if toks[i].kind == EndObject then Finished(Scanned(st, Completed))
    else if toks[i].kind == Invalid then Finished(Scanned(st, Aborted(PayloadMalformed)))
    else ScanAsWritten(env, StepToken(env, st, json, toks[i]), json, toks, i + 1, fuel - 1)
  }

  /** Without a stopping token the loop as written never finishes, however
      many iterations it is given. */
  lemma {:induction false} AsWrittenSpins(env: Env, st: Store, json: string, toks: seq<Token>, i: nat, fuel: nat)
    requires forall j :: i <= j < |toks| ==> !Stops(toks[j])
    ensures ScanAsWritten(env, st, json, toks, i, fuel).Spinning?
    decreases fuel
  {
    if fuel > 0 {
      var st' := if i >= |toks| then st else StepToken(env, st, json, toks[i]);
      AsWrittenSpins(env, st', json, toks, i + 1, fuel - 1);
    }
  }

  /** The empty payload (the line "a b ") is such an input: the loop as written
      spins forever, while ScanTokens rejects it. */
  lemma EmptyPayloadSpins(env: Env, st: Store, fuel: nat)
    ensures ScanAsWritten(env, st, "", env.lex(""), 0, fuel).Spinning? || env.lex("") != []
    ensures ScanTokens(env, st, "", []) == Scanned(st, Aborted(PayloadUnterminated))
  {
    if env.lex("") == [] {
      AsWrittenSpins(env, st, "", [], 0, fuel);
    }
  }

  /** Whenever the loop as written does finish, it ends exactly as the
      corrected scan does, so the correction only changes the inputs on which
      it would spin. */
  lemma {:induction false} AsWrittenAgrees(env: Env, st: Store, json: string, toks: seq<Token>, i: nat, fuel: nat)
    requires i <= |toks|
    requires ScanAsWritten(env, st, json, toks, i, fuel).Finished?
    ensures ScanAsWritten(env, st, json, toks, i, fuel).result == ScanFrom(env, st, json, toks, i)
    decreases fuel
  {
    assert i < |toks|;
    if !Stops(toks[i]) {
      AsWrittenAgrees(env, StepToken(env, st, json, toks[i]), json, toks, i + 1, fuel - 1);
    }
  }
}
