/** The shard range of one crawl and the URL of each shard's CDX index file. */
module Shards {
  import opened Common
  import opened Text

  const CurrentCrawl: string := "CC-MAIN-2017-34"

  /** First and last shard index of the run, both inclusive. */
  const StartIndex: nat := 0
  const EndIndex: nat := 299

  /** The URL template is `UrlPrefix + "%s" + UrlSuffix`. */
  const UrlPrefix: string :=
    "https://commoncrawl.s3.amazonaws.com/cc-index/collections/" + CurrentCrawl + "/indexes/cdx-"
  const UrlSuffix: string := ".gz"

  /** The template filled with the index rendered by `%05d`. */
  function ShardUrl(index: nat): (r: string)
    ensures |r| >= |UrlPrefix| + 5 + |UrlSuffix|
    ensures UrlPrefix <= r
  {
    UrlPrefix + Format05(index) + UrlSuffix
  }

  /** Reads the index back out of a shard URL: the five characters between the
      template's prefix and suffix, when they are all digits. */
  function ShardIndexOf(url: string): (r: Option<nat>)
    ensures r.Some? ==> |url| == |UrlPrefix| + 5 + |UrlSuffix| && url[..|UrlPrefix|] == UrlPrefix
    ensures r.Some? ==> r.value < 100000
  {
    var n := |UrlPrefix|;
    if |url| == n + 5 + |UrlSuffix| && url[..n] == UrlPrefix && url[n + 5..] == UrlSuffix
       && AllDigits(url[n..n + 5])
    then
      var digits := url[n..n + 5];
      ParseDecimalBound(digits);
      assert Pow10(5) == 100000;
      Some(ParseDecimal(digits))
    else None
  }

  /** Every shard URL carries its index as exactly five digits that read back
      to the index, so distinct shards have distinct URLs. */
  lemma ShardUrlRoundTrip(index: nat)
    requires index < 100000
    ensures ShardIndexOf(ShardUrl(index)) == Some(index)
  {
    Format05RoundTrip(index);
    var url := ShardUrl(index);
    var n := |UrlPrefix|;
    assert url[..n] == UrlPrefix;
    assert url[n..n + 5] == Format05(index);
    assert url[n + 5..] == UrlSuffix;
  }

  lemma ShardUrlInjective(i: nat, j: nat)
    requires i < 100000 && j < 100000
    ensures ShardUrl(i) == ShardUrl(j) <==> i == j
  {
    ShardUrlRoundTrip(i);
    ShardUrlRoundTrip(j);
  }

  /** The URLs of the run, in the order the run visits them. */
  function ShardUrls(): (r: seq<string>)
    ensures |r| == EndIndex + 1 - StartIndex
  {
    seq(EndIndex + 1 - StartIndex, j requires 0 <= j => ShardUrl(StartIndex + j))
  }

  /** The shard at position `index - StartIndex` of the run is the template
      filled with `index`. */
  lemma ShardUrlsAt(index: nat)
    requires StartIndex <= index <= EndIndex
    ensures ShardUrls()[index - StartIndex] == UrlPrefix + Format05(index) + UrlSuffix
  {
    assert ShardUrls()[index - StartIndex] == ShardUrl(StartIndex + (index - StartIndex));
  }

  /** The run covers the 300 indices 0..299, ascending: the i-th URL visited
      names shard i. */
  lemma ShardUrlsAscending()
    ensures |ShardUrls()| == 300
    ensures forall i :: 0 <= i < |ShardUrls()| ==> ShardIndexOf(ShardUrls()[i]) == Some(i)
  {
    forall i | 0 <= i < |ShardUrls()|
      ensures ShardIndexOf(ShardUrls()[i]) == Some(i)
    {
      ShardUrlRoundTrip(i);
    }
  }
}
