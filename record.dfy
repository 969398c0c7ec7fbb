/** Splitting a CDX index line `<urlKey> <timestamp> <payload>` at its first
    two spaces. */
module Record {
  import opened Common
  import opened Text

  datatype CdxRecord = CdxRecord(urlKey: string, timestamp: string, payload: string)

  /** The split the line loop performs with two `indexOf(' ')` calls and one
      `substring`. A missing first space and a missing second space are the
      two `checkState` failures. */
  function SplitRecord(line: string): (r: Result<CdxRecord, Error>)
    ensures r.Failure? ==> r.error == NoEndOfUrl || r.error == NoEndOfTimestamp
  {
    var endOfUrl := IndexOf(line, ' ', 0);
    if endOfUrl == -1 then Failure(NoEndOfUrl)
    else
      var endOfTimestamp := IndexOf(line, ' ', endOfUrl + 1);
      if endOfTimestamp == -1 then Failure(NoEndOfTimestamp)
      else Success(CdxRecord(line[..endOfUrl], line[endOfUrl + 1..endOfTimestamp], line[endOfTimestamp + 1..]))
  }

  /** The split loses nothing and cuts at spaces: a line without a space is
      refused for want of the end of the URL key, and an accepted line is its
      key, a space, its timestamp, a space and its payload, where neither the
      key nor the timestamp holds a space. */
  lemma SplitRecordSound(line: string)
    ensures SplitRecord(line) == Failure(NoEndOfUrl) <==> ' ' !in line
    ensures var r := SplitRecord(line);
            r.Success? ==>
              && line == r.value.urlKey + " " + r.value.timestamp + " " + r.value.payload
              && ' ' !in r.value.urlKey && ' ' !in r.value.timestamp
  {
    var endOfUrl := IndexOf(line, ' ', 0);
    IndexOfFirst(line, ' ', 0);
    if endOfUrl != -1 {
      var endOfTimestamp := IndexOf(line, ' ', endOfUrl + 1);
      IndexOfFirst(line, ' ', endOfUrl + 1);
      if endOfTimestamp != -1 {
        var key, ts, payload := line[..endOfUrl], line[endOfUrl + 1..endOfTimestamp], line[endOfTimestamp + 1..];
        assert line == key + " " + ts + " " + payload;
      }
    }
  }

  function Spaces(s: string): nat { multiset(s)[' '] }

  /** A line is accepted exactly when it holds at least two spaces; with none
      it fails for want of the end of the URL key, with one for want of the end
      of the timestamp. */
  lemma SplitRecordRejects(line: string)
    ensures SplitRecord(line) == Failure(NoEndOfUrl) <==> Spaces(line) == 0
    ensures SplitRecord(line) == Failure(NoEndOfTimestamp) <==> Spaces(line) == 1
    ensures SplitRecord(line).Success? <==> Spaces(line) >= 2
  {
    var e := IndexOf(line, ' ', 0);
    IndexOfFirst(line, ' ', 0);
    if e == -1 {
      NoSpaceCount(line);
    } else {
      FirstSpace(line, 0, e);
      var f := IndexOf(line, ' ', e + 1);
      IndexOfFirst(line, ' ', e + 1);
      if f == -1 {
        NoSpaceCount(line[e + 1..]);
      } else {
        FirstSpace(line, e + 1, f);
      }
    }
  }

  /** Cutting a string at the first space from `from` on: the tail after it
      holds one space fewer than the part from `from`. */
  lemma FirstSpace(s: string, from: nat, e: nat)
    requires from <= e < |s| && s[e] == ' '
    requires forall i :: from <= i < e ==> s[i] != ' '
    ensures Spaces(s[from..]) == 1 + Spaces(s[e + 1..])
  {
    assert s[from..] == s[from..e] + [' '] + s[e + 1..];
    NoSpaceCount(s[from..e]);
  }

  lemma NoSpaceCount(s: string)
    ensures ' ' !in s <==> Spaces(s) == 0
  {
  }

  /** Joining a key and a timestamp that hold no space with any payload gives
      a line that splits back into exactly those three parts, whatever spaces
      the payload holds. */
  lemma SplitRecordJoin(key: string, ts: string, payload: string)
    requires ' ' !in key && ' ' !in ts
    ensures SplitRecord(key + " " + ts + " " + payload) == Success(CdxRecord(key, ts, payload))
  {
    var line := key + " " + ts + " " + payload;
    assert line[|key|] == ' ' && forall i :: 0 <= i < |key| ==> line[i] == key[i];
    IndexOfAt(line, ' ', 0, |key|);
    var f := |key| + 1 + |ts|;
    assert line[f] == ' ' && forall i :: |key| + 1 <= i < f ==> line[i] == ts[i - |key| - 1];
    IndexOfAt(line, ' ', |key| + 1, f);
    assert line[..|key|] == key;
    assert line[|key| + 1..f] == ts;
    assert line[f + 1..] == payload;
  }
}
