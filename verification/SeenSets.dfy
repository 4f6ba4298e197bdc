/**
 Discovery sets. A SADD is a (key, member) pair and the Redis sets together are one set
 of such pairs, so a batch of SADDs is a union.
 */
module SeenSets {
  import opened Docs
  import opened Rollup
  import opened Tokens

  type Sadd = (string, string)

  const SEEN_RISK_CLASS := "seen:risk_class"

  function SeenBucketKey(rc: string): string { "seen:bucket:" + rc }

  function SeenSensTypeKey(rc: string, bkt: string): string { SeenSensTypeKeyOf(rc + ":" + bkt) }

  function SeenSensTypeKeyOf(rcBkt: string): string { "seen:sens_type:" + rcBkt }

  /** The three SADDs of one row. */
  function SaddsOf(d: Doc): set<Sadd> {
    if !HasGroup(d) then {}
    else {(SEEN_RISK_CLASS, d.riskClass), (SeenBucketKey(d.riskClass), d.bucket),
          (SeenSensTypeKey(d.riskClass, d.bucket), d.sensType)}
  }

  /** A row with class, bucket and type enters three sets, each under its key as readers spell it. */
  lemma SaddsSpelled(d: Doc)
    ensures SaddsOf(d) == if d.riskClass == "" || d.bucket == "" || d.sensType == "" then {}
                          else {("seen:risk_class", d.riskClass), ("seen:bucket:" + d.riskClass, d.bucket),
                                ("seen:sens_type:" + d.riskClass + ":" + d.bucket, d.sensType)}
  {
    assert "seen:sens_type:" + (d.riskClass + ":" + d.bucket) == "seen:sens_type:" + d.riskClass + ":" + d.bucket;
  }

  // ------------------------------------------------------------ the batch key

  /** The writer rebuilds the key from the first two tokens only. */
  function FirstTwo(rcBkt: string): string {
    var ts := Split(rcBkt);
    if |ts| == 1 then ts[0] + ":undefined" else ts[0] + ":" + ts[1]
  }

  lemma {:induction false} TwoTokensRejoin(s: string)
    requires Colons(s) == 1
    ensures |Split(s)| == 2 && Split(s)[0] + ":" + Split(s)[1] == s
  {
    SplitCounts(s);
    var rest := Split(s[1..]);
    if s[0] == ':' {
      SplitCounts(s[1..]);
      OneTokenIsWhole(s[1..]);
      assert s == ":" + s[1..];
    } else {
      TwoTokensRejoin(s[1..]);
      assert s == [s[0]] + s[1..];
    }
  }

  lemma LengthsOfFirstTwo(ts: seq<string>)
    requires |ts| >= 2
    ensures Lengths(ts) >= |ts[0]| + |ts[1]|
  {
    assert ts[1..][0] == ts[1];
  }

  /** Splitting the batch key recovers class and bucket exactly when neither contains a colon. */
  lemma FirstTwoExact(rc: string, bkt: string)
    ensures FirstTwo(rc + ":" + bkt) == rc + ":" + bkt <==> ':' !in rc && ':' !in bkt
  {
    var s := rc + ":" + bkt;
    ColonsAppend(rc + ":", bkt);
    ColonsAppend(rc, ":");
    assert Colons(":") == 1;
    ColonsZero(rc);
    ColonsZero(bkt);
    SplitCounts(s);
    if Colons(s) == 1 {
      TwoTokensRejoin(s);
    } else {
      LengthsOfFirstTwo(Split(s));
      assert |FirstTwo(s)| < |s|;
    }
  }

  function SaddsBySplit(d: Doc): set<Sadd> {
    if !HasGroup(d) then {}
    else {(SEEN_RISK_CLASS, d.riskClass), (SeenBucketKey(d.riskClass), d.bucket),
          (SeenSensTypeKeyOf(FirstTwo(d.riskClass + ":" + d.bucket)), d.sensType)}
  }

  predicate ColonFreeBucket(d: Doc) { ':' !in d.riskClass && ':' !in d.bucket }

  lemma KeyPrefixes(x: string, rc: string)
    ensures SeenSensTypeKeyOf(x) != SEEN_RISK_CLASS && SeenSensTypeKeyOf(x) != SeenBucketKey(rc)
  {
    assert SeenSensTypeKeyOf(x)[5] == 's' && SeenSensTypeKeyOf(x)[6] == 'e';
    assert SEEN_RISK_CLASS[5] == 'r';
    assert SeenBucketKey(rc)[5] == 'b';
  }

  lemma SaddsBySplitExact(d: Doc)
    requires HasGroup(d)
    ensures SaddsBySplit(d) == SaddsOf(d) <==> ColonFreeBucket(d)
  {
    var rcBkt := d.riskClass + ":" + d.bucket;
    FirstTwoExact(d.riskClass, d.bucket);
    KeyPrefixes(rcBkt, d.riskClass);
    if !ColonFreeBucket(d) {
      var p := (SeenSensTypeKeyOf(rcBkt), d.sensType);
      assert SeenSensTypeKeyOf(FirstTwo(rcBkt))[15..] == FirstTwo(rcBkt);
      assert SeenSensTypeKeyOf(rcBkt)[15..] == rcBkt;
      assert p in SaddsOf(d) && p !in SaddsBySplit(d);
    }
  }

  function SeenBy(docs: seq<Doc>, sadds: Doc -> set<Sadd>): set<Sadd> {
    if docs == [] then {} else SeenBy(docs[..|docs| - 1], sadds) + sadds(docs[|docs| - 1])
  }

  /** Batching and de-duplicating SADDs is invisible as long as names carry no colon. */
  lemma {:induction false} SeenSetsAgree(docs: seq<Doc>)
    requires forall d | d in docs && HasGroup(d) :: ColonFreeBucket(d)
    ensures SeenBy(docs, SaddsBySplit) == SeenBy(docs, SaddsOf)
  {
    if docs != [] {
      var rest, d := docs[..|docs| - 1], docs[|docs| - 1];
      SeenSetsAgree(rest);
      assert d in docs;
      if HasGroup(d) {
        SaddsBySplitExact(d);
      }
    }
  }
}
