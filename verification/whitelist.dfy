/** The class whitelist applied to every frame before anything else sees
    the detections (`OBJECT_LIST` and the first loop of `trackResults`). */
module Whitelist {
  import opened Geometry
  import Seqs

  /** The seven traffic-relevant labels, in the order of `MultiBoxTracker.java`; the order
      matters because the alert rules address labels by position. */
  const ObjectList: seq<string> :=
    ["person", "motorcycle", "bus", "car", "truck", "bikerider", "bollard"]

  /** `DETECT_OBJECT_LIST.indexOf(title) >= 0`: `indexOf` compares with
      `equals`, so membership is by value. */
  predicate IsWhitelisted(r: Recognition) { r.title in ObjectList }

  /** The recognitions kept for tracking and alerting, in input order. */
  function Whitelisted(results: seq<Recognition>): (kept: seq<Recognition>)
    ensures |kept| <= |results|
    ensures forall r :: r in kept <==> r in results && r.title in ObjectList
  {
    Seqs.Filter(IsWhitelisted, results)
  }

  /** The loop of `trackResults`: walk the batch by index and append each
      recognition whose title is whitelisted to a fresh list. */
  method FilterResults(results: seq<Recognition>) returns (tmp: seq<Recognition>)
    ensures tmp == Whitelisted(results)
  {
    tmp := [];
    var i := 0;
    while i < |results|
      invariant 0 <= i <= |results|
      invariant tmp == Whitelisted(results[..i])
    {
      var recog := results[i];
      Seqs.FilterSnoc(IsWhitelisted, results[..i], recog);
      assert results[..i + 1] == results[..i] + [recog];
      if recog.title in ObjectList {
        tmp := tmp + [recog];
      }
      i := i + 1;
    }
    assert results[..i] == results;
  }

  /** Order preservation: filtering two consecutive stretches of a batch
      separately and concatenating gives the filtered batch. */
  lemma WhitelistedAppend(a: seq<Recognition>, b: seq<Recognition>)
    ensures Whitelisted(a + b) == Whitelisted(a) + Whitelisted(b)
  {
    Seqs.FilterAppend(IsWhitelisted, a, b);
  }

  /** Nothing outside the whitelist survives, so a second pass keeps everything. */
  lemma WhitelistedIdempotent(results: seq<Recognition>)
    ensures Whitelisted(Whitelisted(results)) == Whitelisted(results)
  {
    Seqs.FilterIdempotent(IsWhitelisted, results);
  }
}
