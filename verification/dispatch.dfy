/** The DataLoader wrapper around every batch function, reduced to what the
    loaders of graphql-gateway/src/dataloaders.js rely on: within one dispatch
    the requested keys are de-duplicated (per-request memo, keyed by the key's
    string), split into batches of at most `maxBatchSize`, and each caller
    receives the value its key got. The library's scheduling is not modelled. */
module Dispatch {
  import opened Base
  import opened Store

  /** `maxBatchSize` of the generic loaders. */
  const GenericMaxBatch: nat := 100
  /** `maxBatchSize` of the relationship loaders. */
  const RelationshipMaxBatch: nat := 50

  predicate NoDuplicates(s: seq<string>) {
    forall i, j :: 0 <= i < j < |s| ==> s[i] != s[j]
  }

  /** The keys in order of first request, each once. */
  function Distinct(keys: seq<string>): (d: seq<string>)
    ensures NoDuplicates(d)
    ensures forall k :: k in d <==> k in keys
    ensures |d| <= |keys|
    decreases |keys|
  {
    if |keys| == 0 then []
    else
      var init := Distinct(keys[..|keys| - 1]);
      var last := keys[|keys| - 1];
      assert forall k :: k in keys <==> k in keys[..|keys| - 1] || k == last;
      if last in init then init else init + [last]
  }

  /** Distinct keeps first occurrences in order: a key requested once more later changes nothing. */
  lemma DistinctIgnoresRepeats(keys: seq<string>, k: string)
    requires k in keys
    ensures Distinct(keys + [k]) == Distinct(keys)
  {
    assert (keys + [k])[..|keys|] == keys;
  }

  /** Consecutive batches of at most `max` keys. */
  function Chunks(keys: seq<string>, max: nat): (cs: seq<seq<string>>)
    requires max > 0
    ensures forall c :: c in cs ==> 0 < |c| <= max
    decreases |keys|
  {
    if |keys| == 0 then []
    else if |keys| <= max then [keys]
    else [keys[..max]] + Chunks(keys[max..], max)
  }

  function Flatten(cs: seq<seq<string>>): seq<string>
    decreases |cs|
  {
    if |cs| == 0 then [] else cs[0] + Flatten(cs[1..])
  }

  /** The batches, laid end to end, are the keys themselves. */
  lemma {:induction false} ChunksCover(keys: seq<string>, max: nat)
    requires max > 0
    ensures Flatten(Chunks(keys, max)) == keys
    decreases |keys|
  {
    if |keys| > max {
      ChunksCover(keys[max..], max);
      var cs := Chunks(keys, max);
      assert cs[1..] == Chunks(keys[max..], max);
      assert keys[..max] + keys[max..] == keys;
    } else if |keys| > 0 {
      assert Chunks(keys, max)[1..] == [];
      assert keys + [] == keys;
    }
  }

  /** What one batch function call answers for its batch: DataLoader rejects
      every key of the batch when the answer has the wrong length. */
  function Answers(batch: seq<string>, out: seq<Value>): (m: map<string, Option<Value>>)
    ensures forall k :: k in m <==> k in batch
    ensures |out| != |batch| ==> forall k :: k in m ==> m[k] == None
    decreases |batch|
  {
    if |out| != |batch| then map k | k in batch :: None
    else if |batch| == 0 then map[]
    else
      var rest := Answers(batch[..|batch| - 1], out[..|out| - 1]);
      assert forall k :: k in batch <==> k in batch[..|batch| - 1] || k == batch[|batch| - 1];
      rest[batch[|batch| - 1] := Some(out[|out| - 1])]
  }

  /** With one answer per key and no repeated key, each key gets the answer
      at its own position. */
  lemma {:induction false} AnswersAtPosition(batch: seq<string>, out: seq<Value>, j: int)
    requires NoDuplicates(batch) && |out| == |batch| && 0 <= j < |batch|
    ensures Answers(batch, out)[batch[j]] == Some(out[j])
    decreases |batch|
  {
    var n := |batch| - 1;
    if j < n {
      var init := batch[..n];
      assert init[j] == batch[j] && out[..n][j] == out[j];
      assert forall a, b :: 0 <= a < b < |init| ==> init[a] == batch[a] && init[b] == batch[b];
      AnswersAtPosition(init, out[..n], j);
      assert batch[j] != batch[n];
    }
  }

  function AnswerAll(batches: seq<seq<string>>, batchFn: seq<string> -> seq<Value>): (m: map<string, Option<Value>>)
    ensures forall k :: k in m <==> k in Flatten(batches)
    decreases |batches|
  {
    if |batches| == 0 then map[]
    else
      var rest := AnswerAll(batches[1..], batchFn);
      var here := Answers(batches[0], batchFn(batches[0]));
      assert forall k :: k in Flatten(batches) <==> k in batches[0] || k in Flatten(batches[1..]);
      rest + here
  }

  datatype Dispatched = Dispatched(batches: seq<seq<string>>, results: seq<Option<Value>>)

  /** One dispatch of the keys requested in the same tick. `None` is a
      rejected load. */
  function Dispatch(keys: seq<string>, maxBatch: nat, batchFn: seq<string> -> seq<Value>): (d: Dispatched)
    requires maxBatch > 0
    ensures |d.results| == |keys|
    ensures forall b :: b in d.batches ==> 0 < |b| <= maxBatch
  {
    var batches := Chunks(Distinct(keys), maxBatch);
    ChunksCover(Distinct(keys), maxBatch);
    var answers := AnswerAll(batches, batchFn);
    Dispatched(batches, seq(|keys|, i requires 0 <= i < |keys| => answers[keys[i]]))
  }

  /** Every requested key goes to the backend in exactly one batch position,
      however often it was requested, and callers of the same key get the same answer. */
  lemma DispatchRequestsEachKeyOnce(keys: seq<string>, maxBatch: nat, batchFn: seq<string> -> seq<Value>)
    requires maxBatch > 0
    ensures Flatten(Dispatch(keys, maxBatch, batchFn).batches) == Distinct(keys)
    ensures NoDuplicates(Flatten(Dispatch(keys, maxBatch, batchFn).batches))
    ensures forall k :: k in Flatten(Dispatch(keys, maxBatch, batchFn).batches) <==> k in keys
    ensures forall i, j :: 0 <= i < |keys| && 0 <= j < |keys| && keys[i] == keys[j] ==>
      Dispatch(keys, maxBatch, batchFn).results[i] == Dispatch(keys, maxBatch, batchFn).results[j]
  {
    ChunksCover(Distinct(keys), maxBatch);
  }

  lemma AnswerSingle(b: seq<string>, batchFn: seq<string> -> seq<Value>)
    ensures AnswerAll([b], batchFn) == Answers(b, batchFn(b))
  {
    assert [b][1..] == [];
  }

  /** When all keys fit in one batch and the batch function answers one value
      per key, each caller gets the value at its key's position in the batch. */
  lemma SingleBatchAnswers(keys: seq<string>, maxBatch: nat, batchFn: seq<string> -> seq<Value>, i: int)
    requires 0 < |Distinct(keys)| <= maxBatch
    requires |batchFn(Distinct(keys))| == |Distinct(keys)|
    requires 0 <= i < |keys|
    ensures Dispatch(keys, maxBatch, batchFn).batches == [Distinct(keys)]
    ensures exists j :: (0 <= j < |Distinct(keys)| && Distinct(keys)[j] == keys[i] &&
      Dispatch(keys, maxBatch, batchFn).results[i] == Some(batchFn(Distinct(keys))[j]))
  {
    var d := Distinct(keys);
    assert keys[i] in d;
    var j :| 0 <= j < |d| && d[j] == keys[i];
    assert Chunks(d, maxBatch) == [d];
    AnswerSingle(d, batchFn);
    var here := Answers(d, batchFn(d));
    AnswersAtPosition(d, batchFn(d), j);
    assert Dispatch(keys, maxBatch, batchFn).results[i] == here[keys[i]];
  }

  /** A worked example of DispatchRequestsEachKeyOnce: requesting `1, 2, 1, 3`
      sends the single batch `1, 2, 3`. */
  lemma RepeatedKeyBatchedOnce()
    ensures Distinct(["1", "2", "1", "3"]) == ["1", "2", "3"]
    ensures Chunks(["1", "2", "3"], GenericMaxBatch) == [["1", "2", "3"]]
  {
    assert ["1", "2", "1", "3"][..3] == ["1", "2", "1"];
    assert ["1", "2", "1"][..2] == ["1", "2"];
    assert ["1", "2"][..1] == ["1"];
    assert ["1"][..0] == [];
  }
}
