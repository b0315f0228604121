/** The token-budget batching of `sentence_chunk` (backend/test_embed.py): sentences are numbered
    `0 .. n-1`, each has a token count, consecutive sentences are packed greedily into batches whose
    token sum stays within the budget, each batch is embedded, and the stacked rows are padded or
    cut to one row per sentence. The tokenizer and the embedding model are parameters. */
module Batching {

  /** The default of `max_tokens_per_batch`. */
  const DefaultMaxTokensPerBatch: int := 1024

  /** The sentence numbers `lo, lo + 1, ..., hi - 1`. */
  function Span(lo: nat, hi: nat): (r: seq<nat>)
    requires lo <= hi
    ensures |r| == hi - lo && forall k :: 0 <= k < |r| ==> r[k] == lo + k
  {
    seq(hi - lo, k requires 0 <= k < hi - lo => lo + k)
  }

  /** One more sentence number at the end. */
  lemma SpanSnoc(lo: nat, hi: nat)
    requires lo <= hi
    ensures Span(lo, hi + 1) == Span(lo, hi) + [hi]
  {
  }

  /** All batches one after the other. */
  function Flatten(batches: seq<seq<nat>>): seq<nat>
    decreases |batches|
  {
    if batches == [] then [] else Flatten(batches[..|batches| - 1]) + batches[|batches| - 1]
  }

  predicate IndexesBelow(batch: seq<nat>, n: nat) {
    forall j :: 0 <= j < |batch| ==> batch[j] < n
  }

  /** The token sum of a batch of sentence numbers. */
  function BatchTokens(lengths: seq<nat>, batch: seq<nat>): nat
    requires IndexesBelow(batch, |lengths|)
    decreases |batch|
  {
    if batch == [] then 0 else BatchTokens(lengths, batch[..|batch| - 1]) + lengths[batch[|batch| - 1]]
  }

  /** `len(ids) if len(ids) > 0 else 1` for each sentence, from the lengths of its token ids. */
  method TokenLengths(encodedLengths: seq<nat>) returns (lengths: seq<nat>)
    ensures |lengths| == |encodedLengths|
    ensures forall i :: 0 <= i < |lengths| ==> lengths[i] >= 1
    ensures forall i :: 0 <= i < |lengths| && encodedLengths[i] > 0 ==> lengths[i] == encodedLengths[i]
    ensures forall i :: 0 <= i < |lengths| && encodedLengths[i] == 0 ==> lengths[i] == 1
  {
    lengths := [];
    var i := 0;
    while i < |encodedLengths|
      invariant 0 <= i <= |encodedLengths| && |lengths| == i
      invariant forall k :: 0 <= k < i ==> lengths[k] == if encodedLengths[k] > 0 then encodedLengths[k] else 1
    {
      lengths := lengths + [if encodedLengths[i] > 0 then encodedLengths[i] else 1];
      i := i + 1;
    }
  }

  /** What the batching promises of its closed batches, stated on the last one: it is non-empty and holds
      sentences of the input; if it is over the budget it is a single sentence that is over the budget by
      itself; the batch before it was closed only because this batch's first sentence would have pushed it
      over the budget; and the batches before it keep the promise too. */
  predicate GreedyPartition(lengths: seq<nat>, maxTokens: int, batches: seq<seq<nat>>)
    decreases |batches|
  {
    batches == [] ||
    var m := |batches| - 1;
    var last := batches[m];
    && GreedyPartition(lengths, maxTokens, batches[..m])
    && |last| > 0 && IndexesBelow(last, |lengths|)
    && (BatchTokens(lengths, last) > maxTokens ==> |last| == 1 && lengths[last[0]] > maxTokens)
    && (m > 0 ==> IndexesBelow(batches[m - 1], |lengths|)
                  && BatchTokens(lengths, batches[m - 1]) + lengths[last[0]] > maxTokens)
  }

  /** The promise batch by batch: every batch is non-empty and holds sentences of the input, a batch over
      the budget is a single sentence over the budget by itself, and every batch but the last was closed
      only because the first sentence of the next would have pushed it over the budget. */
  lemma {:induction false} GreedyPartitionEach(lengths: seq<nat>, maxTokens: int, batches: seq<seq<nat>>, k: nat)
    requires GreedyPartition(lengths, maxTokens, batches) && k < |batches|
    ensures |batches[k]| > 0 && IndexesBelow(batches[k], |lengths|)
    ensures BatchTokens(lengths, batches[k]) > maxTokens ==> |batches[k]| == 1 && lengths[batches[k][0]] > maxTokens
    ensures k + 1 < |batches| ==>
      (|batches[k + 1]| > 0 && IndexesBelow(batches[k + 1], |lengths|)
       && BatchTokens(lengths, batches[k]) + lengths[batches[k + 1][0]] > maxTokens)
    decreases |batches|
  {
    var m := |batches| - 1;
    if k < m {
      var front := batches[..m];
      assert front[k] == batches[k];
      GreedyPartitionEach(lengths, maxTokens, front, k);
      if k + 1 < m {
        assert front[k + 1] == batches[k + 1];
      }
    }
  }

  /** Closing the open batch keeps the promise, provided the open batch respects the budget unless it is
      a single sentence, and the previous batch was closed because of its first sentence. */
  lemma CloseBatch(lengths: seq<nat>, maxTokens: int, batches: seq<seq<nat>>, cur: seq<nat>)
    requires GreedyPartition(lengths, maxTokens, batches)
    requires |cur| > 0 && IndexesBelow(cur, |lengths|)
    requires |cur| > 1 ==> BatchTokens(lengths, cur) <= maxTokens
    requires batches != [] ==>
      (IndexesBelow(batches[|batches| - 1], |lengths|)
       && BatchTokens(lengths, batches[|batches| - 1]) + lengths[cur[0]] > maxTokens)
    ensures GreedyPartition(lengths, maxTokens, batches + [cur])
    ensures Flatten(batches + [cur]) == Flatten(batches) + cur
  {
    var t := batches + [cur];
    assert t[..|batches|] == batches;
    if |cur| == 1 {
      assert cur[..0] == [];
    }
  }

  /** The state of the batching loop after the first `i` sentences: the closed batches and the open
      batch `cur` (with token sum `curTokens`) hold those sentences in order; the open batch respects the
      budget unless it is a single sentence; the closed batches keep the promise; and the last closed
      batch was closed because of the first sentence of the open one. */
  predicate Progress(lengths: seq<nat>, maxTokens: int, batches: seq<seq<nat>>, cur: seq<nat>,
                     curTokens: nat, i: nat) {
    && i <= |lengths|
    && Flatten(batches) + cur == Span(0, i)
    && IndexesBelow(cur, |lengths|) && curTokens == BatchTokens(lengths, cur)
    && (cur == [] <==> i == 0)
    && (|cur| > 1 ==> curTokens <= maxTokens)
    && GreedyPartition(lengths, maxTokens, batches)
    && (batches != [] && cur != [] ==>
          (IndexesBelow(batches[|batches| - 1], |lengths|)
           && BatchTokens(lengths, batches[|batches| - 1]) + lengths[cur[0]] > maxTokens))
  }

  /** Sentence `i` would push the open batch over the budget: the batch is closed and `i` opens the next. */
  lemma StepClose(lengths: seq<nat>, maxTokens: int, batches: seq<seq<nat>>, cur: seq<nat>, curTokens: nat, i: nat)
    requires Progress(lengths, maxTokens, batches, cur, curTokens, i) && i < |lengths|
    requires curTokens + lengths[i] > maxTokens && |cur| > 0
    ensures Progress(lengths, maxTokens, batches + [cur], [i], lengths[i], i + 1)
  {
    CloseBatch(lengths, maxTokens, batches, cur);
    SpanSnoc(0, i);
    assert [i][..0] == [];
    assert (batches + [cur])[|batches|] == cur;
  }

  /** Sentence `i` joins the open batch. */
  lemma StepExtend(lengths: seq<nat>, maxTokens: int, batches: seq<seq<nat>>, cur: seq<nat>, curTokens: nat, i: nat)
    requires Progress(lengths, maxTokens, batches, cur, curTokens, i) && i < |lengths|
    requires !(curTokens + lengths[i] > maxTokens && |cur| > 0)
    ensures Progress(lengths, maxTokens, batches, cur + [i], curTokens + lengths[i], i + 1)
  {
    SpanSnoc(0, i);
    assert (cur + [i])[..|cur|] == cur;
    if cur != [] {
      assert (cur + [i])[0] == cur[0];
    }
  }

  /** After the last sentence the open batch, if any, is closed, and the batches cover every sentence;
      with no sentences there are no batches. */
  lemma FinishBatches(lengths: seq<nat>, maxTokens: int, batches: seq<seq<nat>>, cur: seq<nat>, curTokens: nat)
    requires Progress(lengths, maxTokens, batches, cur, curTokens, |lengths|)
    ensures GreedyOutcome(lengths, maxTokens, if |cur| > 0 then batches + [cur] else batches)
  {
    if |cur| > 0 {
      CloseBatch(lengths, maxTokens, batches, cur);
    } else {
      assert Flatten(batches) == Span(0, |lengths|);
    }
  }

  /** Batches that cover the sentences in order and keep the promise; none for no sentences. */
  predicate GreedyOutcome(lengths: seq<nat>, maxTokens: int, r: seq<seq<nat>>) {
    && Flatten(r) == Span(0, |lengths|)
    && GreedyPartition(lengths, maxTokens, r)
    && (|lengths| == 0 ==> r == [])
  }

  /** The greedy batching loop. A sentence joins the open batch unless that would push the batch's token
      sum over `maxTokens` and the batch already holds a sentence; then the open batch is closed and the
      sentence opens the next one. */
  method GreedyBatches(lengths: seq<nat>, maxTokens: int) returns (batches: seq<seq<nat>>)
    ensures GreedyOutcome(lengths, maxTokens, batches)
  {
    batches := [];
    var cur: seq<nat> := [];
    var curTokens: nat := 0;
    var i: nat := 0;
    assert Span(0, 0) == [];
    while i < |lengths|
      invariant Progress(lengths, maxTokens, batches, cur, curTokens, i)
    {
      if curTokens + lengths[i] > maxTokens && |cur| > 0 {
        StepClose(lengths, maxTokens, batches, cur, curTokens, i);
        batches, cur, curTokens := batches + [cur], [i], lengths[i];
      } else {
        StepExtend(lengths, maxTokens, batches, cur, curTokens, i);
        cur, curTokens := cur + [i], curTokens + lengths[i];
      }
      i := i + 1;
    }
    FinishBatches(lengths, maxTokens, batches, cur, curTokens);
    if |cur| > 0 {
      batches := batches + [cur];
    }
  }

  /** The final sanity step: the stacked rows padded with zero rows, or cut, to exactly `n` rows. */
  function PadOrTruncate<R>(rows: seq<R>, n: nat, zero: R): (r: seq<R>)
    ensures |r| == n
    ensures forall i :: 0 <= i < n && i < |rows| ==> r[i] == rows[i]
    ensures forall i :: |rows| <= i < n ==> r[i] == zero
  {
    if |rows| < n then rows + seq(n - |rows|, _ => zero) else rows[..n]
  }

  /** `np.vstack` of the per-batch embeddings, batch after batch. */
  function Stack<R>(encode: seq<nat> -> seq<R>, batches: seq<seq<nat>>): seq<R>
    decreases |batches|
  {
    if batches == [] then [] else Stack(encode, batches[..|batches| - 1]) + encode(batches[|batches| - 1])
  }

  /** An encoder that embeds each sentence of a batch by itself, as `f`, one row per sentence. */
  ghost predicate RowWise<R>(encode: seq<nat> -> seq<R>, f: nat -> R) {
    forall b :: encode(b) == seq(|b|, j requires 0 <= j < |b| => f(b[j]))
  }

  /** With a row-wise encoder the stacked rows are the sentences' own rows, in batch order. */
  lemma {:induction false} StackRowWise<R>(encode: seq<nat> -> seq<R>, f: nat -> R, batches: seq<seq<nat>>)
    requires RowWise(encode, f)
    ensures var flat := Flatten(batches);
      Stack(encode, batches) == seq(|flat|, k requires 0 <= k < |flat| => f(flat[k]))
    decreases |batches|
  {
    if batches != [] {
      var m := |batches| - 1;
      StackRowWise(encode, f, batches[..m]);
      var front, last := Flatten(batches[..m]), batches[m];
      assert encode(last) == seq(|last|, j requires 0 <= j < |last| => f(last[j]));
      var flat := front + last;
      assert Flatten(batches) == flat;
      assert Stack(encode, batches)
        == seq(|front|, k requires 0 <= k < |front| => f(front[k])) + seq(|last|, j requires 0 <= j < |last| => f(last[j]));
    }
  }

  /** `sentence_chunk` after sentence splitting: no sentences give no rows; otherwise the token lengths,
      the greedy batches, one encoder call per batch, and pad or cut to one row per sentence. With a
      row-wise encoder every sentence gets its own row, whatever the budget. */
  method SentenceChunk<R>(encodedLengths: seq<nat>, maxTokens: int, encode: seq<nat> -> seq<R>, zero: R)
    returns (rows: seq<R>)
    ensures |rows| == |encodedLengths|
    ensures forall f: nat -> R :: RowWise(encode, f) ==>
      forall i :: 0 <= i < |encodedLengths| ==> rows[i] == f(i)
  {
    var n := |encodedLengths|;
    if n == 0 {
      return [];
    }
    var lengths := TokenLengths(encodedLengths);
    var batches := GreedyBatches(lengths, maxTokens);
    var stacked: seq<R> := [];
    var k := 0;
    while k < |batches|
      invariant 0 <= k <= |batches|
      invariant stacked == Stack(encode, batches[..k])
    {
      assert batches[..k + 1][..k] == batches[..k];
      stacked := stacked + encode(batches[k]);
      k := k + 1;
    }
    assert batches[..k] == batches;
    rows := PadOrTruncate(stacked, n, zero);
    forall f: nat -> R | RowWise(encode, f) ensures forall i :: 0 <= i < n ==> rows[i] == f(i) {
      StackRowWise(encode, f, batches);
    }
  }
}
