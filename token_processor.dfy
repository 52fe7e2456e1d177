/** The token batcher of `server/src/data/token_processor.py`: a finite token stream is
    cut into batches of `batch_size`, each batch is stripped and cleared of empty tokens,
    and a hard limit on the number of tokens stops the stream with an error. */
module TokenBatching {
  import opened Wrappers
  import opened Constants
  import PyText

  /** The `TokenizationError` raised by the stream. */
  datatype TokenError = TokenError(message: string, code: ErrorCode, limit: int, received: int)

  /** `get_metrics()`: the counters and their average. */
  datatype Metrics = Metrics(processed: nat, dropped: nat, totalBatches: nat, averageBatchSize: real)

  /** The batch length at which `len(batch) >= batch_size` first holds: a size below 1
      closes a batch after every token. */
  function EffectiveSize(batchSize: int): (n: nat)
    ensures 1 <= n
    ensures 1 <= batchSize ==> n == batchSize
  {
    if batchSize < 1 then 1 else batchSize
  }

  /** What `[t.strip() for t in batch if t.strip()]` keeps of one token. */
  function Kept(t: string): (r: seq<string>)
    ensures |r| <= 1
    ensures r == [] <==> PyText.AllSpace(t)
  {
    var u := PyText.Strip(t);
    if u != [] then [u] else []
  }

  /** `[t.strip() for t in batch if t.strip()]` */
  function Cleaned(batch: seq<string>): (r: seq<string>)
    ensures |r| <= |batch|
    ensures forall i :: 0 <= i < |r| ==> r[i] != []
  {
    if batch == [] then [] else Kept(batch[0]) + Cleaned(batch[1..])
  }

  /** Cleaning is done token by token, so it distributes over concatenation. */
  lemma {:induction false} CleanedConcat(a: seq<string>, b: seq<string>)
    ensures Cleaned(a + b) == Cleaned(a) + Cleaned(b)
    decreases |a|
  {
    if a == [] {
      assert a + b == b;
    } else {
      var ab := a + b;
      assert ab[0] == a[0];
      assert ab[1..] == a[1..] + b;
      CleanedConcat(a[1..], b);
      calc {
        Cleaned(ab);
        Kept(a[0]) + Cleaned(a[1..] + b);
        Kept(a[0]) + (Cleaned(a[1..]) + Cleaned(b));
        (Kept(a[0]) + Cleaned(a[1..])) + Cleaned(b);
      }
    }
  }

  /** A token survives cleaning exactly when it is not all white space. */
  lemma CleanedSingle(t: string)
    ensures Cleaned([t]) == if PyText.AllSpace(t) then [] else [PyText.Strip(t)]
  {
    assert [t][1..] == [];
    assert Cleaned([t]) == Kept(t);
  }

  function Flatten(ss: seq<seq<string>>): (r: seq<string>)
  {
    if ss == [] then [] else ss[0] + Flatten(ss[1..])
  }

  lemma {:induction false} FlattenAppend(a: seq<seq<string>>, b: seq<seq<string>>)
    ensures Flatten(a + b) == Flatten(a) + Flatten(b)
    decreases |a|
  {
    if a == [] {
      assert a + b == b;
    } else {
      assert (a + b)[1..] == a[1..] + b;
      FlattenAppend(a[1..], b);
    }
  }

  /** The raw batches `process_stream` forms from a complete stream: every batch but the
      last holds exactly `n` tokens, the last between 1 and `n`, and together they are
      the stream. */
  function Chunks(s: seq<string>, n: nat): (r: seq<seq<string>>)
    requires 1 <= n
    ensures Flatten(r) == s
    ensures forall k :: 0 <= k < |r| - 1 ==> |r[k]| == n
    ensures r != [] ==> 1 <= |r[|r| - 1]| <= n
    ensures r == [] <==> s == []
    decreases |s|
  {
    if |s| <= n then (if s == [] then [] else [s])
    else [s[..n]] + Chunks(s[n..], n)
  }

  predicate AllFull(raw: seq<seq<string>>, n: nat)
  {
    forall k :: 0 <= k < |raw| ==> |raw[k]| == n
  }

  /** The first `n` tokens of full batches and a remainder are the first batch. */
  lemma SplitFirstBatch(raw: seq<seq<string>>, rest: seq<string>, n: nat)
    requires 1 <= n && AllFull(raw, n) && raw != []
    ensures |Flatten(raw) + rest| >= n
    ensures (Flatten(raw) + rest)[..n] == raw[0]
    ensures (Flatten(raw) + rest)[n..] == Flatten(raw[1..]) + rest
  {
    assert Flatten(raw) + rest == raw[0] + (Flatten(raw[1..]) + rest);
  }

  /** Full batches followed by a short remainder are cut back into the same batches. */
  lemma {:induction false} ChunksOfFull(raw: seq<seq<string>>, rest: seq<string>, n: nat)
    requires 1 <= n && AllFull(raw, n) && |rest| <= n
    ensures Chunks(Flatten(raw) + rest, n) == raw + (if rest == [] then [] else [rest])
    decreases |raw|
  {
    var s := Flatten(raw) + rest;
    var more := if rest == [] then [] else [rest];
    if raw == [] {
      assert s == rest;
    } else if |raw| == 1 && rest == [] {
      assert s == raw[0] by { assert Flatten(raw[1..]) == []; }
    } else {
      SplitFirstBatch(raw, rest, n);
      var tail := Flatten(raw[1..]) + rest;
      assert tail != [] by {
        if 1 < |raw| {
          assert Flatten(raw[1..]) == raw[1] + Flatten(raw[2..]);
        }
      }
      ChunksOfFull(raw[1..], rest, n);
      assert Chunks(s, n) == [raw[0]] + (raw[1..] + more);
      assert [raw[0]] + raw[1..] == raw;
    }
  }

  function MapCleaned(raw: seq<seq<string>>): (r: seq<seq<string>>)
    ensures |r| == |raw|
    ensures forall k :: 0 <= k < |raw| ==> r[k] == Cleaned(raw[k])
  {
    seq(|raw|, k requires 0 <= k < |raw| => Cleaned(raw[k]))
  }

  /** Cleaning batch by batch yields the cleaned stream. */
  lemma {:induction false} FlattenMapCleaned(raw: seq<seq<string>>)
    ensures Flatten(MapCleaned(raw)) == Cleaned(Flatten(raw))
    decreases |raw|
  {
    if raw != [] {
      FlattenMapCleaned(raw[1..]);
      assert MapCleaned(raw)[1..] == MapCleaned(raw[1..]);
      CleanedConcat(raw[0], Flatten(raw[1..]));
    }
  }

  /** How many tokens the stream accepts: token number `maxTokens + 1` raises, and with a
      negative limit the very first token does. */
  function Allowance(maxTokens: int): (a: nat)
    ensures 0 <= maxTokens ==> a == maxTokens
  {
    if maxTokens < 0 then 0 else maxTokens
  }

  /** The raw batches `process_stream` yields: every batch of a stream within the limit,
      else only the full batches closed before the token that broke the limit. */
  function YieldedRaw(tokens: seq<string>, maxTokens: int, n: nat): seq<seq<string>>
    requires 1 <= n
  {
    var a := Allowance(maxTokens);
    if |tokens| <= a then Chunks(tokens, n) else Chunks(tokens[..FullPart(a, n)], n)
  }

  /** The largest multiple of `n` not above `a`: the tokens that fill whole batches. */
  function FullPart(a: nat, n: nat): (f: nat)
    requires 1 <= n
    ensures f <= a && a - f < n
    decreases a
  {
    if a < n then 0 else n + FullPart(a - n, n)
  }

  lemma {:induction false} FullPartIdempotent(a: nat, n: nat)
    requires 1 <= n
    ensures FullPart(FullPart(a, n), n) == FullPart(a, n)
    decreases a
  {
    if n <= a {
      FullPartIdempotent(a - n, n);
      assert FullPart(a, n) - n == FullPart(a - n, n);
    }
  }

  /** Full batches and a short remainder: the full part is exactly the full batches. */
  lemma {:induction false} FullPartOfBatches(raw: seq<seq<string>>, r: nat, n: nat)
    requires 1 <= n && AllFull(raw, n) && r < n
    ensures FullPart(|Flatten(raw)| + r, n) == |Flatten(raw)|
    decreases |raw|
  {
    if raw != [] {
      assert |Flatten(raw)| == n + |Flatten(raw[1..])|;
      FullPartOfBatches(raw[1..], r, n);
    }
  }

  /** A stream whose length fills whole batches is cut into full batches only. */
  lemma {:induction false} ChunksOfFullPart(s: seq<string>, n: nat)
    requires 1 <= n && FullPart(|s|, n) == |s|
    ensures AllFull(Chunks(s, n), n)
    decreases |s|
  {
    if n < |s| {
      assert |s[n..]| == |s| - n;
      ChunksOfFullPart(s[n..], n);
      assert Chunks(s, n) == [s[..n]] + Chunks(s[n..], n);
    }
  }

  /** The loop state of `process_stream` after `i` tokens: the closed batches are full,
      the open batch is short, and together they are the tokens consumed. */
  ghost predicate Progress(tokens: seq<string>, maxTokens: int, n: nat, i: nat,
                           raw: seq<seq<string>>, batch: seq<string>)
  {
    && 1 <= n && i <= |tokens|
    && AllFull(raw, n) && |batch| < n
    && tokens[..i] == Flatten(raw) + batch
  }

  /** Accepting token `i` extends the open batch by that token. */
  lemma TakeToken(tokens: seq<string>, maxTokens: int, n: nat, i: nat,
                  raw: seq<seq<string>>, batch: seq<string>)
    requires Progress(tokens, maxTokens, n, i, raw, batch) && i < |tokens|
    ensures tokens[..i + 1] == Flatten(raw) + (batch + [tokens[i]])
  {
    assert tokens[..i + 1] == tokens[..i] + [tokens[i]];
  }

  /** When token number `i` breaks the limit, the full batches formed so far are exactly
      what the stream has yielded. */
  lemma StopAtLimit(tokens: seq<string>, maxTokens: int, n: nat, i: nat,
                    raw: seq<seq<string>>, batch: seq<string>)
    requires 1 <= i && Progress(tokens, maxTokens, n, i - 1, raw, batch)
    requires i - 1 <= Allowance(maxTokens) < i && i <= |tokens|
    ensures Allowance(maxTokens) < |tokens| && Allowance(maxTokens) + 1 == i
    ensures YieldedRaw(tokens, maxTokens, n) == raw
  {
    var a := Allowance(maxTokens);
    FullPartOfBatches(raw, |batch|, n);
    assert tokens[..FullPart(a, n)] == tokens[..a][..|Flatten(raw)|];
    assert (Flatten(raw) + batch)[..|Flatten(raw)|] == Flatten(raw);
    ChunksOfFull(raw, [], n);
    assert Flatten(raw) + [] == Flatten(raw);
  }

  /** At the end of a stream within the limit, the full batches and the remainder are
      exactly what the stream yields. */
  lemma EndOfStream(tokens: seq<string>, maxTokens: int, n: nat, i: nat,
                    raw: seq<seq<string>>, batch: seq<string>)
    requires Progress(tokens, maxTokens, n, i, raw, batch)
    requires i <= Allowance(maxTokens) && |tokens| <= i
    ensures |tokens| <= Allowance(maxTokens)
    ensures YieldedRaw(tokens, maxTokens, n) == raw + (if batch == [] then [] else [batch])
  {
    assert tokens[..i] == tokens;
    ChunksOfFull(raw, batch, n);
  }

  /** Appending one batch appends its tokens. */
  lemma FlattenSnoc(ss: seq<seq<string>>, x: seq<string>)
    ensures Flatten(ss + [x]) == Flatten(ss) + x
  {
    FlattenAppend(ss, [x]);
    assert Flatten([x]) == x + Flatten([]);
  }

  /** Closing a full batch of the tokens consumed so far keeps the loop state. */
  lemma CloseBatch(tokens: seq<string>, maxTokens: int, n: nat, i: nat,
                   raw: seq<seq<string>>, batch: seq<string>)
    requires 1 <= n && i <= |tokens| && AllFull(raw, n) && |batch| == n
    requires tokens[..i] == Flatten(raw) + batch
    ensures Progress(tokens, maxTokens, n, i, raw + [batch], [])
  {
    FlattenSnoc(raw, batch);
    assert Flatten(raw + [batch]) + [] == Flatten(raw + [batch]);
  }

  /** Cleaning one more batch appends its cleaned form. */
  lemma MapCleanedSnoc(raw: seq<seq<string>>, batch: seq<string>)
    ensures MapCleaned(raw + [batch]) == MapCleaned(raw) + [Cleaned(batch)]
  {
  }

  /** The token processor with its `_metrics` counters. */
  class TokenProcessor {
    const batchSize: int
    var processed: nat
    var dropped: nat
    var totalBatches: nat

    constructor (batchSize: int := 32)
      ensures this.batchSize == batchSize
      ensures processed == 0 && dropped == 0 && totalBatches == 0
    {
      this.batchSize := batchSize;
      processed, dropped, totalBatches := 0, 0, 0;
    }

    /** `_process_batch`: clean the batch and count it. */
    method ProcessBatch(batch: seq<string>) returns (cleaned: seq<string>)
      modifies this`processed, this`dropped, this`totalBatches
      ensures cleaned == Cleaned(batch)
      ensures processed == old(processed) + |cleaned|
      ensures dropped == old(dropped) + (|batch| - |cleaned|)
      ensures processed + dropped == old(processed + dropped) + |batch|
      ensures totalBatches == old(totalBatches) + 1
    {
      cleaned := Cleaned(batch);
      processed := processed + |cleaned|;
      dropped := dropped + (|batch| - |cleaned|);
      totalBatches := totalBatches + 1;
    }

    /** `process_stream` run to the end of a finite stream: the batches yielded, in
        order, and the error raised, if any. */
    method ProcessStream(tokens: seq<string>, maxTokens: int)
      returns (batches: seq<seq<string>>, err: Option<TokenError>)
      modifies this`processed, this`dropped, this`totalBatches
      ensures batches == MapCleaned(YieldedRaw(tokens, maxTokens, EffectiveSize(batchSize)))
      ensures |tokens| <= Allowance(maxTokens) ==> err == None
      ensures Allowance(maxTokens) < |tokens| ==>
                err == Some(TokenError("Token limit exceeded", TOKEN_LIMIT_EXCEEDED, maxTokens,
                                       Allowance(maxTokens) + 1))
      ensures totalBatches == old(totalBatches) + |batches|
      ensures processed == old(processed) + |Flatten(batches)|
      ensures processed + dropped
              == old(processed + dropped) + |Flatten(YieldedRaw(tokens, maxTokens, EffectiveSize(batchSize)))|
    {
      var n := EffectiveSize(batchSize);
      var batch: seq<string> := [];
      var tokenCount := 0;
      ghost var raw: seq<seq<string>> := [];
      batches := [];
      err := None;
      while tokenCount < |tokens| && err == None
        invariant tokenCount <= |tokens|
        invariant err == None ==> Progress(tokens, maxTokens, n, tokenCount, raw, batch)
        invariant err == None ==> tokenCount <= Allowance(maxTokens)
        invariant err != None ==> Allowance(maxTokens) < |tokens| && batches == MapCleaned(YieldedRaw(tokens, maxTokens, n))
        invariant err != None ==> err == Some(TokenError("Token limit exceeded", TOKEN_LIMIT_EXCEEDED, maxTokens, Allowance(maxTokens) + 1))
        invariant err != None ==> raw == YieldedRaw(tokens, maxTokens, n)
        invariant batches == MapCleaned(raw)
        invariant totalBatches == old(totalBatches) + |raw|
        invariant processed == old(processed) + |Flatten(batches)|
        invariant processed + dropped == old(processed + dropped) + |Flatten(raw)|
        decreases |tokens| - tokenCount, if err == None then 1 else 0
      {
        var token := tokens[tokenCount];
        tokenCount := tokenCount + 1;
        if tokenCount > maxTokens {
          StopAtLimit(tokens, maxTokens, n, tokenCount, raw, batch);
          err := Some(TokenError("Token limit exceeded", TOKEN_LIMIT_EXCEEDED, maxTokens, tokenCount));
        } else {
          TakeToken(tokens, maxTokens, n, tokenCount - 1, raw, batch);
          batch := batch + [token];
          if |batch| >= n {
            var cleaned := ProcessBatch(batch);
            CloseBatch(tokens, maxTokens, n, tokenCount, raw, batch);
            FlattenSnoc(raw, batch);
            FlattenSnoc(batches, cleaned);
            MapCleanedSnoc(raw, batch);
            raw := raw + [batch];
            batches := batches + [cleaned];
            batch := [];
          }
        }
      }
      if err == None {
        EndOfStream(tokens, maxTokens, n, tokenCount, raw, batch);
        if batch != [] {
          var cleaned := ProcessBatch(batch);
          FlattenSnoc(raw, batch);
          FlattenSnoc(batches, cleaned);
          MapCleanedSnoc(raw, batch);
          raw := raw + [batch];
          batches := batches + [cleaned];
        } else {
          assert raw + [] == raw;
        }
      }
    }

    /** `get_metrics`. */
    method GetMetrics() returns (m: Metrics)
      ensures m.processed == processed && m.dropped == dropped && m.totalBatches == totalBatches
      ensures totalBatches == 0 ==> m.averageBatchSize == 0.0
      ensures totalBatches > 0 ==> m.averageBatchSize * (totalBatches as real) == processed as real
    {
      var average := if totalBatches > 0 then (processed as real) / (totalBatches as real) else 0.0;
      m := Metrics(processed, dropped, totalBatches, average);
    }
  }

  /** A stream within the limit raises nothing, and its batches, joined, are exactly the
      stripped non-empty tokens of the stream in order. */
  lemma WithinLimitYieldsCleanedStream(tokens: seq<string>, maxTokens: int, n: nat)
    requires 1 <= n && |tokens| <= Allowance(maxTokens)
    ensures Flatten(MapCleaned(YieldedRaw(tokens, maxTokens, n))) == Cleaned(tokens)
  {
    FlattenMapCleaned(Chunks(tokens, n));
  }

  /** A stream over the limit yields only whole batches, all taken from the tokens before
      the one that broke the limit. */
  lemma OverLimitYieldsOnlyFullBatches(tokens: seq<string>, maxTokens: int, n: nat)
    requires 1 <= n && Allowance(maxTokens) < |tokens|
    ensures AllFull(YieldedRaw(tokens, maxTokens, n), n)
    ensures |Flatten(YieldedRaw(tokens, maxTokens, n))| <= Allowance(maxTokens)
  {
    var a := Allowance(maxTokens);
    var s := tokens[..FullPart(a, n)];
    FullPartIdempotent(a, n);
    ChunksOfFullPart(s, n);
  }
}
