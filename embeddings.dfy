/** `getEmbeddings` of lib/embeddings.ts: provider selection and batching.
    Each provider call is an abstract function from one batch of texts to
    its reply; vector contents are not modelled. */
module Embeddings {
  import opened Wrappers
  import opened Text

  /** An embedding vector (floating-point values, treated as opaque). */
  type Vector = seq<real>

  /** The most texts sent in one provider call. */
  const BatchSize: nat := 100

  /** Whether GOOGLE_API_KEY and GROQ_API_KEY are set to non-empty strings. */
  datatype Keys = Keys(google: bool, groq: bool)

  const NoProviderMessage := "No embeddings provider configured. Set GOOGLE_API_KEY or GROQ_API_KEY."

  /** What one call to the Groq endpoint yields: vectors, a non-OK response
      (status and status text), or a thrown fault. */
  datatype GroqReply =
    | Embedded(vectors: seq<Vector>)
    | NotOk(status: nat, statusText: string)
    | GroqThrew(message: string)

  /** One Groq batch as a result: a non-OK response becomes the error
      `getEmbeddings` throws. */
  function GroqResult(reply: GroqReply): (r: Result<seq<Vector>, string>)
    ensures reply.NotOk? ==> r.Failure? && StartsWith(r.error, "Groq embeddings failed: " + NatToString(reply.status))
  {
    match reply
    case Embedded(vs) => Success(vs)
    case NotOk(status, text) => Failure("Groq embeddings failed: " + NatToString(status) + " " + text)
    case GroqThrew(m) => Failure(m)
  }

  /** The Groq endpoint seen as a per-batch result. */
  function GroqCall(groq: seq<string> -> GroqReply): seq<string> -> Result<seq<Vector>, string>
  {
    b => GroqResult(groq(b))
  }

  function Min(a: int, b: int): int
  {
    if a <= b then a else b
  }

  /** `xss.flat()`: the concatenation of the batches, in order. */
  function Flatten<T>(xss: seq<seq<T>>): seq<T>
  {
    if xss == [] then [] else xss[0] + Flatten(xss[1..])
  }

  lemma {:induction false} FlattenAppend<T>(xss: seq<seq<T>>, yss: seq<seq<T>>)
    ensures Flatten(xss + yss) == Flatten(xss) + Flatten(yss)
  {
    if xss != [] {
      assert (xss + yss)[1..] == xss[1..] + yss;
      FlattenAppend(xss[1..], yss);
    } else {
      assert xss + yss == yss;
    }
  }

  /** The slices `texts.slice(i, i + 100)` for i = 0, 100, 200, ...; each
      is non-empty and at most 100 long. */
  function Batches(texts: seq<string>): (batches: seq<seq<string>>)
    ensures forall j :: 0 <= j < |batches| ==> 0 < |batches[j]| <= BatchSize
    decreases |texts|
  {
    if |texts| == 0 then []
    else
      var m := Min(BatchSize, |texts|);
      [texts[..m]] + Batches(texts[m..])
  }

  /** Together the batches are exactly the input, in order. */
  lemma {:induction false} BatchesCover(texts: seq<string>)
    ensures Flatten(Batches(texts)) == texts
    decreases |texts|
  {
    if |texts| > 0 {
      var m := Min(BatchSize, |texts|);
      BatchesCover(texts[m..]);
      assert texts[..m] + texts[m..] == texts;
    }
  }

  /** There are ceil(n / 100) batches: an empty input makes no call. */
  lemma {:induction false} BatchCount(texts: seq<string>)
    ensures |Batches(texts)| == (|texts| + BatchSize - 1) / BatchSize
    decreases |texts|
  {
    if |texts| > 0 {
      var m := Min(BatchSize, |texts|);
      BatchCount(texts[m..]);
    }
  }

  /** Batch `j` is the slice starting at `100 * j`. */
  lemma {:induction false} BatchAt(texts: seq<string>, j: nat)
    requires j < |Batches(texts)|
    ensures BatchSize * j < |texts|
    ensures Batches(texts)[j] == texts[BatchSize * j .. Min(BatchSize * j + BatchSize, |texts|)]
    decreases j
  {
    var m := Min(BatchSize, |texts|);
    var rest := texts[m..];
    assert Batches(texts) == [texts[..m]] + Batches(rest);
    if j == 0 {
      assert texts[0 .. m] == texts[..m];
    } else {
      assert Batches(texts)[j] == Batches(rest)[j - 1];
      BatchAt(rest, j - 1);
      assert m == BatchSize;
      var lo := BatchSize * (j - 1);
      var hi := Min(lo + BatchSize, |rest|);
      assert Batches(rest)[j - 1] == rest[lo .. hi];
      assert rest[lo .. hi] == texts[m + lo .. m + hi];
      assert m + lo == BatchSize * j;
      assert m + hi == Min(BatchSize * j + BatchSize, |texts|);
    }
  }

  /** The outcome of calling the provider on each batch in turn: the first
      failure if any batch fails (no partial result), otherwise the per-batch
      outputs concatenated in batch order. */
  function EmbedAll(batches: seq<seq<string>>, call: seq<string> -> Result<seq<Vector>, string>): Result<seq<Vector>, string>
  {
    if batches == [] then Success([])
    else match call(batches[0])
      case Failure(e) => Failure(e)
      case Success(vs) =>
        match EmbedAll(batches[1..], call)
        case Failure(e) => Failure(e)
        case Success(rest) => Success(vs + rest)
  }

  /** The batches the provider receives: every batch when all succeed,
      otherwise those up to and including the first that fails. */
  function Requested(batches: seq<seq<string>>, call: seq<string> -> Result<seq<Vector>, string>): seq<seq<string>>
  {
    if batches == [] then []
    else if call(batches[0]).Failure? then [batches[0]]
    else [batches[0]] + Requested(batches[1..], call)
  }

  /** The provider sees a prefix of the batches, in order: all of them when
      the run succeeds, and otherwise ending with the batch whose failure is
      the run's error. */
  lemma {:induction false} RequestedPrefix(batches: seq<seq<string>>, call: seq<string> -> Result<seq<Vector>, string>)
    ensures var sent := Requested(batches, call);
      && |sent| <= |batches| && sent == batches[..|sent|]
      && (EmbedAll(batches, call).Success? ==> sent == batches)
      && (EmbedAll(batches, call).Failure? ==>
            |sent| > 0 && call(Last(sent)).Failure? && EmbedAll(batches, call).error == call(Last(sent)).error)
  {
    if batches != [] && call(batches[0]).Success? {
      RequestedPrefix(batches[1..], call);
      var rest := Requested(batches[1..], call);
      assert Requested(batches, call) == [batches[0]] + rest;
      assert batches == [batches[0]] + batches[1..];
      if EmbedAll(batches, call).Failure? {
        assert Last([batches[0]] + rest) == Last(rest);
      }
    }
  }

  /** `Success(xs + ys)` for a successful rest `ys`; the failure otherwise. */
  function Prepend(xs: seq<Vector>, r: Result<seq<Vector>, string>): Result<seq<Vector>, string>
  {
    match r
    case Success(ys) => Success(xs + ys)
    case Failure(e) => Failure(e)
  }

  /** Order preservation: if every successful reply has one vector per text,
      each vector matching its own text, then the output has one vector per
      input text and vector `k` matches text `k`, whatever the batch bounds. */
  lemma {:induction false} EmbedAllAligned(batches: seq<seq<string>>, call: seq<string> -> Result<seq<Vector>, string>,
                                           matches: (string, Vector) -> bool)
    requires forall b :: call(b).Success? ==> |call(b).value| == |b|
    requires forall b, k :: call(b).Success? && 0 <= k < |b| ==> matches(b[k], call(b).value[k])
    ensures EmbedAll(batches, call).Success? ==>
      var out := EmbedAll(batches, call).value;
      |out| == |Flatten(batches)| && forall k :: 0 <= k < |out| ==> matches(Flatten(batches)[k], out[k])
  {
    if batches != [] && EmbedAll(batches, call).Success? {
      EmbedAllAligned(batches[1..], call, matches);
      var b := batches[0];
      var vs := call(b).value;
      var rest := EmbedAll(batches[1..], call).value;
      var out := EmbedAll(batches, call).value;
      assert out == vs + rest;
      assert Flatten(batches) == b + Flatten(batches[1..]);
      forall k | 0 <= k < |out| ensures matches(Flatten(batches)[k], out[k]) {
        if k < |b| {
          assert out[k] == vs[k];
          assert Flatten(batches)[k] == b[k];
        } else {
          assert out[k] == rest[k - |b|];
          assert Flatten(batches)[k] == Flatten(batches[1..])[k - |b|];
        }
      }
    }
  }

  lemma PrependNothing(r: Result<seq<Vector>, string>)
    ensures Prepend([], r) == r
  {
    if r.Success? {
      assert [] + r.value == r.value;
    }
  }

  lemma PrependPrepend(xs: seq<Vector>, ys: seq<Vector>, r: Result<seq<Vector>, string>)
    ensures Prepend(xs, Prepend(ys, r)) == Prepend(xs + ys, r)
  {
    if r.Success? {
      assert xs + (ys + r.value) == (xs + ys) + r.value;
    }
  }

  /** One turn of a provider loop at offset `i`: the slice taken there is the
      first batch of `texts[i..]`, and calling the provider on it either ends
      the run with its failure or contributes its output ahead of the rest. */
  lemma {:induction false} LoopStep(texts: seq<string>, i: nat, call: seq<string> -> Result<seq<Vector>, string>)
    requires i < |texts|
    ensures var batch := texts[i..Min(i + BatchSize, |texts|)];
      var rest := Batches(texts[Min(i + BatchSize, |texts|)..]);
      && Batches(texts[i..]) == [batch] + rest
      && (call(batch).Failure? ==>
            EmbedAll(Batches(texts[i..]), call) == Failure(call(batch).error) &&
            Requested(Batches(texts[i..]), call) == [batch])
      && (call(batch).Success? ==>
            EmbedAll(Batches(texts[i..]), call) == Prepend(call(batch).value, EmbedAll(rest, call)) &&
            Requested(Batches(texts[i..]), call) == [batch] + Requested(rest, call))
  {
    var m := Min(BatchSize, |texts| - i);
    assert texts[i..][..m] == texts[i..i + m];
    assert texts[i..][m..] == texts[i + m..];
    var bs := Batches(texts[i..]);
    assert bs[1..] == Batches(texts[i + m..]);
  }

  /** What a provider loop has established after sending `sent`: the
      batches still to send are `rest`, and the run's outcome and requests
      are those of `rest` behind the output `acc` gathered so far. */
  ghost predicate Progressed(texts: seq<string>, call: seq<string> -> Result<seq<Vector>, string>,
                             sent: seq<seq<string>>, acc: seq<Vector>, rest: seq<seq<string>>)
  {
    && sent + rest == Batches(texts)
    && Requested(Batches(texts), call) == sent + Requested(rest, call)
    && EmbedAll(Batches(texts), call) == Prepend(acc, EmbedAll(rest, call))
  }

  lemma ProgressedInitially(texts: seq<string>, call: seq<string> -> Result<seq<Vector>, string>)
    ensures Progressed(texts, call, [], [], Batches(texts[Min(0, |texts|)..]))
  {
    assert texts[Min(0, |texts|)..] == texts;
    PrependNothing(EmbedAll(Batches(texts), call));
  }

  /** A batch that succeeds moves its output into `acc`. */
  lemma ProgressedOnSuccess(texts: seq<string>, i: nat, call: seq<string> -> Result<seq<Vector>, string>,
                            sent: seq<seq<string>>, acc: seq<Vector>)
    requires i < |texts|
    requires Progressed(texts, call, sent, acc, Batches(texts[Min(i, |texts|)..]))
    requires call(texts[i..Min(i + BatchSize, |texts|)]).Success?
    ensures Progressed(texts, call, sent + [texts[i..Min(i + BatchSize, |texts|)]],
                       acc + call(texts[i..Min(i + BatchSize, |texts|)]).value,
                       Batches(texts[Min(i + BatchSize, |texts|)..]))
  {
    var batch := texts[i..Min(i + BatchSize, |texts|)];
    var rest := Batches(texts[Min(i + BatchSize, |texts|)..]);
    LoopStep(texts, i, call);
    assert Min(i, |texts|) == i;
    assert sent + ([batch] + rest) == (sent + [batch]) + rest;
    assert sent + ([batch] + Requested(rest, call)) == (sent + [batch]) + Requested(rest, call);
    PrependPrepend(acc, call(batch).value, EmbedAll(rest, call));
  }

  /** A batch that fails ends the run with its error, after it was sent. */
  lemma ProgressedOnFailure(texts: seq<string>, i: nat, call: seq<string> -> Result<seq<Vector>, string>,
                            sent: seq<seq<string>>, acc: seq<Vector>)
    requires i < |texts|
    requires Progressed(texts, call, sent, acc, Batches(texts[Min(i, |texts|)..]))
    requires call(texts[i..Min(i + BatchSize, |texts|)]).Failure?
    ensures EmbedAll(Batches(texts), call) == Failure(call(texts[i..Min(i + BatchSize, |texts|)]).error)
    ensures Requested(Batches(texts), call) == sent + [texts[i..Min(i + BatchSize, |texts|)]]
  {
    LoopStep(texts, i, call);
    assert Min(i, |texts|) == i;
  }

  /** When every slice has been taken, `acc` is the whole output. */
  lemma ProgressedFinally(texts: seq<string>, i: nat, call: seq<string> -> Result<seq<Vector>, string>,
                          sent: seq<seq<string>>, acc: seq<Vector>)
    requires i >= |texts|
    requires Progressed(texts, call, sent, acc, Batches(texts[Min(i, |texts|)..]))
    ensures EmbedAll(Batches(texts), call) == Success(acc)
    ensures Requested(Batches(texts), call) == sent
  {
    assert texts[Min(i, |texts|)..] == [];
    assert acc + [] == acc;
    assert sent + [] == sent;
  }

  /** The Google branch of `getEmbeddings`: `batches.push(vectors)` per
      slice, then `batches.flat()`. */
  method EmbedWithGoogle(texts: seq<string>, google: seq<string> -> Result<seq<Vector>, string>)
    returns (r: Result<seq<Vector>, string>, sent: seq<seq<string>>)
    ensures r == EmbedAll(Batches(texts), google)
    ensures sent == Requested(Batches(texts), google)
  {
    sent := [];
    var batches: seq<seq<Vector>> := [];
    var i := 0;
    ProgressedInitially(texts, google);
    while i < |texts|
      invariant 0 <= i < |texts| + BatchSize
      invariant Progressed(texts, google, sent, Flatten(batches), Batches(texts[Min(i, |texts|)..]))
    {
      var batch := texts[i..Min(i + BatchSize, |texts|)];
      var res := google(batch);
      if res.Failure? {
        ProgressedOnFailure(texts, i, google, sent, Flatten(batches));
        sent := sent + [batch];
        r := Failure(res.error);
        return;
      }
      ProgressedOnSuccess(texts, i, google, sent, Flatten(batches));
      FlattenAppend(batches, [res.value]);
      assert Flatten([res.value]) == res.value;
      sent := sent + [batch];
      batches := batches + [res.value];
      i := i + BatchSize;
    }
    ProgressedFinally(texts, i, google, sent, Flatten(batches));
    r := Success(Flatten(batches));
  }

  /** The Groq branch of `getEmbeddings`: `results.push(...vectors)` per
      slice; a non-OK response throws. */
  method EmbedWithGroq(texts: seq<string>, groq: seq<string> -> GroqReply)
    returns (r: Result<seq<Vector>, string>, sent: seq<seq<string>>)
    ensures r == EmbedAll(Batches(texts), GroqCall(groq))
    ensures sent == Requested(Batches(texts), GroqCall(groq))
  {
    ghost var call := GroqCall(groq);
    sent := [];
    var results: seq<Vector> := [];
    var i := 0;
    ProgressedInitially(texts, call);
    while i < |texts|
      invariant 0 <= i < |texts| + BatchSize
      invariant Progressed(texts, call, sent, results, Batches(texts[Min(i, |texts|)..]))
    {
      var input := texts[i..Min(i + BatchSize, |texts|)];
      var resp := groq(input);
      assert call(input) == GroqResult(resp);
      match resp
      case NotOk(status, statusText) =>
        ProgressedOnFailure(texts, i, call, sent, results);
        sent := sent + [input];
        r := Failure("Groq embeddings failed: " + NatToString(status) + " " + statusText);
        return;
      case GroqThrew(message) =>
        ProgressedOnFailure(texts, i, call, sent, results);
        sent := sent + [input];
        r := Failure(message);
        return;
      case Embedded(vectors) =>
        ProgressedOnSuccess(texts, i, call, sent, results);
        sent := sent + [input];
        results := results + vectors;
        i := i + BatchSize;
    }
    ProgressedFinally(texts, i, call, sent, results);
    r := Success(results);
  }

  /** The outcome of `getEmbeddings(texts)`: the vectors, or the message of
      the error it throws. */
  function EmbeddingsOf(texts: seq<string>, keys: Keys,
                        google: seq<string> -> Result<seq<Vector>, string>,
                        groq: seq<string> -> GroqReply): Result<seq<Vector>, string>
  {
    if keys.google then EmbedAll(Batches(texts), google)
    else if keys.groq then EmbedAll(Batches(texts), GroqCall(groq))
    else Failure(NoProviderMessage)
  }

  /** `getEmbeddings(texts)`: Google if its key is set, else Groq if its key
      is set, else the configuration error. Returns the vectors or the error
      it throws, and the batches sent to the provider, in order. */
  method GetEmbeddings(texts: seq<string>, keys: Keys,
                       google: seq<string> -> Result<seq<Vector>, string>,
                       groq: seq<string> -> GroqReply)
    returns (r: Result<seq<Vector>, string>, sent: seq<seq<string>>)
    ensures r == EmbeddingsOf(texts, keys, google, groq)
    ensures keys.google ==>
      r == EmbedAll(Batches(texts), google) && sent == Requested(Batches(texts), google)
    ensures !keys.google && keys.groq ==>
      r == EmbedAll(Batches(texts), GroqCall(groq)) &&
      sent == Requested(Batches(texts), GroqCall(groq))
    ensures !keys.google && !keys.groq ==> r == Failure(NoProviderMessage) && sent == []
    ensures texts == [] && (keys.google || keys.groq) ==> r == Success([]) && sent == []
  {
    if keys.google {
      r, sent := EmbedWithGoogle(texts, google);
      return;
    }
    if keys.groq {
      r, sent := EmbedWithGroq(texts, groq);
      return;
    }
    r, sent := Failure(NoProviderMessage), [];
  }
}
