/** Classifying a page of group messages for the is_commit backfill in requests of bounded size
    (pkg/mls/store/backfiller_group_messages.go). */
module Backfill {
  import opened Rows
  import opened WaveScan

  const MAX_PAYLOAD_SIZE := 4 * 1024 * 1024

  /** `size` is the encoded size of the message as a validation input. */
  datatype Message = Message(id: nat, data: seq<byte>, size: nat, isCommit: bool)

  datatype Error = TooLarge(size: nat) | Internal

  datatype Result = Ok(messages: seq<Message>) | Err(error: Error)

  /** The validation service: results for a request, or a failure. */
  type Service = seq<seq<byte>> -> Option<seq<bool>>

  function Inputs(messages: seq<Message>): seq<seq<byte>> {
    seq(|messages|, i requires 0 <= i < |messages| => messages[i].data)
  }

  function Stamped(messages: seq<Message>, results: seq<bool>): seq<Message>
    requires |results| == |messages|
  {
    seq(|messages|, i requires 0 <= i < |messages| => messages[i].(isCommit := results[i]))
  }

  /** One request. */
  function ClassifyBatch(service: Service, batch: seq<Message>): Result {
    match service(Inputs(batch))
    case None => Err(Internal)
    case Some(results) => if |results| != |batch| then Err(Internal) else Ok(Stamped(batch, results))
  }

  function Size(messages: seq<Message>): nat {
    if messages == [] then 0 else messages[0].size + Size(messages[1..])
  }

  /** Greedy batching of `rest`, continuing a batch and the output so far. */
  function ClassifyFrom(service: Service, batch: seq<Message>, rest: seq<Message>, output: seq<Message>): Result
    decreases |rest|
  {
    if rest == [] then
      if batch == [] then Ok(output)
      else
        match ClassifyBatch(service, batch)
        case Err(e) => Err(e)
        case Ok(done) => Ok(output + done)
    else if rest[0].size > MAX_PAYLOAD_SIZE then Err(TooLarge(rest[0].size))
    else if Size(batch) + rest[0].size > MAX_PAYLOAD_SIZE then
      match ClassifyBatch(service, batch)
      case Err(e) => Err(e)
      case Ok(done) => ClassifyFrom(service, [rest[0]], rest[1..], output + done)
    else ClassifyFrom(service, batch + [rest[0]], rest[1..], output)
  }

  /** The requests a run makes if none of them fails; it stops at a message over the limit. */
  function Requests(batch: seq<Message>, rest: seq<Message>): seq<seq<Message>>
    decreases |rest|
  {
    if rest == [] then (if batch == [] then [] else [batch])
    else if rest[0].size > MAX_PAYLOAD_SIZE then []
    else if Size(batch) + rest[0].size > MAX_PAYLOAD_SIZE then [batch] + Requests([rest[0]], rest[1..])
    else Requests(batch + [rest[0]], rest[1..])
  }

  function Flatten(batches: seq<seq<Message>>): seq<Message> {
    if batches == [] then [] else batches[0] + Flatten(batches[1..])
  }

  lemma {:induction false} SizeSnoc(messages: seq<Message>, m: Message)
    ensures Size(messages + [m]) == Size(messages) + m.size
  {
    if messages == [] {
      assert messages + [m] == [m] && [m][1..] == [];
    } else {
      assert (messages + [m])[1..] == messages[1..] + [m];
      SizeSnoc(messages[1..], m);
    }
  }

  lemma SizeOne(m: Message)
    ensures Size([m]) == m.size
  {
    assert [m][1..] == [];
  }

  /** The requests split the page in order, none is empty or over the limit, and each was closed
      only because the next message would not have fitted. */
  lemma {:induction false} RequestsMeaning(batch: seq<Message>, rest: seq<Message>)
    requires Size(batch) <= MAX_PAYLOAD_SIZE && (batch == [] ==> rest == [] || rest[0].size <= MAX_PAYLOAD_SIZE)
    requires forall m :: m in rest ==> m.size <= MAX_PAYLOAD_SIZE
    ensures var rs := Requests(batch, rest);
            && Flatten(rs) == batch + rest
            && (forall i :: 0 <= i < |rs| ==> rs[i] != [] && Size(rs[i]) <= 4_194_304)
            && (forall i :: 0 <= i < |rs| - 1 ==> Size(rs[i]) + rs[i + 1][0].size > 4_194_304)
            && (rs != [] ==> (if batch != [] then batch <= rs[0] else rest != [] && rs[0][0] == rest[0]))
    decreases |rest|
  {
    if rest == [] {
      if batch != [] { assert [batch][1..] == [] && batch + [] == batch; }
    } else {
      assert rest == [rest[0]] + rest[1..];
      if Size(batch) + rest[0].size > MAX_PAYLOAD_SIZE {
        SizeOne(rest[0]);
        RequestsMeaning([rest[0]], rest[1..]);
        var later := Requests([rest[0]], rest[1..]);
        assert ([batch] + later)[1..] == later;
        assert later[0][0] == rest[0];
      } else {
        SizeSnoc(batch, rest[0]);
        RequestsMeaning(batch + [rest[0]], rest[1..]);
        assert (batch + [rest[0]]) + rest[1..] == batch + rest;
      }
    }
  }

  /** Making the requests one after the other, stopping at the first that fails. */
  function Make(service: Service, requests: seq<seq<Message>>): Result {
    if requests == [] then Ok([])
    else
      match ClassifyBatch(service, requests[0])
      case Err(e) => Err(e)
      case Ok(done) =>
        match Make(service, requests[1..])
        case Err(e) => Err(e)
        case Ok(more) => Ok(done + more)
  }

  /** When every message is within the limit, classifying is making exactly those requests. */
  lemma {:induction false} ClassifyMakesRequests(service: Service, batch: seq<Message>, rest: seq<Message>,
                                                 output: seq<Message>)
    requires forall m :: m in rest ==> m.size <= MAX_PAYLOAD_SIZE
    ensures ClassifyFrom(service, batch, rest, output) ==
              match Make(service, Requests(batch, rest))
              case Err(e) => Err(e)
              case Ok(done) => Ok(output + done)
    decreases |rest|
  {
    hide ClassifyBatch, Size;
    if rest == [] {
      if batch == [] {
        assert output + [] == output;
      } else {
        assert [batch][1..] == [];
        assert ClassifyBatch(service, batch).Ok? ==>
                 ClassifyBatch(service, batch).messages + [] == ClassifyBatch(service, batch).messages;
      }
    } else {
      assert rest == [rest[0]] + rest[1..];
      if Size(batch) + rest[0].size > MAX_PAYLOAD_SIZE {
        var later := Requests([rest[0]], rest[1..]);
        assert ([batch] + later)[1..] == later;
        if ClassifyBatch(service, batch).Ok? {
          var done := ClassifyBatch(service, batch).messages;
          ClassifyMakesRequests(service, [rest[0]], rest[1..], output + done);
          assert Make(service, later).Ok? ==>
                   (output + done) + Make(service, later).messages == output + (done + Make(service, later).messages);
        }
      } else {
        ClassifyMakesRequests(service, batch + [rest[0]], rest[1..], output);
      }
    }
  }

  /** A service whose i-th result is the verdict on the i-th input. */
  ghost predicate Honest(service: Service, verdict: seq<byte> -> bool) {
    forall inputs :: service(inputs).Some? ==>
      && |service(inputs).value| == |inputs|
      && forall i :: 0 <= i < |inputs| ==> service(inputs).value[i] == verdict(inputs[i])
  }

  /** `done` is `messages` with nothing but is_commit decided, each by its own verdict. */
  ghost predicate Decided(done: seq<Message>, messages: seq<Message>, verdict: seq<byte> -> bool) {
    && |done| == |messages|
    && forall i :: 0 <= i < |messages| ==> done[i] == messages[i].(isCommit := verdict(messages[i].data))
  }

  lemma BatchDecided(service: Service, verdict: seq<byte> -> bool, batch: seq<Message>)
    requires Honest(service, verdict)
    ensures ClassifyBatch(service, batch).Ok? ==> Decided(ClassifyBatch(service, batch).messages, batch, verdict)
    ensures ClassifyBatch(service, batch).Err? ==> ClassifyBatch(service, batch).error == Internal
  {
    assert forall i :: 0 <= i < |batch| ==> Inputs(batch)[i] == batch[i].data;
  }

  lemma DecidedConcat(a: seq<Message>, b: seq<Message>, c: seq<Message>, d: seq<Message>, verdict: seq<byte> -> bool)
    requires Decided(a, b, verdict) && Decided(c, d, verdict)
    ensures Decided(a + c, b + d, verdict)
  {
  }

  predicate Fails(service: Service, request: seq<Message>) { service(Inputs(request)).None? }

  lemma BatchFails(service: Service, verdict: seq<byte> -> bool, batch: seq<Message>)
    requires Honest(service, verdict)
    ensures ClassifyBatch(service, batch).Err? <==> Fails(service, batch)
  {
  }

  lemma RequestsCons(batch: seq<Message>, later: seq<seq<Message>>, service: Service)
    ensures (exists x :: x in [batch] + later && Fails(service, x)) <==>
              Fails(service, batch) || exists x :: x in later && Fails(service, x)
  {
    hide Fails;
    if Fails(service, batch) { assert batch in [batch] + later; }
    if exists x :: x in later && Fails(service, x) {
      var x :| x in later && Fails(service, x);
      assert x in [batch] + later;
    }
  }

  /** A successful classification keeps ids, contents and order, and gives every message its own
      verdict, however the page was cut into requests. It fails with the service's error exactly
      when a request fails, else with TooLarge exactly when a message is over the limit. */
  lemma {:induction false} ClassifyMeaning(service: Service, verdict: seq<byte> -> bool, batch: seq<Message>,
                                           rest: seq<Message>, before: seq<Message>, output: seq<Message>)
    requires Honest(service, verdict) && Decided(output, before, verdict)
    ensures var r := ClassifyFrom(service, batch, rest, output);
            && (r.Ok? ==> Decided(r.messages, before + batch + rest, verdict))
            && (r == Err(Internal) <==> exists x :: x in Requests(batch, rest) && Fails(service, x))
            && (r.Err? && r.error.TooLarge? ==> exists m :: m in rest && m.size == r.error.size > 4_194_304)
            && (r.Ok? ==> forall m :: m in rest ==> m.size <= 4_194_304)
    decreases |rest|
  {
    hide Decided, Honest, ClassifyBatch, Size, Fails;
    BatchDecided(service, verdict, batch);
    BatchFails(service, verdict, batch);
    if ClassifyBatch(service, batch).Ok? {
      DecidedConcat(output, before, ClassifyBatch(service, batch).messages, batch, verdict);
    }
    if rest == [] {
      assert before + batch + [] == before + batch;
      assert batch == [] ==> before + batch == before;
    } else {
      assert rest == [rest[0]] + rest[1..];
      if rest[0].size > MAX_PAYLOAD_SIZE {
      } else if Size(batch) + rest[0].size > MAX_PAYLOAD_SIZE {
        RequestsCons(batch, Requests([rest[0]], rest[1..]), service);
        if ClassifyBatch(service, batch).Ok? {
          var done := ClassifyBatch(service, batch).messages;
          ClassifyMeaning(service, verdict, [rest[0]], rest[1..], before + batch, output + done);
          assert (before + batch) + [rest[0]] + rest[1..] == before + batch + rest;
        }
      } else {
        ClassifyMeaning(service, verdict, batch + [rest[0]], rest[1..], before, output);
        assert before + (batch + [rest[0]]) + rest[1..] == before + batch + rest;
      }
    }
  }

  // ----- the loops -----

  /** Stamps one request's results onto its messages in place; on failure nothing is touched. */
  method ClassifyMessageBatch(service: Service, messages: array<Message>) returns (err: Option<Error>)
    modifies messages
    ensures err.Some? ==>
              messages[..] == old(messages[..]) && ClassifyBatch(service, old(messages[..])) == Err(err.value)
    ensures err.None? ==> ClassifyBatch(service, old(messages[..])) == Ok(messages[..])
    ensures var results := service(Inputs(old(messages[..])));
            err == if results.None? || |results.value| != messages.Length then Some(Internal) else None
  {
    var results := service(Inputs(messages[..]));
    if results.None? {
      return Some(Internal);
    }
    if |results.value| != messages.Length {
      return Some(Internal);
    }
    for i := 0 to messages.Length
      invariant forall k :: 0 <= k < i ==> messages[k] == old(messages[k]).(isCommit := results.value[k])
      invariant forall k :: i <= k < messages.Length ==> messages[k] == old(messages[k])
    {
      messages[i] := messages[i].(isCommit := results.value[i]);
    }
    assert messages[..] == Stamped(old(messages[..]), results.value);
    return None;
  }

  /** One request for a batch held as a list. */
  method Validate(service: Service, batch: seq<Message>) returns (r: Result)
    ensures r == ClassifyBatch(service, batch)
  {
    var messages := new Message[|batch|](i requires 0 <= i < |batch| => batch[i]);
    assert messages[..] == batch;
    var err := ClassifyMessageBatch(service, messages);
    if err.Some? {
      return Err(err.value);
    }
    return Ok(messages[..]);
  }

  method ClassifyMessages(service: Service, messages: seq<Message>) returns (r: Result)
    ensures r == ClassifyFrom(service, [], messages, [])
  {
    var batchedOutput: seq<Message>, currentBatch: seq<Message>, currentBatchSize := [], [], 0;
    var i := 0;
    while i < |messages|
      invariant 0 <= i <= |messages| && currentBatchSize == Size(currentBatch)
      invariant ClassifyFrom(service, currentBatch, messages[i..], batchedOutput)
             == ClassifyFrom(service, [], messages, [])
    {
      var message := messages[i];
      assert messages[i..][1..] == messages[i + 1..];
      if message.size > MAX_PAYLOAD_SIZE {
        return Err(TooLarge(message.size));
      }
      SizeSnoc(currentBatch, message);
      SizeOne(message);
      assert [] + [message] == [message];
      if currentBatchSize + message.size > MAX_PAYLOAD_SIZE {
        var validated := Validate(service, currentBatch);
        if validated.Err? {
          return validated;
        }
        batchedOutput := batchedOutput + validated.messages;
        currentBatch, currentBatchSize := [], 0;
      }
      currentBatch := currentBatch + [message];
      currentBatchSize := currentBatchSize + message.size;
      i := i + 1;
    }
    if |currentBatch| > 0 {
      var validated := Validate(service, currentBatch);
      if validated.Err? {
        return validated;
      }
      batchedOutput := batchedOutput + validated.messages;
    }
    return Ok(batchedOutput);
  }
}
