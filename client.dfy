/** The shapes the entity services see from the remote record-storage client.
    The client itself is not modelled: each call's reply is a value handed to
    the service operation that awaits it. */
module Client {
  import opened Records

  /** What one awaited client call produced: it threw (which includes the
      client accessor returning nothing), it answered `success: false`, or it
      answered `success: true` with a payload (`data` for reads, the optional
      `results` array for writes). */
  datatype Reply<+T> = Threw | Rejected(message: string) | Accepted(payload: T)

  /** One entry of a write reply's `results` array. */
  datatype Outcome<+R> = Succeeded(data: R) | Failed(message: Option<string>)

  /** A write reply: `results` may be absent even on success. */
  type WriteReply<R> = Reply<Option<seq<Outcome<R>>>>

  /** The `orderBy` and `where` parts of a fetch request (the field selection
      is static configuration and is not modelled). */
  datatype Sort = Sort(fieldName: string, sortType: string)
  datatype Condition = Condition(fieldName: string, operator: string, values: seq<Cell>)
  datatype Query = Query(orderBy: seq<Sort>, where: seq<Condition>)

  predicate HasSuccess<R>(results: seq<Outcome<R>>) {
    exists i :: 0 <= i < |results| && results[i].Succeeded?
  }

  /** A write counts as done when the reply succeeded, carries `results`, and
      at least one of them succeeded. */
  predicate Acknowledged<R>(reply: WriteReply<R>) {
    reply.Accepted? && reply.payload.Some? && HasSuccess(reply.payload.value)
  }

  /** Index of the first successful entry. */
  function FirstSuccess<R>(results: seq<Outcome<R>>): (i: nat)
    requires HasSuccess(results)
    ensures i < |results| && results[i].Succeeded?
    ensures forall j :: 0 <= j < i ==> results[j].Failed?
  {
    if results[0].Succeeded? then 0
    else
      var k :| 0 <= k < |results| && results[k].Succeeded?;
      assert results[1..][k - 1] == results[k];
      1 + FirstSuccess(results[1..])
  }

  /** `results.filter(r => r.success)`, keeping each entry's `data`. */
  function Successes<R>(results: seq<Outcome<R>>): (s: seq<R>)
    ensures |s| <= |results|
    ensures |s| > 0 <==> HasSuccess(results)
    ensures |s| > 0 ==> s[0] == results[FirstSuccess(results)].data
    ensures forall x :: x in s ==> Succeeded(x) in results
  {
    if results == [] then []
    else
      var rest := Successes(results[1..]);
      if results[0].Succeeded? then
        [results[0].data] + rest
      else
        assert HasSuccess(results[1..]) ==> HasSuccess(results) by {
          if HasSuccess(results[1..]) {
            var k :| 0 <= k < |results[1..]| && results[1..][k].Succeeded?;
            assert results[k + 1].Succeeded?;
          }
        }
        rest
  }

  /** `results.filter(r => !r.success)`, keeping each entry's message. */
  function Failures<R>(results: seq<Outcome<R>>): (f: seq<Option<string>>)
    ensures |f| <= |results|
    ensures forall m :: m in f ==> Failed(m) in results
    ensures forall i :: 0 <= i < |results| && results[i].Failed? ==> results[i].message in f
  {
    if results == [] then []
    else
      var rest := Failures(results[1..]);
      assert forall i :: 1 <= i < |results| ==> results[i] == results[1..][i - 1];
      if results[0].Failed? then [results[0].message] + rest else rest
  }

  /** Every entry lands in exactly one of the two filters. */
  lemma {:induction false} Partition<R>(results: seq<Outcome<R>>)
    ensures |Successes(results)| + |Failures(results)| == |results|
  {
    if results != [] {
      Partition(results[1..]);
    }
  }

  lemma {:induction false} SuccessesAppend<R>(a: seq<Outcome<R>>, b: seq<Outcome<R>>)
    ensures Successes(a + b) == Successes(a) + Successes(b)
  {
    if a == [] {
      assert a + b == b;
    } else {
      assert (a + b)[1..] == a[1..] + b;
      SuccessesAppend(a[1..], b);
    }
  }

  lemma {:induction false} FailuresAppend<R>(a: seq<Outcome<R>>, b: seq<Outcome<R>>)
    ensures Failures(a + b) == Failures(a) + Failures(b)
  {
    if a == [] {
      assert a + b == b;
    } else {
      assert (a + b)[1..] == a[1..] + b;
      FailuresAppend(a[1..], b);
    }
  }

  /** `delete` in both services: the one id is submitted, and the result is
      true exactly when the reply succeeded, carries `results` and one of
      them succeeded; false when the call threw or was rejected. */
  method Delete<R>(id: int, reply: WriteReply<R>) returns (sent: seq<int>, deleted: bool)
    ensures sent == [id]
    ensures deleted <==> Acknowledged(reply)
  {
    sent := [id];
    match reply {
      case Accepted(Some(results)) =>
        deleted := |Successes(results)| > 0;
      case _ =>
        deleted := false;
    }
  }

  /** A failed entry, wherever it sits in `results`, changes nothing about
      what the successful entries are, so it cannot change which record a
      create or update returns or whether a delete reports success. */
  lemma FailureIgnored<R>(a: seq<Outcome<R>>, m: Option<string>, b: seq<Outcome<R>>)
    ensures Successes(a + [Failed(m)] + b) == Successes(a + b)
  {
    var failed: seq<Outcome<R>> := [Failed(m)];
    assert failed[1..] == [];
    assert Successes(failed) == [];
    SuccessesAppend(a + failed, b);
    SuccessesAppend(a, failed);
    assert a + failed + b == (a + failed) + b;
    assert Successes(a + failed) == Successes(a);
    SuccessesAppend(a, b);
  }
}
