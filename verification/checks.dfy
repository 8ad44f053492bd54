/**
 * The checks the wrappers run on a successful reply: a single-record lookup must match
 * exactly one record, and a delete must be acknowledged with as many ids as were sent.
 */
module Checks {
  import opened Entities
  import opened Rpc

  /** The single matching record, or `ExpectedOneResult(n)` for n matches other than one. */
  function ExactlyOne<T>(records: seq<T>): (r: Result<T>)
    ensures r.Ok? <==> |records| == 1
    ensures r.Ok? ==> records == [r.value]
    ensures r.Err? ==> r.error == ExpectedOneResult(|records|)
  {
    if |records| == 1 then Ok(records[0]) else Err(ExpectedOneResult(|records|))
  }

  /** A lookup through `ExactlyOne` either fails or yields a record that was matched. */
  lemma ExactlyOneReturnsMatch<T>(records: seq<T>)
    ensures ExactlyOne(records).Ok? ==> ExactlyOne(records).value in records
    ensures ExactlyOne(records).Err? ==> |records| == 0 || |records| >= 2
  {
  }

  /** Nil exactly when the server acknowledged as many ids as were sent. */
  function CountCheck(expected: nat, got: nat): (r: Outcome)
    ensures r.Success? <==> expected == got
    ensures r.Failure? ==> r.error == ExpectedMore(expected, got)
  {
    if expected != got then Failure(ExpectedMore(expected, got)) else Success
  }

  /**
   * The outcome of a delete: the caller's error as is, or the count check of the
   * ids acknowledged under `key` against the `expected` number sent.
   */
  function DeleteAck(reply: Reply, key: string, expected: nat): (r: Outcome)
    requires IdsReply(reply, key)
    ensures reply.CallFailed? ==> r == Failure(reply.error)
    ensures r.Success? <==> reply.Answered? && |ReturnedIds(reply, key)| == expected
    ensures reply.Answered? && r.Failure? ==>
              r.error == ExpectedMore(expected, |ReturnedIds(reply, key)|)
  {
    match reply
    case CallFailed(e) => Failure(e)
    case Answered(v) => CountCheck(expected, |v.fields[key].elems|)
  }
}
