/** The pending-request table: request uuid -> the continuation to run
    when the matching reply arrives. */
module Rpc {
  import opened Base

  /** Soft ceiling past which the client warns about leaked continuations. */
  const LeakCeiling: nat := 1000

  /** `rpc_request`'s bookkeeping: a continuation, when supplied, is filed
      under the request's fresh uuid; without one nothing is recorded. */
  function Register<C>(pending: map<Uuid, C>, uuid: Uuid, closure: Option<C>): (r: map<Uuid, C>)
    requires uuid !in pending
    ensures closure.None? ==> r == pending
    ensures closure.Some? ==> r.Keys == pending.Keys + {uuid} && r[uuid] == closure.value
    ensures closure.Some? ==> r == pending[uuid := closure.value]
    ensures forall u :: u in pending ==> u in r && r[u] == pending[u]
    ensures |r| == |pending| + (if closure.Some? then 1 else 0)
  {
    if closure.Some? then pending[uuid := closure.value] else pending
  }

  /** Reply resolution: the continuation filed under `uuid`, if any, and the
      table without it; an unknown uuid leaves the table as it was. */
  function Take<C>(pending: map<Uuid, C>, uuid: Uuid): (r: (Option<C>, map<Uuid, C>))
    ensures uuid !in pending ==> r == (None, pending)
    ensures uuid in pending ==> r.0 == Some(pending[uuid])
    ensures uuid in pending ==> r.1.Keys == pending.Keys - {uuid} && |r.1| == |pending| - 1
    ensures forall u :: u in r.1 ==> u in pending && r.1[u] == pending[u]
  {
    if uuid in pending then (Some(pending[uuid]), pending - {uuid}) else (None, pending)
  }

  /** A continuation filed by a request is the one its reply runs, and
      afterwards the table is back to what it was: it runs exactly once. */
  lemma RegisterThenTake<C>(pending: map<Uuid, C>, uuid: Uuid, closure: C)
    requires uuid !in pending
    ensures Take(Register(pending, uuid, Some(closure)), uuid) == (Some(closure), pending)
    ensures Take(Take(Register(pending, uuid, Some(closure)), uuid).1, uuid).0 == None
  {
    var r := Register(pending, uuid, Some(closure));
    assert r - {uuid} == pending;
  }
}
