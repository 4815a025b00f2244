/**
 The vector store as the memory pipeline sees it. Every write goes through
 `collection.add(documents=..., ids=...)`; the store is modelled as the
 append-only log of the (id, text) pairs those calls hand over, in order.
 Embedding, persistence and similarity search belong to the store library and
 are not modelled.
 */
module VectorStore {

  datatype Fragment = Fragment(id: string, text: string)

  type Store = seq<Fragment>

  /** One `collection.add(documents=documents, ids=ids)` request. */
  datatype AddCall = AddCall(documents: seq<string>, ids: seq<string>)

  /** The store library refuses an add whose id and document lists differ in length. */
  predicate WellFormed(call: AddCall) {
    |call.documents| == |call.ids|
  }

  predicate AllWellFormed(calls: seq<AddCall>) {
    forall i :: 0 <= i < |calls| ==> WellFormed(calls[i])
  }

  /** The fragments one add request describes, id `i` paired with document `i`. */
  function Fragments(call: AddCall): (fs: seq<Fragment>)
    requires WellFormed(call)
    ensures |fs| == |call.ids|
    ensures forall i :: 0 <= i < |fs| ==> fs[i].id == call.ids[i] && fs[i].text == call.documents[i]
  {
    seq(|call.ids|, i requires 0 <= i < |call.ids| => Fragment(call.ids[i], call.documents[i]))
  }

  /** The store after one add request: the old entries, untouched, then the new pairs in order. */
  function Add(store: Store, call: AddCall): (r: Store)
    requires WellFormed(call)
    ensures |r| == |store| + |call.ids|
    ensures r[..|store|] == store
    ensures forall i :: 0 <= i < |call.ids| ==>
      r[|store| + i] == Fragment(call.ids[i], call.documents[i])
  {
    store + Fragments(call)
  }

  /** The store after a sequence of add requests, issued in order. */
  function AddAll(store: Store, calls: seq<AddCall>): Store
    requires AllWellFormed(calls)
    decreases |calls|
  {
    if calls == [] then store else AddAll(Add(store, calls[0]), calls[1..])
  }

  /** Only the add requests change the store: no request, no change; one request, one `Add`. */
  lemma AddAllSingle(store: Store, calls: seq<AddCall>)
    requires AllWellFormed(calls)
    ensures calls == [] ==> AddAll(store, calls) == store
    ensures |calls| == 1 ==> AddAll(store, calls) == Add(store, calls[0])
  {
  }

  function Ids(store: Store): (ids: seq<string>)
    ensures |ids| == |store|
    ensures forall i :: 0 <= i < |store| ==> ids[i] == store[i].id
  {
    seq(|store|, i requires 0 <= i < |store| => store[i].id)
  }

  predicate DistinctIds(ids: seq<string>) {
    forall i, j :: 0 <= i < j < |ids| ==> ids[i] != ids[j]
  }
}
