/**
 The embedding function handed to the vector store: it normalises its input to
 a batch and passes the batch to the embedding model, which is an opaque
 parameter here.
 */
module Embedding {
  import opened PyValues

  type Vector = seq<real>

  const InvalidInputMessage := "Input to the embedding function must be a string or a list of strings."

  /** Input normalisation: a string becomes a batch of one, a list is the batch
      as it stands (its items are not inspected), anything else is refused. */
  function Normalize(input: Value): (r: Result<seq<Value>>)
    ensures r.Ok? <==> input.Str? || input.List?
    ensures input.Str? ==> r.value == [input]
    ensures input.List? ==> r.value == input.items
    ensures r.Err? ==> r.error == ValueError(InvalidInputMessage)
  {
    match input
    case Str(_) => Ok([input])
    case List(items) => Ok(items)
    case Other(_) => Err(ValueError(InvalidInputMessage))
  }

  /** A normalised batch, wrapped as a list, normalises to itself. */
  lemma NormalizeIdempotent(input: Value)
    requires Normalize(input).Ok?
    ensures Normalize(List(Normalize(input).value)) == Normalize(input)
  {
  }

  /** The embedding call together with the batch that reached the model. */
  datatype Embedded = Embedded(batch: seq<Value>, vectors: seq<Vector>)

  /** `ChromaDBEmbeddingFunction.__call__`: normalise, then ask the model. */
  function Call(input: Value, embedDocuments: seq<Value> -> seq<Vector>): (r: Result<Embedded>)
    ensures r.Ok? <==> !input.Other?
    ensures r.Ok? ==> Normalize(input) == Ok(r.value.batch)
    ensures r.Ok? ==> r.value.vectors == embedDocuments(r.value.batch)
    ensures r.Err? ==> r.error == ValueError(InvalidInputMessage)
  {
    match Normalize(input)
    case Ok(batch) => Ok(Embedded(batch, embedDocuments(batch)))
    case Err(e) => Err(e)
  }

  /** A refused input never reaches the model: the outcome is the same whatever the model is. */
  lemma RefusedInputMakesNoModelCall(input: Value, f: seq<Value> -> seq<Vector>, g: seq<Value> -> seq<Vector>)
    requires input.Other?
    ensures Call(input, f) == Call(input, g)
    ensures Call(input, f).Err?
  {
  }

  /** A string and the one-element list holding it are embedded identically. */
  lemma StringIsBatchOfOne(s: string, f: seq<Value> -> seq<Vector>)
    ensures Call(Str(s), f) == Call(List([Str(s)]), f)
  {
  }
}
