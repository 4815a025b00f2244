/**
 The query pipeline (`rag_pipeline`): read memory, join it into a context
 block, wrap context and query in the prompt template, ask the language model,
 record the turn, and hand the model's answer back. The model and the store's
 query answer are parameters.
 */
module Rag {
  import opened Decimal
  import opened PyValues
  import opened VectorStore
  import opened ChatMemory

  // ---------------------------------------------------------------------------
  // Joining memory into a context block
  // ---------------------------------------------------------------------------

  const MemorySeparator := " \n"

  function TotalLength(parts: seq<string>): nat
    decreases |parts|
  {
    if parts == [] then 0 else TotalLength(parts[..|parts| - 1]) + |parts[|parts| - 1]|
  }

  /** Python's `sep.join(parts)` on a list of strings. */
  function Join(sep: string, parts: seq<string>): (s: string)
    decreases |parts|
  {
    if parts == [] then ""
    else if |parts| == 1 then parts[0]
    else Join(sep, parts[..|parts| - 1]) + sep + parts[|parts| - 1]
  }

  /** The joined string opens with the first part and closes with the last. */
  lemma {:induction false} JoinEnds(sep: string, parts: seq<string>)
    requires parts != []
    ensures |parts[0]| <= |Join(sep, parts)| && Join(sep, parts)[..|parts[0]|] == parts[0]
    ensures |parts[|parts| - 1]| <= |Join(sep, parts)|
    ensures Join(sep, parts)[|Join(sep, parts)| - |parts[|parts| - 1]|..] == parts[|parts| - 1]
    decreases |parts|
  {
    if |parts| > 1 {
      var init := parts[..|parts| - 1];
      JoinEnds(sep, init);
      assert init[0] == parts[0];
    }
  }

  /** The joined string is as long as its parts plus one separator between each neighbouring pair. */
  lemma {:induction false} JoinLength(sep: string, parts: seq<string>)
    requires parts != []
    ensures |Join(sep, parts)| + |sep| == TotalLength(parts) + |parts| * |sep|
    decreases |parts|
  {
    if |parts| > 1 {
      var init := parts[..|parts| - 1];
      JoinLength(sep, init);
      assert |Join(sep, parts)| == |Join(sep, init)| + |sep| + |parts[|parts| - 1]|;
      assert |parts| * |sep| == |init| * |sep| + |sep|;
    }
  }

  /** Joining two non-empty runs is joining each and putting one separator between. */
  lemma {:induction false} JoinConcat(sep: string, a: seq<string>, b: seq<string>)
    requires a != [] && b != []
    ensures Join(sep, a + b) == Join(sep, a) + sep + Join(sep, b)
    decreases |b|
  {
    var ab := a + b;
    var last := b[|b| - 1];
    assert ab[|ab| - 1] == last;
    if |b| == 1 {
      assert ab[..|ab| - 1] == a;
      assert Join(sep, ab) == Join(sep, a) + sep + last;
    } else {
      var b' := b[..|b| - 1];
      assert ab[..|ab| - 1] == a + b';
      assert Join(sep, ab) == Join(sep, a + b') + sep + last;
      JoinConcat(sep, a, b');
      assert Join(sep, b) == Join(sep, b') + sep + last;
    }
  }

  /** The index of the first item that is not a string. */
  function FirstNonStr(vals: seq<Value>): (i: nat)
    requires !AllStr(vals)
    ensures i < |vals| && !vals[i].Str?
    ensures forall j :: 0 <= j < i ==> vals[j].Str?
    decreases |vals|
  {
    if !vals[0].Str? then 0 else 1 + FirstNonStr(vals[1..])
  }

  /** At most this many characters of the type name appear in join's error message. */
  const TypeNameLimit := 80

  /** The message of join's TypeError: `"sequence item %zd: expected str instance, %.80s found"`. */
  function JoinErrorMessage(index: nat, typeName: string): (m: string)
    ensures var k := |"sequence item "| + |NatToString(index)| + |": expected str instance, "|;
      var n := if |typeName| <= TypeNameLimit then |typeName| else TypeNameLimit;
      && |m| == k + n + |" found"|
      && m[k..k + n] == typeName[..n]
    ensures var pre := "sequence item " + NatToString(index) + ": expected str instance, ";
      var n := if |typeName| <= TypeNameLimit then |typeName| else TypeNameLimit;
      && m[..|pre|] == pre && m[|pre| + n..] == " found"
  {
    var shown := if |typeName| <= TypeNameLimit then typeName else typeName[..TypeNameLimit];
    "sequence item " + NatToString(index) + ": expected str instance, " + shown + " found"
  }

  /** `sep.join(vals)` on arbitrary values: a TypeError naming the first
      non-string item, otherwise the joined texts. */
  function JoinValues(sep: string, vals: seq<Value>): (r: Result<string>)
    ensures r.Ok? <==> AllStr(vals)
    ensures r.Ok? ==> r.value == Join(sep, Texts(vals))
    ensures r.Err? ==> var i := FirstNonStr(vals); r.error == TypeError(JoinErrorMessage(i, TypeName(vals[i])))
  {
    if AllStr(vals) then Ok(Join(sep, Texts(vals)))
    else
      var i := FirstNonStr(vals);
      Err(TypeError(JoinErrorMessage(i, TypeName(vals[i]))))
  }

  // ---------------------------------------------------------------------------
  // Prompt construction
  // ---------------------------------------------------------------------------

  /** The part of the prompt after the context block. */
  function PromptSuffix(query: string): string {
    "\nUser: " + query + "\nAssistant:"
  }

  /** `context = " \n".join(memory) if memory else ""` followed by the template. */
  function BuildPrompt(memory: seq<Value>, query: string): (r: Result<string>)
    ensures r.Ok? <==> AllStr(memory)
    ensures memory == [] ==> r == Ok(PromptSuffix(query))
    ensures r.Ok? ==> |r.value| >= |PromptSuffix(query)|
    ensures r.Ok? ==> r.value[|r.value| - |PromptSuffix(query)|..] == PromptSuffix(query)
    ensures r.Ok? ==> r.value[..|r.value| - |PromptSuffix(query)|] == Join(MemorySeparator, Texts(memory))
    ensures r.Err? ==> r.error.TypeError?
  {
    var context := if memory == [] then Ok("") else JoinValues(MemorySeparator, memory);
    match context
    case Ok(c) =>
      assert memory == [] ==> c + PromptSuffix(query) == PromptSuffix(query);
      Ok(c + PromptSuffix(query))
    case Err(e) => Err(e)
  }

  /** With one memory entry the context is that entry alone; with more, each
      further entry follows a separator. */
  lemma PromptOfOneMore(memory: seq<string>, entry: string, query: string)
    requires memory != []
    ensures BuildPrompt(Strs(memory + [entry]), query) ==
      Ok(Join(MemorySeparator, memory) + MemorySeparator + entry + PromptSuffix(query))
  {
    var m := memory + [entry];
    assert Texts(Strs(m)) == m;
    assert m[..|m| - 1] == memory;
  }

  // ---------------------------------------------------------------------------
  // The pipeline
  // ---------------------------------------------------------------------------

  /** What one run of the pipeline produced: the prompt sent to the model, its
      answer, the add requests issued and the store afterwards. */
  datatype Turn = Turn(prompt: string, response: string, writes: seq<AddCall>, store: Store)

  /** The memory the pipeline reads for a given store answer. */
  function Memory(answer: QueryRequest -> QueryResult): seq<Value> {
    Flatten(DocumentsOf(answer(MemoryQuery(DefaultMemorySize))))
  }

  /** `rag_pipeline(query)`: the model's answer is returned unchanged and
      exactly one turn is written. A memory item that is not a string makes the
      join raise before the model is asked and before anything is written. */
  function RagPipeline(
    store: Store, query: string,
    answer: QueryRequest -> QueryResult, generate: string -> string, now: real): (r: Result<Turn>)
    ensures r.Ok? <==> AllStr(Memory(answer))
    ensures r.Err? ==> r.error.TypeError?
    ensures r.Ok? ==> r.value.response == generate(r.value.prompt)
    ensures r.Ok? ==> BuildPrompt(Memory(answer), query) == Ok(r.value.prompt)
    ensures r.Ok? ==> |r.value.writes| == 1 && r.value.writes[0] == RecordTurnCall(query, r.value.response, now)
    ensures r.Ok? ==> |r.value.store| == |store| + 1 && r.value.store[..|store|] == store
    ensures r.Ok? ==> r.value.store[|store|] == Fragment(ChatId(now), ChatEntry(query, r.value.response))
  {
    match BuildPrompt(Memory(answer), query)
    case Err(e) => Err(e)
    case Ok(prompt) =>
      var response := generate(prompt);
      var call := RecordTurnCall(query, response, now);
      Ok(Turn(prompt, response, [call], AddChatToMemory(store, query, response, now)))
  }

  /** A join failure happens before the model is asked: the outcome is the
      same whatever the model is, and no turn is written. */
  lemma FailedJoinMakesNoModelCall(
    store: Store, query: string,
    answer: QueryRequest -> QueryResult, g1: string -> string, g2: string -> string, now: real)
    requires !AllStr(Memory(answer))
    ensures RagPipeline(store, query, answer, g1, now) == RagPipeline(store, query, answer, g2, now)
    ensures RagPipeline(store, query, answer, g1, now).Err?
  {
  }

  /** The recorded entry holds the query and the model's answer, in that order
      and at fixed places. */
  lemma RecordedTurnHoldsQueryAndResponse(
    store: Store, query: string,
    answer: QueryRequest -> QueryResult, generate: string -> string, now: real)
    requires RagPipeline(store, query, answer, generate, now).Ok?
    ensures var t := RagPipeline(store, query, answer, generate, now).value;
      && t.store[|store|].text[|UserTag|..|UserTag| + |query|] == query
      && ResponseOf(t.store[|store|].text, query) == t.response
  {
  }

  /** The store's own answer shape (lists of texts) never makes the pipeline fail. */
  lemma PipelineSucceedsOnStoreShape(
    store: Store, query: string,
    answer: QueryRequest -> QueryResult, generate: string -> string, now: real)
    requires Grouped(DocumentsOf(answer(MemoryQuery(DefaultMemorySize))))
    ensures RagPipeline(store, query, answer, generate, now).Ok?
  {
    GroupedFlattensToStrings(DocumentsOf(answer(MemoryQuery(DefaultMemorySize))));
  }

  /** With nothing in memory the prompt is the bare template. */
  lemma FirstQueryPrompt(
    store: Store, query: string,
    answer: QueryRequest -> QueryResult, generate: string -> string, now: real)
    requires answer(MemoryQuery(DefaultMemorySize)) == Falsy
    ensures RagPipeline(store, query, answer, generate, now).Ok?
    ensures RagPipeline(store, query, answer, generate, now).value.prompt == "\nUser: " + query + "\nAssistant:"
    ensures RagPipeline(store, query, answer, generate, now).value.response == generate("\nUser: " + query + "\nAssistant:")
  {
  }
}
