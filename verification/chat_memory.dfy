/**
 Chat memory: writing one finished turn into the store (`add_chat_to_memory`)
 and reading recent memory back as a flat list (`retrieve_chat_memory`). The
 clock and the store's query answer are parameters.
 */
module ChatMemory {
  import opened Decimal
  import opened PyValues
  import opened VectorStore

  // ---------------------------------------------------------------------------
  // Recording a turn
  // ---------------------------------------------------------------------------

  const UserTag := "User: "
  const AssistantTag := " \nAssistant: "

  /** The stored text of one turn: `f"User: {q} \nAssistant: {r}"`. */
  function ChatEntry(query: string, response: string): (e: string)
    ensures |e| == |UserTag| + |query| + |AssistantTag| + |response|
    ensures e[..|UserTag|] == UserTag
    ensures e[|UserTag|..|UserTag| + |query|] == query
    ensures e[|UserTag| + |query|..|e| - |response|] == AssistantTag
    ensures e[|e| - |response|..] == response
  {
    UserTag + query + AssistantTag + response
  }

  /** Knowing the query, the response can be read back from the entry. */
  function ResponseOf(entry: string, query: string): string
    requires |entry| >= |UserTag| + |query| + |AssistantTag|
  {
    entry[|UserTag| + |query| + |AssistantTag|..]
  }

  lemma ResponseRoundTrip(query: string, response: string)
    ensures ResponseOf(ChatEntry(query, response), query) == response
  {
  }

  /** Without knowing the query the entry does not determine the turn: a query
      that itself contains the assistant delimiter reads like a different turn. */
  lemma ChatEntryAmbiguous()
    ensures ChatEntry("a" + AssistantTag + "b", "c") == ChatEntry("a", "b" + AssistantTag + "c")
    ensures "a" + AssistantTag + "b" != "a"
  {
  }

  /** Python's `int(t)` on a float: truncation toward zero. */
  function TruncateSeconds(t: real): (secs: int)
    ensures t >= 0.0 ==> secs as real <= t < secs as real + 1.0
    ensures t < 0.0 ==> secs as real - 1.0 < t <= secs as real
  {
    if t >= 0.0 then t.Floor else -((-t).Floor)
  }

  /** The id of a turn recorded at clock reading `now`: `f"chat_{int(now)}"`. */
  function ChatId(now: real): (id: string)
    ensures |id| > 5 && id[..5] == "chat_"
    ensures id[5] == '-' <==> now <= -1.0
    ensures now >= 0.0 ==>
      AllDigits(id[5..]) && ParseNat(id[5..]) as real <= now < ParseNat(id[5..]) as real + 1.0
    ensures now >= 0.0 ==> (id[5] == '0' <==> now < 1.0)
    ensures -1.0 < now < 1.0 ==> id == "chat_0"
    ensures now <= -1.0 ==>
      && |id| > 6 && AllDigits(id[6..]) && id[6] != '0'
      && -(ParseNat(id[6..]) as real) - 1.0 < now <= -(ParseNat(id[6..]) as real)
  {
    "chat_" + IntToString(TruncateSeconds(now))
  }

  /** Two turns get the same id exactly when they are recorded within the same
      whole second: the collision of whole-second chat ids. */
  lemma ChatIdCollision(t1: real, t2: real)
    ensures ChatId(t1) == ChatId(t2) <==> TruncateSeconds(t1) == TruncateSeconds(t2)
  {
    var a, b := ChatId(t1), ChatId(t2);
    if a == b {
      assert a[5..] == IntToString(TruncateSeconds(t1));
      assert b[5..] == IntToString(TruncateSeconds(t2));
      IntToStringInjective(TruncateSeconds(t1), TruncateSeconds(t2));
    }
  }

  /** Two turns 0.5 seconds apart within one second collide. */
  lemma SameSecondTurnsCollide()
    ensures ChatId(1700000000.25) == ChatId(1700000000.75)
  {
    ChatIdCollision(1700000000.25, 1700000000.75);
  }

  /** The single add request `add_chat_to_memory` issues. */
  function RecordTurnCall(query: string, response: string, now: real): (call: AddCall)
    ensures WellFormed(call)
    ensures |call.ids| == 1
    ensures call.ids[0] == ChatId(now)
    ensures call.documents[0] == ChatEntry(query, response)
  {
    AddCall([ChatEntry(query, response)], [ChatId(now)])
  }

  /** `add_chat_to_memory` applied to a store: exactly one new entry, at the end. */
  function AddChatToMemory(store: Store, query: string, response: string, now: real): (r: Store)
    ensures |r| == |store| + 1
    ensures r[..|store|] == store
    ensures r[|store|] == Fragment(ChatId(now), ChatEntry(query, response))
    ensures ResponseOf(r[|store|].text, query) == response
    ensures r[|store|].text[|UserTag|..|UserTag| + |query|] == query
  {
    Add(store, RecordTurnCall(query, response, now))
  }

  // ---------------------------------------------------------------------------
  // Retrieving memory
  // ---------------------------------------------------------------------------

  /** A store query: the query texts and the number of results asked for. */
  datatype QueryRequest = QueryRequest(queryTexts: seq<string>, nResults: nat)

  const DefaultMemorySize: nat := 5

  /** The query `retrieve_chat_memory` sends: one empty query text. */
  function MemoryQuery(n: nat): QueryRequest {
    QueryRequest([""], n)
  }

  /** What the store answers: a falsy value, or a result whose `documents`
      entry holds one item per query text. */
  datatype QueryResult = Falsy | Results(documents: seq<Value>)

  /** `results["documents"] if results else []`. */
  function DocumentsOf(result: QueryResult): seq<Value> {
    match result
    case Falsy => []
    case Results(documents) => documents
  }

  /** What one item contributes to the flat list: a list is spliced, a string
      is appended, anything else is dropped. */
  function Splice(item: Value): seq<Value> {
    match item
    case List(items) => items
    case Str(_) => [item]
    case Other(_) => []
  }

  /** The reference flattening: each item's contribution, in item order. */
  function Flatten(docs: seq<Value>): seq<Value>
    decreases |docs|
  {
    if docs == [] then [] else Flatten(docs[..|docs| - 1]) + Splice(docs[|docs| - 1])
  }

  /** `retrieve_chat_memory` given the store's answer to its query, with the
      loop that builds `flat_documents`. */
  method RetrieveChatMemory(result: QueryResult) returns (flat: seq<Value>)
    ensures result.Falsy? ==> flat == []
    ensures flat == Flatten(DocumentsOf(result))
  {
    var documents := DocumentsOf(result);
    flat := [];
    var k := 0;
    while k < |documents|
      invariant 0 <= k <= |documents|
      invariant flat == Flatten(documents[..k])
      decreases |documents| - k
    {
      var sublist := documents[k];
      assert documents[..k + 1][..k] == documents[..k];
      match sublist {
        case List(items) => flat := flat + items;
        case Str(_) => flat := flat + [sublist];
        case Other(_) =>
      }
      k := k + 1;
    }
    assert documents[..k] == documents;
  }

  /** Flattening distributes over concatenation, so it keeps relative order. */
  lemma {:induction false} FlattenAppend(a: seq<Value>, b: seq<Value>)
    ensures Flatten(a + b) == Flatten(a) + Flatten(b)
    decreases |b|
  {
    if b == [] {
      assert a + b == a;
    } else {
      var b', last := b[..|b| - 1], b[|b| - 1];
      var ab := a + b;
      assert ab[..|ab| - 1] == a + b' && ab[|ab| - 1] == last;
      calc {
        Flatten(ab);
        Flatten(a + b') + Splice(last);
        { FlattenAppend(a, b'); }
        Flatten(a) + Flatten(b') + Splice(last);
        Flatten(a) + Flatten(b);
      }
    }
  }

  /** A flat list of strings is its own flattening. */
  lemma {:induction false} FlattenOfStrings(docs: seq<Value>)
    requires AllStr(docs)
    ensures Flatten(docs) == docs
    decreases |docs|
  {
    if docs != [] {
      var init := docs[..|docs| - 1];
      FlattenOfStrings(init);
      assert init + [docs[|docs| - 1]] == docs;
    }
  }

  /** Every value in the flat list is a string item of the input or an
      element of a list item, and every such value occurs in it. */
  lemma {:induction false} FlattenMembership(docs: seq<Value>, v: Value)
    ensures v in Flatten(docs) <==>
      (v.Str? && v in docs) || (exists j :: 0 <= j < |docs| && docs[j].List? && v in docs[j].items)
    decreases |docs|
  {
    if docs != [] {
      var init, last := docs[..|docs| - 1], docs[|docs| - 1];
      FlattenMembership(init, v);
      assert docs == init + [last];
      if v in Flatten(docs) && !(v in Flatten(init)) {
        assert v in Splice(last);
      }
      if exists j :: 0 <= j < |docs| && docs[j].List? && v in docs[j].items {
        var j :| 0 <= j < |docs| && docs[j].List? && v in docs[j].items;
        if j < |init| {
          assert init[j] == docs[j];
        }
      }
    }
  }

  /** The shape the store returns: one list of texts per query text (a bare
      text is tolerated too). */
  predicate Grouped(docs: seq<Value>) {
    forall j :: 0 <= j < |docs| ==> docs[j].Str? || (docs[j].List? && AllStr(docs[j].items))
  }

  /** Grouped answers flatten to texts only. */
  lemma GroupedFlattensToStrings(docs: seq<Value>)
    requires Grouped(docs)
    ensures AllStr(Flatten(docs))
  {
    var flat := Flatten(docs);
    forall i | 0 <= i < |flat|
      ensures flat[i].Str?
    {
      FlattenMembership(docs, flat[i]);
    }
  }

  /** Flattening a grouped answer a second time changes nothing. */
  lemma FlattenIdempotentOnGroups(docs: seq<Value>)
    requires Grouped(docs)
    ensures Flatten(Flatten(docs)) == Flatten(docs)
  {
    GroupedFlattensToStrings(docs);
    FlattenOfStrings(Flatten(docs));
  }

  // The converse of FlattenOfStrings: a list that flattening leaves unchanged
  // holds only strings. The argument counts constructors.

  /** The number of constructors in a sequence of values, nested lists included. */
  function Weight(docs: seq<Value>): nat
    decreases docs
  {
    if docs == [] then 0
    else
      var w := match docs[0]
        case List(items) => 1 + Weight(items)
        case _ => 1;
      w + Weight(docs[1..])
  }

  lemma {:induction false} WeightAppend(a: seq<Value>, b: seq<Value>)
    ensures Weight(a + b) == Weight(a) + Weight(b)
    decreases |a|
  {
    if a == [] {
      assert a + b == b;
    } else {
      assert (a + b)[0] == a[0];
      assert (a + b)[1..] == a[1..] + b;
      WeightAppend(a[1..], b);
    }
  }

  /** Flattening never adds weight, and removes some whenever a non-string is present. */
  lemma {:induction false} FlattenWeight(docs: seq<Value>)
    ensures Weight(Flatten(docs)) <= Weight(docs)
    ensures !AllStr(docs) ==> Weight(Flatten(docs)) < Weight(docs)
    decreases |docs|
  {
    if docs != [] {
      var init, last := docs[..|docs| - 1], docs[|docs| - 1];
      assert docs == init + [last];
      FlattenWeight(init);
      WeightAppend(init, [last]);
      WeightAppend(Flatten(init), Splice(last));
      assert [last][1..] == [];
      if !AllStr(docs) && AllStr(init) {
        assert !last.Str?;
      }
    }
  }

  /** Flattening leaves a list unchanged exactly when it holds only strings. */
  lemma FlattenFixpoint(docs: seq<Value>)
    ensures Flatten(docs) == docs <==> AllStr(docs)
  {
    if AllStr(docs) {
      FlattenOfStrings(docs);
    } else {
      FlattenWeight(docs);
    }
  }

  /** A falsy answer, or an answer with no documents, leaves memory empty. */
  lemma EmptyAnswerEmptyMemory(result: QueryResult)
    requires result.Falsy? || result.documents == []
    ensures Flatten(DocumentsOf(result)) == []
  {
  }
}
