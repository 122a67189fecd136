/** The chat-completion records of the OpenAI client: a message and its
    dict form, and a completion read from the service's response with a
    default for every missing field. */
module OpenAIModels {
  import opened Wrappers
  import opened Json

  /** A chat message; the response's values are taken as they come. */
  datatype ChatMessage = ChatMessage(role: Json, content: Json)

  datatype ChatChoice = ChatChoice(index: Json, message: ChatMessage, finishReason: Json)

  datatype ChatCompletion = ChatCompletion(id: Json, choices: seq<ChatChoice>, usage: Json)

  /** `to_dict`: exactly the role and the content. */
  function ToDict(m: ChatMessage): (r: Document)
    ensures r.Keys == {"role", "content"}
    ensures r["role"] == m.role && r["content"] == m.content
  {
    map["role" := m.role, "content" := m.content]
  }

  /** A message read from its dict, as `from_response` reads one: a missing
      role or content is empty. */
  function MessageOf(d: Document): ChatMessage
  {
    ChatMessage(Get(d, "role", JStr("")), Get(d, "content", JStr("")))
  }

  /** Reading a message's dict form gives the message back. */
  lemma MessageRoundTrip(m: ChatMessage)
    ensures MessageOf(ToDict(m)) == m
  {
  }

  /** One choice of the response: it and its message must be dicts (`get`
      on anything else raises); a missing index is 0, a missing finish
      reason empty. */
  function ChoiceOf(choice: Json, i: nat): (r: Result<ChatChoice>)
    ensures r.Ok? <==> choice.JObj? && Get(choice.fields, "message", JObj(map[])).JObj?
  {
    if !choice.JObj? then Err("AttributeError")
    else
      var c := choice.fields;
      var message := Get(c, "message", JObj(map[]));
      if !message.JObj? then Err("AttributeError")
      else Ok(ChatChoice(Get(c, "index", JInt(0)), MessageOf(message.fields), Get(c, "finish_reason", JStr(""))))
  }

  /** `ChatCompletion.from_response`. */
  function FromResponse(response: Document): Result<ChatCompletion>
  {
    var items :- Items(Get(response, "choices", JList([])));
    var choices :- MapAll(items, ChoiceOf);
    Ok(ChatCompletion(Get(response, "id", JStr("")), choices, Get(response, "usage", JObj(map[]))))
  }

  /** One choice per response choice, in order, each read field by field
      with its defaults; the id and the usage default to empty. */
  lemma FromResponseChoices(response: Document, choices: seq<Json>)
    requires Get(response, "choices", JList([])) == JList(choices)
    requires forall i :: 0 <= i < |choices| ==> choices[i].JObj? && Get(choices[i].fields, "message", JObj(map[])).JObj?
    ensures FromResponse(response).Ok?
    ensures var c := FromResponse(response).value;
      |c.choices| == |choices| &&
      (forall i :: 0 <= i < |choices| ==>
        var d := choices[i].fields;
        var m := Get(d, "message", JObj(map[])).fields;
        c.choices[i] == ChatChoice(Get(d, "index", JInt(0)),
                                   ChatMessage(Get(m, "role", JStr("")), Get(m, "content", JStr(""))),
                                   Get(d, "finish_reason", JStr("")))) &&
      c.id == Get(response, "id", JStr("")) && c.usage == Get(response, "usage", JObj(map[]))
  {
    assert forall i :: 0 <= i < |choices| ==> ChoiceOf(choices[i], i).Ok?;
  }

  /** A response with none of the fields reads as an empty completion. */
  lemma FromEmptyResponse()
    ensures FromResponse(map[]) == Ok(ChatCompletion(JStr(""), [], JObj(map[])))
  {
  }

  /** A choice that is not a dict makes the whole reading fail. */
  lemma FromResponseRejects(response: Document, choices: seq<Json>, k: nat)
    requires Get(response, "choices", JList([])) == JList(choices)
    requires k < |choices| && !choices[k].JObj?
    ensures FromResponse(response).Err?
  {
    assert ChoiceOf(choices[k], k).Err?;
  }

  /** `content`: the first choice's message content, or empty without
      choices. */
  function Content(c: ChatCompletion): (r: Json)
    ensures |c.choices| == 0 ==> r == JStr("")
    ensures |c.choices| > 0 ==> r == c.choices[0].message.content
  {
    if |c.choices| == 0 then JStr("") else c.choices[0].message.content
  }

  /** The content of a read response is the content of its first choice's
      message, empty when that is missing. */
  lemma ContentOfResponse(response: Document, choices: seq<Json>)
    requires Get(response, "choices", JList([])) == JList(choices) && FromResponse(response).Ok?
    ensures |choices| == 0 ==> Content(FromResponse(response).value) == JStr("")
    ensures |choices| > 0 ==>
      Content(FromResponse(response).value) ==
        Get(Get(choices[0].fields, "message", JObj(map[])).fields, "content", JStr(""))
  {
    var items := choices;
    var f := MapAll(items, ChoiceOf);
    if |choices| > 0 {
      assert ChoiceOf(choices[0], 0) == Ok(f.value[0]);
    }
  }
}
