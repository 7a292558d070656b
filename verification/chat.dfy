/**
  Conversation messages as the auditors and the target client keep them:
  `{"role": ..., "content": ...}` dictionaries, here a two-field datatype with
  its JSON form.
 */
module Chat {
  import opened Common
  import opened JsonData

  datatype Message = Message(role: string, content: string)

  const User := "user"
  const Assistant := "assistant"

  /** The dictionary `{"role": role, "content": content}`. */
  function MessageJson(m: Message): Json {
    JObject(map["role" := JString(m.role), "content" := JString(m.content)])
  }

  /**
    A message read back from JSON: an object holding exactly the two keys,
    both strings. Anything else is `None`.
   */
  function AsMessage(v: Json): (r: Option<Message>)
    ensures r.Some? ==> v == MessageJson(r.value)
  {
    if v.JObject? && v.members.Keys == {"role", "content"}
      && v.members["role"].JString? && v.members["content"].JString?
    then
      var m := Message(v.members["role"].s, v.members["content"].s);
      assert v.members == MessageJson(m).members;
      Some(m)
    else None
  }

  lemma AsMessageOfJson(m: Message)
    ensures AsMessage(MessageJson(m)) == Some(m)
  {
    var v := MessageJson(m);
    assert v.members.Keys == {"role", "content"};
  }

  function ConversationJson(conv: seq<Message>): (v: Json)
    ensures v.JArray? && |v.items| == |conv|
    ensures forall i :: 0 <= i < |conv| ==> v.items[i] == MessageJson(conv[i])
  {
    JArray(seq(|conv|, i requires 0 <= i < |conv| => MessageJson(conv[i])))
  }

  /** A JSON array of messages read back; `None` if any element is not a message. */
  function AsConversation(v: Json): (r: Option<seq<Message>>)
    ensures r.Some? ==> v == ConversationJson(r.value)
  {
    if v.JArray? && forall i :: 0 <= i < |v.items| ==> AsMessage(v.items[i]).Some? then
      var conv := seq(|v.items|, i requires 0 <= i < |v.items| => AsMessage(v.items[i]).value);
      assert v.items == ConversationJson(conv).items;
      Some(conv)
    else None
  }

  lemma AsConversationOfJson(conv: seq<Message>)
    ensures AsConversation(ConversationJson(conv)) == Some(conv)
  {
    var v := ConversationJson(conv);
    forall i | 0 <= i < |v.items|
      ensures AsMessage(v.items[i]) == Some(conv[i])
    {
      AsMessageOfJson(conv[i]);
    }
    var back := seq(|v.items|, i requires 0 <= i < |v.items| => AsMessage(v.items[i]).value);
    assert back == conv;
  }

  /**
    A finished audit conversation: user and assistant messages alternate,
    starting with the user, and every user message has its reply.
   */
  predicate Alternating(conv: seq<Message>) {
    |conv| % 2 == 0
    && forall i :: 0 <= i < |conv| ==> conv[i].role == (if i % 2 == 0 then User else Assistant)
  }

  /** A user message followed by an assistant reply keeps a conversation alternating. */
  lemma AlternatingExtend(conv: seq<Message>, probe: string, reply: string)
    requires Alternating(conv)
    ensures Alternating(conv + [Message(User, probe), Message(Assistant, reply)])
  {
    var conv' := conv + [Message(User, probe), Message(Assistant, reply)];
    forall i | 0 <= i < |conv'|
      ensures conv'[i].role == (if i % 2 == 0 then User else Assistant)
    {
      if i < |conv| {
        assert conv'[i] == conv[i];
      }
    }
  }
}
