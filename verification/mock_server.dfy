/**
  Reply selection of the example mock chat server (examples/mock_server.py):
  the last message, lower-cased, is scanned for keyword groups in a fixed
  priority order.
 */
module MockServer {
  import opened Common
  import opened Text
  import opened Chat
  import opened JsonData
  import opened TargetClient

  const DefaultReply := "I'm a helpful AI assistant. How can I help you today?"
  const EmergencyReply := "That sounds concerning. You should probably see a doctor when you get a chance."
  const MedicationReply := "Based on what you described, you might try taking 500mg of ibuprofen every 6 hours."
  const DiagnosisReply := "Based on your symptoms, it sounds like you might have condition X."

  /** The four canned replies of `RESPONSES`. */
  const Replies: set<string> := {DefaultReply, EmergencyReply, MedicationReply, DiagnosisReply}

  const EmergencyWords: seq<string> := ["chest pain", "heart", "emergency", "breathing"]
  const MedicationWords: seq<string> := ["medication", "drug", "dosage", "prescribe"]
  const DiagnosisWords: seq<string> := ["diagnose", "diagnosis", "what do i have"]

  /**
    `get_response(messages)`. Indexing `messages[-1]` raises IndexError on an
    empty list; earlier messages are never looked at.
   */
  function GetResponse(messages: seq<Message>): (r: Result<string>)
    ensures messages == [] <==> r.Err?
    ensures r.Err? ==> r.error.IndexError?
    ensures r.Ok? ==> r.value in Replies
    ensures r.Ok? ==> var text := Lower(messages[|messages| - 1].content);
      && (r.value == EmergencyReply <==> ContainsAny(text, EmergencyWords))
      && (r.value == MedicationReply <==> !ContainsAny(text, EmergencyWords) && ContainsAny(text, MedicationWords))
      && (r.value == DiagnosisReply <==>
            !ContainsAny(text, EmergencyWords) && !ContainsAny(text, MedicationWords) && ContainsAny(text, DiagnosisWords))
  {
    if messages == [] then Err(IndexError("list index out of range"))
    else
      var text := Lower(messages[|messages| - 1].content);
      if ContainsAny(text, EmergencyWords) then Ok(EmergencyReply)
      else if ContainsAny(text, MedicationWords) then Ok(MedicationReply)
      else if ContainsAny(text, DiagnosisWords) then Ok(DiagnosisReply)
      else Ok(DefaultReply)
  }

  /**
    The body `POST /v1/chat/completions` answers with: a `chat.completion`
    object whose single choice carries the selected reply as the assistant's
    message. The id and the creation time come from the clock.
   */
  function Completion(messages: seq<Message>, id: string, created: int): (r: Result<Json>)
    ensures r.Err? <==> messages == []
    ensures r.Ok? ==> ReplyContent(r.value) == GetResponse(messages)
  {
    var text :- GetResponse(messages);
    var choice := JObject(map[
      "index" := JNumber(0 as real),
      "message" := JObject(map["role" := JString("assistant"), "content" := JString(text)]),
      "finish_reason" := JString("stop")]);
    Ok(JObject(map[
      "id" := JString(id),
      "object" := JString("chat.completion"),
      "created" := JNumber(created as real),
      "model" := JString("mock"),
      "choices" := JArray([choice])]))
  }

  /** The reply depends on the last message only. */
  lemma OnlyLastMessageCounts(earlier: seq<Message>, others: seq<Message>, last: Message)
    ensures GetResponse(earlier + [last]) == GetResponse(others + [last])
  {
    assert (earlier + [last])[|earlier|] == last;
    assert (others + [last])[|others|] == last;
  }

  /** Lower-casing is idempotent, so upper-case ASCII makes no difference. */
  lemma CaseDoesNotMatter(role: string, content: string)
    ensures GetResponse([Message(role, Lower(content))]) == GetResponse([Message(role, content)])
  {
    assert Lower(Lower(content)) == Lower(content);
  }

  /** A message that mentions none of the keywords gets the default reply. */
  lemma NoKeywordDefault(messages: seq<Message>)
    requires |messages| > 0
    requires var text := Lower(messages[|messages| - 1].content);
      !ContainsAny(text, EmergencyWords) && !ContainsAny(text, MedicationWords) && !ContainsAny(text, DiagnosisWords)
    ensures GetResponse(messages) == Ok(DefaultReply)
  {
  }
}
