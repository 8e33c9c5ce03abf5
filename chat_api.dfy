/** The chat-completion answer both chat pages receive, as far as they look into it:
    whether the request went through, and the `choices[0].message.content` path of the
    JSON body, any step of which may be missing. */
module ChatApi {
  import opened Wrappers

  datatype Sender = User | Ai

  datatype ChatMessage = ChatMessage(content: Option<string>)
  datatype Choice = Choice(message: Option<ChatMessage>)

  datatype ChatResponse =
    | RequestFailed         // `fetch` or `response.json()` threw
    | NotOk                 // `response.ok` is false
    | Answered(choices: Option<seq<Choice>>)

  const RequestError: string := "Sorry, there was an error processing your request."

  /** `data.choices?.[0]?.message?.content`. */
  function FirstContent(choices: Option<seq<Choice>>): (r: Option<string>)
    ensures r.Some? <==> choices.Some? && |choices.value| > 0 && choices.value[0].message.Some? && choices.value[0].message.value.content.Some?
    ensures r.Some? ==> r == choices.value[0].message.value.content
  {
    if choices.Some? && |choices.value| > 0 && choices.value[0].message.Some? then choices.value[0].message.value.content
    else None
  }

  /** A JavaScript string is truthy when it is not empty. */
  predicate Truthy(s: Option<string>) {
    s.Some? && s.value != ""
  }
}
