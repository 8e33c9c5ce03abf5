/** The simpler assistant of `FRONTEND/app/src/pages/AI.tsx`: a sent question is
    followed in the log by exactly one reply. */
module AiChat {
  import opened Wrappers
  import opened Text
  import opened ChatApi
  import Chatbot

  datatype Message = Message(content: string, sender: Sender)

  const NoAnswer: string := "Sorry, I couldn't find an answer."

  /** `getAIResponse`: `data.choices && data.choices[0].message.content`, where an empty
      choices list or a choice without message throws a `TypeError` that the `catch`
      turns into the error text, and a falsy result gives the no-answer text. */
  function AiReply(response: ChatResponse): (r: string)
    ensures r != ""
    ensures response.RequestFailed? || response.NotOk? ==> r == RequestError
    ensures response == Answered(None) ==> r == NoAnswer
    ensures response.Answered? && response.choices.Some? && (|response.choices.value| == 0 || response.choices.value[0].message.None?)
      ==> r == RequestError
    ensures response.Answered? && Truthy(FirstContent(response.choices)) ==> r == FirstContent(response.choices).value
    ensures response.Answered? && response.choices.Some? && |response.choices.value| > 0
      && response.choices.value[0].message.Some? && !Truthy(response.choices.value[0].message.value.content)
      ==> r == NoAnswer
  {
    match response
    case RequestFailed => RequestError
    case NotOk => RequestError
    case Answered(None) => NoAnswer
    case Answered(Some(choices)) =>
      if |choices| == 0 || choices[0].message.None? then RequestError
      else
        var content := choices[0].message.value.content;
        if Truthy(content) then content.value else NoAnswer
  }

  /** The two chat pages agree on a usable answer and on a failed request, but an empty
      choices list is a "rephrase" fallback on one and an error on the other. */
  lemma PagesCompared(response: ChatResponse)
    ensures response.Answered? && Truthy(FirstContent(response.choices)) ==> AiReply(response) == Chatbot.ReplyText(response)
    ensures response.RequestFailed? || response.NotOk? ==> AiReply(response) == Chatbot.ReplyText(response)
    ensures response == Answered(Some([])) ==> AiReply(response) == RequestError && Chatbot.ReplyText(response) == Chatbot.RephraseFallback
  {
  }

  class AiPage {
    var messages: seq<Message>
    var userInput: string

    constructor ()
      ensures messages == [] && userInput == ""
    {
      messages := [];
      userInput := "";
    }

    method Type(text: string)
      modifies this
      ensures userInput == text && messages == old(messages)
    {
      userInput := text;
    }

    /** `handleSend` with the model's `response`: whitespace-only input does nothing;
        otherwise the question is appended, the box cleared, and the reply appended after it. */
    method Send(response: ChatResponse)
      modifies this
      ensures IsBlank(old(userInput)) ==> messages == old(messages) && userInput == old(userInput)
      ensures !IsBlank(old(userInput)) ==>
        (messages == old(messages) + [Message(old(userInput), User), Message(AiReply(response), Ai)] && userInput == "")
    {
      TrimEmptyIffBlank(userInput);
      if Trim(userInput) != "" {
        var question := userInput;
        messages := messages + [Message(question, User)];
        userInput := "";
        messages := messages + [Message(AiReply(response), Ai)];
      }
    }
  }

  /** Every question sent is answered: after any sends the log alternates question and
      reply, starting with a question. */
  ghost predicate Alternates(log: seq<Message>) {
    |log| % 2 == 0 && forall i :: 0 <= i < |log| ==> log[i].sender == (if i % 2 == 0 then User else Ai)
  }

  method AskTwice(first: string, second: string, r1: ChatResponse, r2: ChatResponse) returns (log: seq<Message>)
    ensures Alternates(log)
    ensures |log| == (if IsBlank(first) then 0 else 2) + (if IsBlank(second) then 0 else 2)
  {
    var page := new AiPage();
    page.Type(first);
    page.Send(r1);
    page.Type(second);
    page.Send(r2);
    log := page.messages;
  }
}
