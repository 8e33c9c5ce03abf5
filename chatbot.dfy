/** The tutoring chat of `FRONTEND/app/src/pages/Chatbot.tsx`: an append-only message
    log fed by the text box, by speech recognition and by the model's replies, which
    arrive after the request they answer. The request itself and the clock are
    parameters. */
module Chatbot {
  import opened Wrappers
  import opened Text
  import opened ChatApi

  datatype Message = Message(content: string, sender: Sender, timestamp: string)

  const EmptyInputPrompt: string := "Please type a message before sending."
  const RephraseFallback: string := "I couldn’t process your question. Could you try rephrasing it?"
  const VoiceError: string := "Voice recognition error occurred."
  const VoiceUnsupported: string := "Voice recognition is not supported in this browser."

  /** The text `fetchAIResponse` appends for a response: the first choice's content, the
      rephrasing fallback when that is missing or empty, the error text when the request
      failed. */
  function ReplyText(response: ChatResponse): (r: string)
    ensures r != ""
    ensures response.RequestFailed? || response.NotOk? ==> r == RequestError
    ensures response.Answered? && Truthy(FirstContent(response.choices)) ==> r == FirstContent(response.choices).value
    ensures response.Answered? && !Truthy(FirstContent(response.choices)) ==> r == RephraseFallback
  {
    match response
    case RequestFailed => RequestError
    case NotOk => RequestError
    case Answered(choices) =>
      var content := FirstContent(choices);
      if Truthy(content) then content.value else RephraseFallback
  }

  /** An answer with an empty choices list, a choice without message, or a message
      without content all get the fallback. */
  lemma MissingContentFallsBack(choices: Option<seq<Choice>>)
    requires choices.None? || |choices.value| == 0 || choices.value[0].message.None? || choices.value[0].message.value.content.None?
    ensures ReplyText(Answered(choices)) == RephraseFallback
  {
  }

  class ChatbotPage {
    var messages: seq<Message>
    var userInput: string
    var isListening: bool
    var language: string

    constructor ()
      ensures messages == [] && userInput == "" && !isListening && language == "en-US"
    {
      messages := [];
      userInput := "";
      isListening := false;
      language := "en-US";
    }

    /** `appendMessage`: one message at the end, the earlier ones untouched. */
    method AppendMessage(content: string, sender: Sender, now: string)
      modifies this
      ensures messages == old(messages) + [Message(content, sender, now)]
      ensures |messages| == |old(messages)| + 1 && messages[..|old(messages)|] == old(messages)
      ensures userInput == old(userInput) && isListening == old(isListening) && language == old(language)
    {
      messages := messages + [Message(content, sender, now)];
    }

    method Type(text: string)
      modifies this
      ensures userInput == text
      ensures messages == old(messages) && isListening == old(isListening) && language == old(language)
    {
      userInput := text;
    }

    /** `handleSend`: input that is not all whitespace is appended as the user's, sent
        to the model (`request`) and cleared; otherwise the assistant asks for a message
        and nothing is sent. */
    method Send(now: string) returns (request: Option<string>)
      modifies this
      ensures !IsBlank(old(userInput)) ==>
        (request == Some(old(userInput)) && messages == old(messages) + [Message(old(userInput), User, now)] && userInput == "")
      ensures IsBlank(old(userInput)) ==>
        (request == None && messages == old(messages) + [Message(EmptyInputPrompt, Ai, now)] && userInput == old(userInput))
      ensures isListening == old(isListening) && language == old(language)
    {
      TrimEmptyIffBlank(userInput);
      if Trim(userInput) != "" {
        AppendMessage(userInput, User, now);
        request := Some(userInput);
        userInput := "";
      } else {
        AppendMessage(EmptyInputPrompt, Ai, now);
        request := None;
      }
    }

    /** The end of `fetchAIResponse`: the reply to an earlier request is appended. */
    method ReceiveReply(response: ChatResponse, now: string)
      modifies this
      ensures messages == old(messages) + [Message(ReplyText(response), Ai, now)]
      ensures userInput == old(userInput) && isListening == old(isListening) && language == old(language)
    {
      AppendMessage(ReplyText(response), Ai, now);
    }

    /** `startVoiceRecognition`: without speech recognition the assistant says so;
        otherwise listening starts. */
    method StartVoice(supported: bool, now: string)
      modifies this
      ensures !supported ==> messages == old(messages) + [Message(VoiceUnsupported, Ai, now)] && isListening == old(isListening)
      ensures supported ==> messages == old(messages) && isListening
      ensures userInput == old(userInput) && language == old(language)
    {
      if !supported {
        AppendMessage(VoiceUnsupported, Ai, now);
      } else {
        isListening := true;
      }
    }

    /** `recognition.onresult`: the transcript fills the box, is appended as the
        user's and is sent; the box is not cleared. */
    method VoiceResult(transcript: string, now: string) returns (request: string)
      modifies this
      ensures request == transcript && userInput == transcript
      ensures messages == old(messages) + [Message(transcript, User, now)]
      ensures isListening == old(isListening) && language == old(language)
    {
      userInput := transcript;
      AppendMessage(transcript, User, now);
      request := transcript;
    }

    /** `recognition.onerror`. */
    method VoiceFailed(now: string)
      modifies this
      ensures messages == old(messages) + [Message(VoiceError, Ai, now)]
      ensures userInput == old(userInput) && isListening == old(isListening) && language == old(language)
    {
      AppendMessage(VoiceError, Ai, now);
    }

    /** `recognition.onend`. */
    method VoiceEnded()
      modifies this
      ensures !isListening
      ensures messages == old(messages) && userInput == old(userInput) && language == old(language)
    {
      isListening := false;
    }

    /** `handleLanguageChange`. */
    method ChangeLanguage(lang: string)
      modifies this
      ensures language == lang
      ensures messages == old(messages) && userInput == old(userInput) && isListening == old(isListening)
    {
      language := lang;
    }
  }

  /** A blank send, a real question and its answer, then a failed request: the log
      records them in that order and only the question was sent. */
  method ChatScenario() returns (log: seq<Message>, blankRequest: Option<string>, request: Option<string>)
    ensures blankRequest == None && request == Some("What is 2+2?")
    ensures log == [
      Message(EmptyInputPrompt, Ai, "10:00"),
      Message("What is 2+2?", User, "10:01"),
      Message("4", Ai, "10:02"),
      Message(RequestError, Ai, "10:03")]
  {
    var page := new ChatbotPage();
    page.Type("   ");
    assert IsBlank("   ") by {
      assert forall i :: 0 <= i < 3 ==> "   "[i] == ' ';
    }
    blankRequest := page.Send("10:00");
    page.Type("What is 2+2?");
    assert !IsWhitespace("What is 2+2?"[0]);
    request := page.Send("10:01");
    var answer := Answered(Some([Choice(Some(ChatMessage(Some("4"))))]));
    assert ReplyText(answer) == "4";
    page.ReceiveReply(answer, "10:02");
    page.ReceiveReply(RequestFailed, "10:03");
    log := page.messages;
  }
}
