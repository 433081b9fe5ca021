/** The chat window: the message list of one chat section, the input field, the
    loading flag and the error line, driven by the send handler. The handler is
    split at its await: the remote reply, or its failure, is a separate step
    whose outcome is a parameter. */
module Chat {
  import opened Common
  import opened Text

  /** A chat handle created by the remote service, numbered in creation order. */
  type ChatId = nat

  /** One sendMessage call: the text sent and the chat handle passed along (none
      for the first message of the window). */
  datatype Request = Request(text: string, chat: Option<ChatId>)

  const SendFailedMessage: string := "Failed to get a response. Please check your connection and try again."

  /** The text handleSendMessage sends: the given text when it is a non-empty
      string, the input field otherwise, trimmed either way. */
  function SendText(messageText: Option<string>, userInput: string): string
  {
    Trim(if messageText.Some? && messageText.value != "" then messageText.value else userInput)
  }

  /** A non-empty suggestion is sent instead of whatever the input field holds. */
  lemma SuggestionTakesPriority(suggestion: string, userInput: string)
    requires suggestion != ""
    ensures SendText(Some(suggestion), userInput) == Trim(suggestion)
  {
  }

  /** An empty suggestion falls back to the input field, like a form submission. */
  lemma EmptySuggestionFallsBack(userInput: string)
    ensures SendText(Some(""), userInput) == SendText(None, userInput)
  {
  }

  /** The text sent never begins or ends with white space or a line terminator,
      and it is empty exactly when the chosen text is blank. */
  lemma SendTextIsTrimmed(messageText: Option<string>, userInput: string)
    ensures var t := SendText(messageText, userInput);
      t != [] ==> !IsTrimmable(t[0]) && !IsTrimmable(t[|t| - 1])
    ensures SendText(messageText, userInput) == "" <==>
      AllTrimmable(if messageText.Some? && messageText.value != "" then messageText.value else userInput)
  {
    var chosen := if messageText.Some? && messageText.value != "" then messageText.value else userInput;
    TrimIsTight(chosen);
    TrimEmptyIff(chosen);
  }

  /** The chat handle sendMessage talks to: the one it was given, or the one it
      creates when it was given none. */
  function ChatUsed(chat: Option<ChatId>, created: ChatId): (c: ChatId)
    ensures chat.Some? ==> c == chat.value
    ensures chat.None? ==> c == created
  {
    if chat.Some? then chat.value else created
  }

  class ChatWindow {
    var messages: seq<ChatMessage>
    var userInput: string
    var isLoading: bool
    var error: Option<string>
    /** chatInstanceRef.current. */
    var chatInstance: Option<ChatId>
    /** Every sendMessage call, in order. */
    var requests: seq<Request>
    /** The message list as it was before the pending request's user message. */
    ghost var beforeSend: seq<ChatMessage>

    ghost predicate Valid()
      reads this
    {
      // while a request is pending, the list is what it was before plus the
      // user message carrying exactly the text that was sent
      isLoading ==>
        |requests| > 0 && messages == beforeSend + [ChatMessage(User, requests[|requests| - 1].text)]
    }

    /** The first render: no messages, an empty input, nothing loading, no error
        and no chat handle yet. */
    constructor ()
      ensures Valid()
      ensures messages == [] && userInput == "" && !isLoading && error == None
      ensures chatInstance == None && requests == []
    {
      messages := [];
      userInput := "";
      isLoading := false;
      error := None;
      chatInstance := None;
      requests := [];
      beforeSend := [];
    }

    /** The input field's change handler; the field is disabled while loading. */
    method SetUserInput(text: string)
      requires Valid() && !isLoading
      modifies this
      ensures Valid()
      ensures userInput == text
      ensures messages == old(messages) && isLoading == old(isLoading) && error == old(error)
      ensures chatInstance == old(chatInstance) && requests == old(requests)
    {
      userInput := text;
    }

    /** handleSendMessage, up to the remote call. A blank text, or a request
        already pending, changes nothing and sends nothing. Otherwise the input is
        cleared, the trimmed text is appended as the user's message, loading is
        shown, the error cleared, and the text goes out with the current chat
        handle. */
    method HandleSendMessage(messageText: Option<string>) returns (request: Option<Request>)
      requires Valid()
      modifies this
      ensures Valid()
      ensures var text := SendText(messageText, old(userInput));
        if text == "" || old(isLoading) then
          && request == None
          && messages == old(messages) && userInput == old(userInput) && isLoading == old(isLoading)
          && error == old(error) && chatInstance == old(chatInstance) && requests == old(requests)
        else
          && request == Some(Request(text, old(chatInstance)))
          && messages == old(messages) + [ChatMessage(User, text)]
          && userInput == "" && isLoading && error == None
          && chatInstance == old(chatInstance) && requests == old(requests) + [request.value]
    {
      var textToSend := SendText(messageText, userInput);
      if textToSend == "" || isLoading {
        return None;
      }
      beforeSend := messages;
      userInput := "";
      messages := messages + [ChatMessage(User, textToSend)];
      isLoading := true;
      error := None;
      request := Some(Request(textToSend, chatInstance));
      requests := requests + [request.value];
    }

    /** A suggestion button: its text is sent. The buttons are rendered only
        while the list is empty and nothing is loading. */
    method HandleSuggestionClick(suggestion: string) returns (request: Option<Request>)
      requires Valid() && messages == [] && !isLoading
      modifies this
      ensures Valid()
      ensures var text := SendText(Some(suggestion), old(userInput));
        if text == "" || old(isLoading) then
          && request == None
          && messages == old(messages) && userInput == old(userInput) && isLoading == old(isLoading)
          && error == old(error) && chatInstance == old(chatInstance) && requests == old(requests)
        else
          && request == Some(Request(text, old(chatInstance)))
          && messages == old(messages) + [ChatMessage(User, text)]
          && userInput == "" && isLoading && error == None
          && chatInstance == old(chatInstance) && requests == old(requests) + [request.value]
    {
      request := HandleSendMessage(Some(suggestion));
    }

    /** The form's submit handler: the input field is sent. */
    method HandleFormSubmit() returns (request: Option<Request>)
      requires Valid()
      modifies this
      ensures Valid()
      ensures var text := Trim(old(userInput));
        if text == "" || old(isLoading) then
          && request == None
          && messages == old(messages) && userInput == old(userInput) && isLoading == old(isLoading)
          && error == old(error) && chatInstance == old(chatInstance) && requests == old(requests)
        else
          && request == Some(Request(text, old(chatInstance)))
          && messages == old(messages) + [ChatMessage(User, text)]
          && userInput == "" && isLoading && error == None
          && chatInstance == old(chatInstance) && requests == old(requests) + [request.value]
    {
      request := HandleSendMessage(None);
    }

    /** The remote call returned: the chat handle it used is kept for the next
        message, the reply is appended after the user's message, and loading
        ends. `created` is the handle the service creates when it was given
        none. */
    method ReceiveReply(reply: string, created: ChatId)
      requires Valid() && isLoading
      modifies this
      ensures Valid()
      ensures |requests| > 0 && chatInstance == Some(ChatUsed(requests[|requests| - 1].chat, created))
      ensures messages == old(messages) + [ChatMessage(Model, reply)]
      ensures messages == beforeSend + [ChatMessage(User, requests[|requests| - 1].text), ChatMessage(Model, reply)]
      ensures !isLoading && error == old(error)
      ensures userInput == old(userInput) && requests == old(requests)
    {
      chatInstance := Some(ChatUsed(requests[|requests| - 1].chat, created));
      messages := messages + [ChatMessage(Model, reply)];
      isLoading := false;
    }

    /** The remote call failed: the error is shown, the last message (the user's
        message of this request) is removed so the list is what it was before
        the send, and loading ends. */
    method ReceiveFailure()
      requires Valid() && isLoading
      modifies this
      ensures Valid()
      ensures messages == beforeSend && messages == old(messages)[..|old(messages)| - 1]
      ensures !isLoading && error == Some(SendFailedMessage)
      ensures userInput == old(userInput) && chatInstance == old(chatInstance) && requests == old(requests)
    {
      error := Some(SendFailedMessage);
      messages := messages[..|messages| - 1];
      isLoading := false;
    }
  }

  /** A question answered: the list holds the trimmed question, then the reply,
      and the chat handle created for it is kept. */
  method AnsweredScenario(question: string, reply: string) returns (
    messages: seq<ChatMessage>, chat: Option<ChatId>)
    requires !AllTrimmable(question)
    ensures messages == [ChatMessage(User, Trim(question)), ChatMessage(Model, reply)]
    ensures chat == Some(7)
  {
    TrimEmptyIff(question);
    var window := new ChatWindow();
    window.SetUserInput(question);
    var request := window.HandleFormSubmit();
    window.ReceiveReply(reply, 7);
    messages := window.messages;
    chat := window.chatInstance;
  }

  /** A first question sent from a suggestion is answered; a follow-up typed
      into the input field fails, which leaves the list as it was, so the same
      question can be typed and sent again, and the retry carries the same chat
      handle. */
  method RetryScenario(question: string, first: string, reply: string) returns (
    messages: seq<ChatMessage>, retry: Option<Request>)
    requires !AllTrimmable(question) && !AllTrimmable(first)
    ensures messages == [ChatMessage(User, Trim(first)), ChatMessage(Model, reply),
                         ChatMessage(User, Trim(question))]
    ensures retry == Some(Request(Trim(question), Some(0)))
  {
    TrimEmptyIff(question);
    TrimEmptyIff(first);
    var window := new ChatWindow();
    var request := window.HandleSuggestionClick(first);
    window.ReceiveReply(reply, 0);
    assert window.messages == [ChatMessage(User, Trim(first)), ChatMessage(Model, reply)];
    window.SetUserInput(question);
    request := window.HandleFormSubmit();
    window.ReceiveFailure();
    assert window.messages == [ChatMessage(User, Trim(first)), ChatMessage(Model, reply)];
    window.SetUserInput(question);
    retry := window.HandleFormSubmit();
    messages := window.messages;
  }
}
