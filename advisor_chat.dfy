/** The business-advisor chat (components/AIBusinessAdvisorChat.tsx): a
    history that opens with one greeting, an input box, and a send that
    appends the user's message and then the advisor's reply or an apology.
    The AI call is not modelled: its outcome is a parameter, `Some(text)`
    for a reply and `None` for a failure. */
module AdvisorChat {
  import opened Wrappers
  import opened Text
  import opened Domain

  /** The advisor's opening message. */
  function Greeting(): ChatMessage {
    ChatMessage(Model,
      "Hello! I'm your AI "
      + "Business Advisor. How can "
      + "I help you grow your "
      + "business today?")
  }

  /** The fixed message shown when the AI call fails. */
  function Apology(): ChatMessage {
    ChatMessage(Model,
      "I'm sorry, I encountered "
      + "an error. Please try "
      + "again.")
  }

  /** The guard of `handleSendMessage`: a message is sent only when the input
      is not blank after trimming and no reply is awaited. */
  predicate CanSend(input: string, loading: bool) {
    Trim(input) != [] && !loading
  }

  /** The advisor's answer to a send: the reply text, or the apology. */
  function Reply(response: Option<string>): (m: ChatMessage)
    ensures m.role == Model
    ensures response.Some? ==> m.content == response.value
    ensures response.None? ==> m == Apology()
  {
    if response.Some? then ChatMessage(Model, response.value) else Apology()
  }

  /** The roles alternate, starting with the advisor: the greeting, then a
      user message and an advisor message per completed send. */
  predicate Alternating(h: seq<ChatMessage>) {
    forall i :: 0 <= i < |h| ==> h[i].role == if i % 2 == 0 then Model else User
  }

  /** A complete send leaves the earlier history untouched and adds exactly
      the user's message, as typed, then the advisor's answer. */
  lemma SendAppends(h: seq<ChatMessage>, input: string, response: Option<string>)
    requires Alternating(h) && |h| % 2 == 1
    ensures var r := h + [ChatMessage(User, input)] + [Reply(response)];
      |r| == |h| + 2 && r[..|h|] == h
      && r[|h|] == ChatMessage(User, input)
      && r[|h| + 1].role == Model
      && Alternating(r) && |r| % 2 == 1
  {
    var r := h + [ChatMessage(User, input)] + [Reply(response)];
    assert r[..|h|] == h;
    forall i | 0 <= i < |r| ensures r[i].role == if i % 2 == 0 then Model else User {
      if i < |h| {
        assert r[i] == h[i];
      }
    }
  }

  class Chat {
    var chatHistory: seq<ChatMessage>
    var userInput: string
    var isLoading: bool

    /** The history alternates; a reply is awaited exactly when it ends with
        the user's message, and every user message was non-blank. */
    predicate Valid()
      reads this
    {
      Alternating(chatHistory) && chatHistory != [] && chatHistory[0] == Greeting()
      && (isLoading <==> |chatHistory| % 2 == 0)
      && forall i :: 0 <= i < |chatHistory| && chatHistory[i].role == User ==> Trim(chatHistory[i].content) != []
    }

    constructor ()
      ensures chatHistory == [Greeting()] && userInput == "" && !isLoading
      ensures Valid()
    {
      chatHistory := [Greeting()];
      userInput := "";
      isLoading := false;
    }

    /** Typing into the box, or clicking a quick prompt. */
    method SetUserInput(v: string)
      requires Valid()
      modifies this
      ensures Valid()
      ensures userInput == v && chatHistory == old(chatHistory) && isLoading == old(isLoading)
    {
      userInput := v;
    }

    /** The synchronous part of `handleSendMessage`: unless the guard stops
        it, the user's message is appended, the input is cleared and a reply
        is awaited. `sent` says whether the AI call was made. */
    method StartSend() returns (sent: bool)
      requires Valid()
      modifies this
      ensures Valid()
      ensures sent <==> CanSend(old(userInput), old(isLoading))
      ensures !sent ==> chatHistory == old(chatHistory) && userInput == old(userInput) && isLoading == old(isLoading)
      ensures sent ==> (chatHistory == old(chatHistory) + [ChatMessage(User, old(userInput))]
        && userInput == "" && isLoading)
    {
      if Trim(userInput) == [] || isLoading {
        return false;
      }
      var newHistory := chatHistory + [ChatMessage(User, userInput)];
      forall i | 0 <= i < |newHistory|
        ensures newHistory[i].role == if i % 2 == 0 then Model else User
        ensures newHistory[i].role == User ==> Trim(newHistory[i].content) != []
      {
        if i < |chatHistory| {
          assert newHistory[i] == chatHistory[i];
        }
      }
      chatHistory := newHistory;
      userInput := "";
      isLoading := true;
      sent := true;
    }

    /** The asynchronous part: the answer (or the apology) is appended and
        loading ends. The source appends to the history it captured at the
        send, which is the current one: nothing else writes the history
        while a reply is awaited. */
    method ReceiveReply(response: Option<string>)
      requires Valid() && isLoading
      modifies this
      ensures Valid()
      ensures chatHistory == old(chatHistory) + [Reply(response)]
      ensures !isLoading && userInput == old(userInput)
    {
      var m := Reply(response);
      var h := chatHistory + [m];
      forall i | 0 <= i < |h| ensures h[i].role == if i % 2 == 0 then Model else User {
        if i < |chatHistory| {
          assert h[i] == chatHistory[i];
        }
      }
      chatHistory := h;
      isLoading := false;
    }

    /** A whole send with the answer arriving at once: either nothing
        changes, or the history gains the user's message and the answer. */
    method HandleSendMessage(response: Option<string>)
      requires Valid()
      modifies this
      ensures Valid() && (old(isLoading) ==> isLoading)
      ensures !CanSend(old(userInput), old(isLoading)) ==>
        (chatHistory == old(chatHistory) && userInput == old(userInput) && isLoading == old(isLoading))
      ensures CanSend(old(userInput), old(isLoading)) ==>
        (chatHistory == old(chatHistory) + [ChatMessage(User, old(userInput)), Reply(response)]
        && userInput == "" && !isLoading)
    {
      var sent := StartSend();
      if sent {
        ReceiveReply(response);
      }
    }
  }
}
