/**
 * The supportive chat companion: a message log opened by one greeting, a send box that
 * ignores blank input, a typing flag raised while a reply is pending, and a reply that is
 * one of ten fixed texts. The random choice of reply is a parameter; ids and timestamps
 * come from the clock and are left out.
 */
module ChatCompanion {
  import Text

  datatype Sender = User | Ai

  datatype Message = Message(text: string, sender: Sender)

  const Greeting := "Hi there! I'm your AI companion, here to listen and support you. How are you feeling today?"

  /** The ten replies the companion chooses from. */
  const AiResponses: seq<string> := [
    "I understand how you're feeling. It's completely normal to have ups and downs.",
    "Thank you for sharing that with me. Your feelings are valid and important.",
    "That sounds challenging. Remember that you're stronger than you think.",
    "I'm here to listen. Would you like to talk more about what's on your mind?",
    "It's great that you're reaching out. Taking care of your mental health is so important.",
    "I hear you. Sometimes just talking about our feelings can help us process them better.",
    "You're taking a positive step by being open about your emotions. How can I support you today?",
    "Remember to be kind to yourself. You're doing the best you can, and that's enough.",
    "It's okay to not be okay sometimes. What would help you feel a little better right now?",
    "I appreciate you trusting me with your thoughts. You're not alone in this journey."]

  /** `handleKeyPress` sends exactly on Enter without Shift. */
  function SendsOnKey(key: string, shiftKey: bool): (sends: bool)
  {
    key == "Enter" && !shiftKey
  }

  /** Plain Enter sends; Shift+Enter and every other key never do. */
  lemma OnlyPlainEnterSends(key: string, shiftKey: bool)
    ensures SendsOnKey("Enter", false)
    ensures !SendsOnKey("Enter", true)
    ensures key != "Enter" ==> !SendsOnKey(key, shiftKey)
  {
  }

  class Companion {
    var messages: seq<Message>
    var inputText: string
    var isTyping: bool
    /** Replies scheduled and not yet delivered. */
    var pendingReplies: nat

    /** The typing indicator shows only while a reply is on its way. */
    ghost predicate Valid()
      reads this
    {
      isTyping ==> pendingReplies > 0
    }

    /** The log starts with exactly one message, the companion's greeting. */
    constructor ()
      ensures Valid()
      ensures messages == [Message(Greeting, Ai)] && inputText == "" && !isTyping && pendingReplies == 0
    {
      messages := [Message(Greeting, Ai)];
      inputText := "";
      isTyping := false;
      pendingReplies := 0;
    }

    /** The message box. */
    method SetInput(text: string)
      modifies this
      ensures inputText == text && messages == old(messages)
      ensures isTyping == old(isTyping) && pendingReplies == old(pendingReplies)
    {
      inputText := text;
    }

    /**
     * `handleSendMessage`: blank input changes nothing; otherwise the text is appended as a
     * user message, the input is cleared, the typing flag is raised and a reply is scheduled.
     */
    method HandleSendMessage()
      requires Valid()
      modifies this
      ensures Valid()
      ensures Text.IsBlank(old(inputText)) ==>
        && messages == old(messages) && inputText == old(inputText)
        && isTyping == old(isTyping) && pendingReplies == old(pendingReplies)
      ensures !Text.IsBlank(old(inputText)) ==>
        && messages == old(messages) + [Message(old(inputText), User)]
        && inputText == "" && isTyping && pendingReplies == old(pendingReplies) + 1
    {
      if Text.IsBlank(inputText) {
        return;
      }
      messages := messages + [Message(inputText, User)];
      inputText := "";
      isTyping := true;
      pendingReplies := pendingReplies + 1;
    }

    /** The reply timer: appends reply number `choice` from the companion and clears the typing flag. */
    method DeliverReply(choice: nat)
      requires Valid() && pendingReplies > 0 && choice < |AiResponses|
      modifies this
      ensures Valid()
      ensures messages == old(messages) + [Message(AiResponses[choice], Ai)]
      ensures messages[|messages| - 1].text in AiResponses
      ensures !isTyping && pendingReplies == old(pendingReplies) - 1 && inputText == old(inputText)
    {
      messages := messages + [Message(AiResponses[choice], Ai)];
      isTyping := false;
      pendingReplies := pendingReplies - 1;
    }

    /** `handleKeyPress`: Enter without Shift prevents the key's default action and sends. */
    method HandleKeyPress(key: string, shiftKey: bool) returns (defaultPrevented: bool)
      requires Valid()
      modifies this
      ensures Valid()
      ensures defaultPrevented == SendsOnKey(key, shiftKey)
      ensures !SendsOnKey(key, shiftKey) || Text.IsBlank(old(inputText)) ==>
        && messages == old(messages) && inputText == old(inputText)
        && isTyping == old(isTyping) && pendingReplies == old(pendingReplies)
      ensures SendsOnKey(key, shiftKey) && !Text.IsBlank(old(inputText)) ==>
        && messages == old(messages) + [Message(old(inputText), User)]
        && inputText == "" && isTyping && pendingReplies == old(pendingReplies) + 1
    {
      defaultPrevented := SendsOnKey(key, shiftKey);
      if defaultPrevented {
        HandleSendMessage();
      }
    }
  }
}
