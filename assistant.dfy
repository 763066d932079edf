/**
 * The AI assistant chat (AIAssistant.tsx): the title a conversation is
 * saved under, the rule for when it is saved, and the send / new chat /
 * load handlers of the chat panel. A send is one atomic step: the
 * model's reply (or its failure) is a parameter, and `now` / `later`
 * stand for `Date.now()` before and after the model answers.
 */
module Assistant {
  import opened Wrappers
  import opened Domain
  import opened Text
  import Gemini

  /** The title of a conversation whose first message is empty. */
  const NewChatTitle: string := "محادثة جديدة"

  /** The content sent for an image without text. */
  const ImageMarker: string := "تم إرسال صورة"

  /**
   * The saved title: the first message when it has at most 25
   * characters, else its first 25 followed by "...", and the new-chat
   * title for an empty message.
   */
  function SessionTitle(first: string): (r: string)
    ensures |first| > 25 ==> r == first[..25] + "..."
    ensures 0 < |first| <= 25 ==> r == first
    ensures first == "" ==> r == NewChatTitle
  {
    var title := if |first| > 25 then first[..25] + "..." else first;
    if title == "" then NewChatTitle else title
  }

  /** A title is never empty, never longer than 28 characters, and starts like the message it comes from. */
  lemma TitleShape(first: string)
    ensures 0 < |SessionTitle(first)| <= 28
    ensures first != "" ==> var n := if |first| < 25 then |first| else 25;
      SessionTitle(first)[..n] == first[..n]
  {
  }

  /**
   * The save effect: with at least one message and a session id, the
   * conversation is saved under that id, titled after its first message
   * and stamped `now`; otherwise nothing is saved.
   */
  function SessionToSave(messages: seq<ChatMessage>, sessionId: Option<string>, now: int): (r: Option<ChatSession>)
    ensures r.Some? <==> messages != [] && Truthy(sessionId)
    ensures r.Some? ==> (r.value.id == sessionId.value && r.value.messages == messages &&
      r.value.lastModified == now && r.value.title == SessionTitle(messages[0].content))
  {
    if messages != [] && Truthy(sessionId) then
      Some(ChatSession(sessionId.value, SessionTitle(messages[0].content), messages, now))
    else None
  }

  /** `input || (selectedImage ? marker : '')`: the text of the user's message. */
  function UserContent(input: string, selectedImage: Option<string>): (r: string)
    ensures input != "" ==> r == input
    ensures input == "" && Truthy(selectedImage) ==> r == ImageMarker
    ensures input == "" && !Truthy(selectedImage) ==> r == ""
  {
    OrText(Some(input), if Truthy(selectedImage) then ImageMarker else "")
  }

  /** The user's message of a send at `now`. */
  function UserMessage(now: int, input: string, selectedImage: Option<string>): ChatMessage {
    ChatMessage(IntText(now), User, UserContent(input, selectedImage), now)
  }

  /** The assistant's message: the reply of `chatWithGenie`, stamped `later`, id `later + 1`. */
  function ReplyMessage(later: int, apiKey: string, reply: Gemini.Reply): ChatMessage {
    ChatMessage(IntText(later + 1), Assistant, Gemini.ChatReply(apiKey, reply).result, later)
  }

  /** The send guard: a blank input without an image, or a reply still pending, sends nothing. */
  predicate CanSend(input: string, selectedImage: Option<string>, isTyping: bool) {
    (!IsBlank(input) || Truthy(selectedImage)) && !isTyping
  }

  /** A send goes ahead exactly when no reply is pending and the input has a visible character or an image is attached. */
  lemma CanSendIff(input: string, selectedImage: Option<string>, isTyping: bool)
    ensures CanSend(input, selectedImage, isTyping) <==>
      !isTyping && ((exists i :: 0 <= i < |input| && !IsSpace(input[i])) || Truthy(selectedImage))
  {
    BlankIffAllSpace(input);
  }

  /** Whatever is sent carries a non-empty message. */
  lemma SentMessageNotEmpty(input: string, selectedImage: Option<string>, isTyping: bool)
    requires CanSend(input, selectedImage, isTyping)
    ensures UserContent(input, selectedImage) != ""
  {
    if input == "" && !Truthy(selectedImage) {
      assert IsBlank(input);
    }
  }

  /**
   * The request as written: `handleSend` passes the history that already
   * ends with the new message, and `chatWithGenie` appends that message
   * once more as the current turn.
   */
  function RequestAsWritten(messages: seq<ChatMessage>, userMsg: ChatMessage, image: Option<string>): seq<Gemini.Turn> {
    Gemini.RequestContents(messages + [userMsg], userMsg.content, image)
  }

  /** A first message "hi" reaches the model as two identical user turns. */
  lemma UserTurnSentTwice()
    ensures var r := RequestAsWritten([], ChatMessage("1", User, "hi", 1), None);
      |r| == 2 && r[0] == r[1] && r[0] == Gemini.Turn(Gemini.UserTurn, [Gemini.TextPart("hi")])
  {
    var r := RequestAsWritten([], ChatMessage("1", User, "hi", 1), None);
    assert r[..1] == Gemini.PastTurns([ChatMessage("1", User, "hi", 1)]);
  }

  /**
   * For every conversation, the request as written has one turn more than
   * the conversation it was built from: its last two turns are both user
   * turns carrying the new message's text.
   */
  lemma UserTurnAlwaysDoubled(messages: seq<ChatMessage>, userMsg: ChatMessage, image: Option<string>)
    requires userMsg.role == User
    ensures var r := RequestAsWritten(messages, userMsg, image);
      var n := |messages|;
      |r| == n + 2 &&
      r[n].role == Gemini.UserTurn && r[n + 1].role == Gemini.UserTurn &&
      r[n].parts[0] == Gemini.TextPart(userMsg.content) && r[n + 1].parts[0] == Gemini.TextPart(userMsg.content)
  {
    var r := RequestAsWritten(messages, userMsg, image);
    var n := |messages|;
    assert r[n] == r[..n + 1][n];
  }

  /** The request as intended: the earlier messages as history, then the new message. */
  function Request(messages: seq<ChatMessage>, userMsg: ChatMessage, image: Option<string>): seq<Gemini.Turn> {
    Gemini.RequestContents(messages, userMsg.content, image)
  }

  /**
   * The intended request is the conversation as shown after the send,
   * turn for message: same number, same roles, same texts, and the image
   * only on the last turn.
   */
  lemma RequestMirrorsConversation(messages: seq<ChatMessage>, userMsg: ChatMessage, image: Option<string>)
    requires userMsg.role == User
    ensures var conversation := messages + [userMsg];
      var r := Request(messages, userMsg, image);
      |r| == |conversation| &&
      (forall i :: 0 <= i < |r| ==> (Gemini.RoleOfTurn(r[i].role) == conversation[i].role &&
        r[i].parts[0] == Gemini.TextPart(conversation[i].content))) &&
      (forall i :: 0 <= i < |r| - 1 ==> |r[i].parts| == 1)
  {
    var conversation := messages + [userMsg];
    var r := Request(messages, userMsg, image);
    forall i | 0 <= i < |r|
      ensures Gemini.RoleOfTurn(r[i].role) == conversation[i].role && r[i].parts[0] == Gemini.TextPart(conversation[i].content)
    {
      if i < |messages| {
        assert r[i] == r[..|messages|][i];
      }
    }
    forall i | 0 <= i < |r| - 1
      ensures |r[i].parts| == 1
    {
      assert r[i] == r[..|messages|][i];
    }
  }

  /** The chat panel: the open conversation, its id, the composer and the pending flag. */
  class ChatPanel {
    var messages: seq<ChatMessage>
    var currentSessionId: Option<string>
    var input: string
    var selectedImage: Option<string>
    var isTyping: bool

    constructor ()
      ensures messages == [] && currentSessionId.None? && input == "" && selectedImage.None? && !isTyping
    {
      messages := [];
      currentSessionId := None;
      input := "";
      selectedImage := None;
      isTyping := false;
    }

    /** Typing in the composer. */
    method SetInput(text: string)
      modifies this`input
      ensures input == text
    {
      input := text;
    }

    /** Attaching an image (a data URL). */
    method SelectImage(dataUrl: string)
      modifies this`selectedImage
      ensures selectedImage == Some(dataUrl)
    {
      selectedImage := Some(dataUrl);
    }

    /**
     * `handleSend`. When the guard passes: the session gets an id if it
     * has none, the user's message and then the model's cleaned reply are
     * appended, the composer is cleared. Returns the request sent to the
     * model as the code builds it, with the new message twice (None when
     * nothing is sent) and the session the save effect
     * writes last.
     */
    method HandleSend(now: int, later: int, apiKey: string, reply: Gemini.Reply)
      returns (request: Option<seq<Gemini.Turn>>, saved: Option<ChatSession>)
      modifies this
      ensures !CanSend(old(input), old(selectedImage), old(isTyping)) ==>
        request.None? && saved.None? &&
        messages == old(messages) && currentSessionId == old(currentSessionId) &&
        input == old(input) && selectedImage == old(selectedImage) && isTyping == old(isTyping)
      ensures CanSend(old(input), old(selectedImage), old(isTyping)) ==>
        messages == old(messages) + [UserMessage(now, old(input), old(selectedImage)), ReplyMessage(later, apiKey, reply)]
      ensures CanSend(old(input), old(selectedImage), old(isTyping)) ==>
        currentSessionId == (if Truthy(old(currentSessionId)) then old(currentSessionId) else Some(IntText(now)))
      ensures CanSend(old(input), old(selectedImage), old(isTyping)) ==>
        input == "" && selectedImage.None? && !isTyping
      ensures CanSend(old(input), old(selectedImage), old(isTyping)) ==>
        request == Some(RequestAsWritten(old(messages), UserMessage(now, old(input), old(selectedImage)), old(selectedImage)))
      ensures CanSend(old(input), old(selectedImage), old(isTyping)) ==>
        saved == SessionToSave(messages, currentSessionId, later) && saved.Some?
    {
      if !CanSend(input, selectedImage, isTyping) {
        return None, None;
      }
      var history := messages;
      var activeSessionId := if Truthy(currentSessionId) then currentSessionId else Some(IntText(now));
      var userMsg := UserMessage(now, input, selectedImage);
      var newHistory := history + [userMsg];
      request := Some(Gemini.RequestContents(newHistory, userMsg.content, selectedImage));
      assert request == Some(RequestAsWritten(history, userMsg, selectedImage));
      var aiMsg := ReplyMessage(later, apiKey, reply);
      var conversation := newHistory + [aiMsg];
      assert conversation == history + [userMsg, aiMsg];
      saved := SessionToSave(conversation, activeSessionId, later);
      messages := conversation;
      currentSessionId := activeSessionId;
      input := "";
      selectedImage := None;
      isTyping := false;
      assert messages == conversation && currentSessionId == activeSessionId;
    }

    /** `startNewChat`: an empty conversation without an id (so nothing is saved). */
    method StartNewChat()
      modifies this`messages, this`currentSessionId
      ensures messages == [] && currentSessionId.None?
    {
      messages := [];
      currentSessionId := None;
    }

    /** `loadSession`: the stored conversation becomes the open one; the save effect stores it again, stamped `now`. */
    method LoadSession(session: ChatSession, now: int) returns (saved: Option<ChatSession>)
      modifies this`messages, this`currentSessionId
      ensures messages == session.messages && currentSessionId == Some(session.id)
      ensures saved == SessionToSave(session.messages, Some(session.id), now)
    {
      currentSessionId := Some(session.id);
      messages := session.messages;
      saved := SessionToSave(messages, currentSessionId, now);
    }
  }
}
