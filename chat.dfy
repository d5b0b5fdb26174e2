/** The chat page: the dialogue list, which dialogue is selected, and sending a
    message. */
module Chat {
  import opened Wrappers
  import opened Text
  import Auth

  datatype Participant = Participant(id: string, name: string, avatar: Option<string>)

  datatype ChatThread = ChatThread(
    id: string,
    participant: Participant,
    lastMessage: string,
    lastMessageTime: int,
    unreadCount: int,
    isPaid: bool)

  /** A message; `isPaid` is optional and absent on the messages the page sends. */
  datatype Message = Message(id: string, senderId: string, content: string, timestamp: int, isPaid: Option<bool>)

  /** JavaScript truthiness of a `string | null`: present and not empty. */
  predicate IsSet(id: Option<string>) {
    id.Some? && id.value != []
  }

  /** `chats[0]?.id || null`: the first dialogue's id, unless there is no dialogue or its
      id is empty (falsy). */
  function InitialSelection(chats: seq<ChatThread>): (sel: Option<string>)
    ensures sel.Some? <==> |chats| > 0 && chats[0].id != []
    ensures sel.Some? ==> sel.value == chats[0].id
    ensures sel.Some? <==> IsSet(sel)
  {
    if |chats| > 0 && chats[0].id != [] then Some(chats[0].id) else None
  }

  /** `chats.find(chat => chat.id === selectedChatId)`: the first dialogue with the selected
      id; nothing when no id is selected or no dialogue has it. */
  function FindChat(chats: seq<ChatThread>, selected: Option<string>): (r: Option<ChatThread>)
    ensures r.Some? ==> selected == Some(r.value.id) && r.value in chats
    ensures r.None? <==> forall i :: 0 <= i < |chats| ==> selected != Some(chats[i].id)
    decreases |chats|
  {
    if chats == [] then None
    else if selected == Some(chats[0].id) then Some(chats[0])
    else
      var r := FindChat(chats[1..], selected);
      assert forall i :: 0 < i < |chats| ==> chats[i] == chats[1..][i - 1];
      r
  }

  /** The found dialogue is the first one with the selected id: no earlier dialogue has it. */
  lemma {:induction false} FindChatFirst(chats: seq<ChatThread>, selected: Option<string>)
    requires FindChat(chats, selected).Some?
    ensures exists k :: 0 <= k < |chats| && chats[k] == FindChat(chats, selected).value &&
                        forall j :: 0 <= j < k ==> selected != Some(chats[j].id)
    decreases |chats|
  {
    if selected != Some(chats[0].id) {
      FindChatFirst(chats[1..], selected);
      var k :| 0 <= k < |chats[1..]| && chats[1..][k] == FindChat(chats[1..], selected).value &&
               forall j :: 0 <= j < k ==> selected != Some(chats[1..][j].id);
      assert chats[k + 1] == FindChat(chats, selected).value;
      forall j | 0 <= j < k + 1 ensures selected != Some(chats[j].id) {
        if j > 0 {
          assert chats[j] == chats[1..][j - 1];
        }
      }
    } else {
      assert chats[0] == FindChat(chats, selected).value;
    }
  }

  /** With the initial selection, the selected dialogue is the first one. */
  lemma InitialSelectionFindsFirst(chats: seq<ChatThread>)
    requires |chats| > 0 && chats[0].id != []
    ensures FindChat(chats, InitialSelection(chats)) == Some(chats[0])
  {
  }

  /** The chat page state. The dialogue list itself never changes. */
  class ChatPage {
    const chats: seq<ChatThread>
    var selectedChatId: Option<string>
    var messages: seq<Message>
    var newMessage: string

    constructor (initialChats: seq<ChatThread>, initialMessages: seq<Message>)
      ensures chats == initialChats && selectedChatId == InitialSelection(initialChats)
      ensures messages == initialMessages && newMessage == []
    {
      chats := initialChats;
      selectedChatId := InitialSelection(initialChats);
      messages := initialMessages;
      newMessage := [];
    }

    /** Clicking a dialogue selects it. */
    method SelectChat(id: string)
      modifies this
      ensures selectedChatId == Some(id)
      ensures messages == old(messages) && newMessage == old(newMessage)
    {
      selectedChatId := Some(id);
    }

    /** `handleSendMessage()`: without a user (the page is not shown), with a blank message
        or with no dialogue selected nothing happens; otherwise the typed text, untrimmed,
        is appended as a message from the user and the input is cleared. */
    method HandleSendMessage(user: Option<Auth.User>, id: string, now: int) returns (sent: bool)
      modifies this
      ensures sent <==> user.Some? && !AllWhitespace(old(newMessage)) && IsSet(old(selectedChatId))
      ensures sent ==> messages == old(messages) + [Message(id, user.value.id, old(newMessage), now, None)] &&
                       newMessage == []
      ensures !sent ==> messages == old(messages) && newMessage == old(newMessage)
      ensures selectedChatId == old(selectedChatId)
    {
      TrimEmptyIff(newMessage);
      if user.None? || Trim(newMessage) == [] || !IsSet(selectedChatId) {
        return false;
      }
      messages := messages + [Message(id, user.value.id, newMessage, now, None)];
      newMessage := [];
      sent := true;
    }
  }
}
