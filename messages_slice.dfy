/** The messages slice: the conversation list, a pointer to the active
    conversation, and one flat list of messages. The reducers do no
    cross-checking between them. */
module MessagesSlice {
  import opened Wrappers

  datatype Message = Message(id: string, senderId: string, content: string, timestamp: string)

  datatype Participant = Participant(id: string, username: string, avatar: Option<string>)

  datatype Conversation = Conversation(
    id: string,
    participant: Participant,
    lastMessage: Option<Message>,
    unreadCount: int)

  /** The slice state: `conversations`, `activeConversation`, `messages`, `isLoading`. */
  class MessagesState {
    var conversations: seq<Conversation>
    var activeConversation: Option<string>
    var messages: seq<Message>
    var isLoading: bool

    /** `initialState`. */
    constructor ()
      ensures conversations == [] && activeConversation == None && messages == [] && !isLoading
    {
      conversations := [];
      activeConversation := None;
      messages := [];
      isLoading := false;
    }

    method SetLoading(loading: bool)
      modifies this
      ensures isLoading == loading
      ensures conversations == old(conversations) && activeConversation == old(activeConversation)
      ensures messages == old(messages)
    {
      isLoading := loading;
    }

    /** Replaces the conversation list wholesale. */
    method SetConversations(list: seq<Conversation>)
      modifies this
      ensures conversations == list
      ensures activeConversation == old(activeConversation) && messages == old(messages)
      ensures isLoading == old(isLoading)
    {
      conversations := list;
    }

    /** Moves the pointer only: the id need not name a listed conversation, and
        the messages of the previous one stay until replaced. */
    method SetActiveConversation(id: string)
      modifies this
      ensures activeConversation == Some(id)
      ensures conversations == old(conversations) && messages == old(messages)
      ensures isLoading == old(isLoading)
    {
      activeConversation := Some(id);
    }

    /** Replaces the message list wholesale. */
    method SetMessages(list: seq<Message>)
      modifies this
      ensures messages == list
      ensures conversations == old(conversations) && activeConversation == old(activeConversation)
      ensures isLoading == old(isLoading)
    {
      messages := list;
    }

    /** Appends one message, whichever conversation it belongs to. */
    method AddMessage(message: Message)
      modifies this
      ensures messages == old(messages) + [message]
      ensures |messages| == |old(messages)| + 1 && messages[..|old(messages)|] == old(messages)
      ensures conversations == old(conversations) && activeConversation == old(activeConversation)
      ensures isLoading == old(isLoading)
    {
      messages := messages + [message];
    }
  }

  /** Selecting c1, loading [m1, m2], appending m3, then selecting c2 without a
      reload: the list still shows [m1, m2, m3]. */
  method SwitchConversationScenario(c1: string, c2: string, m1: Message, m2: Message, m3: Message)
    returns (state: MessagesState)
    ensures state.messages == [m1, m2, m3]
    ensures state.activeConversation == Some(c2)
  {
    state := new MessagesState();
    state.SetActiveConversation(c1);
    state.SetMessages([m1, m2]);
    state.AddMessage(m3);
    assert state.messages == [m1, m2, m3];
    state.SetActiveConversation(c2);
  }
}
