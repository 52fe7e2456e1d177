/** The memory, chat and message handlers of the client's `App` component
    (`client/src/App.tsx`). The new lists are computed by the pure functions below;
    the handlers of class `App` then assign the component state one field at a time.
    Timestamps and the id of a new chat come from the clock and are parameters. */
module ChatApp {
  import opened Wrappers
  import opened Seqs

  /** A memory of the side panel. */
  datatype Memory = Memory(id: string, title: string, content: string, timestamp: string)

  datatype MessageKind = User | Assistant | Internal

  datatype Message = Message(content: string, timestamp: string, kind: MessageKind)

  datatype Chat = Chat(id: string, title: string, timestamp: string, messages: seq<Message>)

  /** JavaScript `a || b` on strings: `a` unless it is the empty string. */
  function OrElse(a: string, b: string): string
  {
    if a != [] then a else b
  }

  // ---------------------------------------------------------------------------
  // Memories

  /** `memories.map(...)` of `handleSaveMemory`: the memories with id `id` take the
      non-empty draft title and content, everything else stays. */
  function SaveMemoryIn(ms: seq<Memory>, id: string, title: string, content: string): (r: seq<Memory>)
    ensures |r| == |ms|
    ensures forall i :: 0 <= i < |ms| ==> r[i].id == ms[i].id && r[i].timestamp == ms[i].timestamp
    ensures forall i :: 0 <= i < |ms| && ms[i].id != id ==> r[i] == ms[i]
    ensures forall i :: 0 <= i < |ms| && ms[i].id == id ==>
              && r[i].title == (if title == [] then ms[i].title else title)
              && r[i].content == (if content == [] then ms[i].content else content)
    decreases |ms|
  {
    if ms == [] then []
    else
      var m := ms[0];
      var m' := if m.id == id then m.(title := OrElse(title, m.title), content := OrElse(content, m.content)) else m;
      [m'] + SaveMemoryIn(ms[1..], id, title, content)
  }

  /** `memories.filter(...)` of `handleDeleteMemory`. */
  function DeleteMemoryIn(ms: seq<Memory>, id: string): (r: seq<Memory>)
    ensures forall i :: 0 <= i < |r| ==> r[i].id != id && r[i] in ms
    ensures forall i :: 0 <= i < |ms| && ms[i].id != id ==> ms[i] in r
    ensures (forall i :: 0 <= i < |ms| ==> ms[i].id != id) ==> r == ms
  {
    if forall i :: 0 <= i < |ms| ==> ms[i].id != id then
      FilterKeepsAll(ms, (m: Memory) => m.id != id);
      Filter(ms, (m: Memory) => m.id != id)
    else
      Filter(ms, (m: Memory) => m.id != id)
  }

  /** Saving with both drafts empty changes nothing. */
  lemma {:induction false} SaveEmptyDraftIsIdentity(ms: seq<Memory>, id: string)
    ensures SaveMemoryIn(ms, id, "", "") == ms
    decreases |ms|
  {
    if ms != [] {
      SaveEmptyDraftIsIdentity(ms[1..], id);
    }
  }

  /** Saving the same drafts twice is saving them once. */
  lemma {:induction false} SaveMemoryIdempotent(ms: seq<Memory>, id: string, title: string, content: string)
    ensures SaveMemoryIn(SaveMemoryIn(ms, id, title, content), id, title, content)
            == SaveMemoryIn(ms, id, title, content)
    decreases |ms|
  {
    if ms != [] {
      var once := SaveMemoryIn(ms, id, title, content);
      assert once[1..] == SaveMemoryIn(ms[1..], id, title, content);
      SaveMemoryIdempotent(ms[1..], id, title, content);
    }
  }

  /** Deletion keeps the surviving memories in their original order: it works piece by
      piece over a concatenation. */
  lemma DeleteMemoryConcat(a: seq<Memory>, b: seq<Memory>, id: string)
    ensures DeleteMemoryIn(a + b, id) == DeleteMemoryIn(a, id) + DeleteMemoryIn(b, id)
  {
    FilterConcat(a, b, (m: Memory) => m.id != id);
  }

  /** Deleting a memory discards whatever was saved into it: saving and then deleting
      the same id is deleting it. */
  lemma {:induction false} DeleteAfterSave(ms: seq<Memory>, id: string, title: string, content: string)
    ensures DeleteMemoryIn(SaveMemoryIn(ms, id, title, content), id) == DeleteMemoryIn(ms, id)
    decreases |ms|
  {
    if ms != [] {
      var saved := SaveMemoryIn(ms, id, title, content);
      assert saved == [saved[0]] + saved[1..];
      assert ms == [ms[0]] + ms[1..];
      assert saved[1..] == SaveMemoryIn(ms[1..], id, title, content);
      DeleteMemoryConcat([saved[0]], saved[1..], id);
      DeleteMemoryConcat([ms[0]], ms[1..], id);
      DeleteAfterSave(ms[1..], id, title, content);
      assert [saved[0]][1..] == [] && [ms[0]][1..] == [];
      if ms[0].id != id {
        assert saved[0] == ms[0];
      }
    }
  }

  // ---------------------------------------------------------------------------
  // Chats

  /** The chat `handleAddChat` creates, with id `id` (the clock's `Date.now()`). */
  function NewChat(id: string, timestamp: string): Chat
  {
    Chat(id, "New Chat", timestamp, [])
  }

  /** `chats.map(...)` of `handleSaveChat`: the chats with id `id` take the non-empty
      draft title. */
  function SaveChatIn(cs: seq<Chat>, id: string, title: string): (r: seq<Chat>)
    ensures |r| == |cs|
    ensures forall i :: 0 <= i < |cs| ==> r[i].id == cs[i].id && r[i].messages == cs[i].messages
                                          && r[i].timestamp == cs[i].timestamp
    ensures forall i :: 0 <= i < |cs| && cs[i].id != id ==> r[i] == cs[i]
    ensures forall i :: 0 <= i < |cs| && cs[i].id == id ==>
              r[i].title == (if title == [] then cs[i].title else title)
    decreases |cs|
  {
    if cs == [] then []
    else
      var c := cs[0];
      [if c.id == id then c.(title := OrElse(title, c.title)) else c] + SaveChatIn(cs[1..], id, title)
  }

  /** `chats.filter(...)` of `handleDeleteChat`. */
  function DeleteChatIn(cs: seq<Chat>, id: string): (r: seq<Chat>)
    ensures forall i :: 0 <= i < |r| ==> r[i].id != id && r[i] in cs
    ensures forall i :: 0 <= i < |cs| && cs[i].id != id ==> cs[i] in r
  {
    Filter(cs, (c: Chat) => c.id != id)
  }

  /** The selection after `handleDeleteChat(id)`: cleared exactly when it was `id`. */
  function SelectionAfterDelete(selected: Option<string>, id: string): (r: Option<string>)
    ensures r.None? <==> selected.None? || selected.value == id
    ensures r.Some? ==> r == selected
  {
    if selected == Some(id) then None else selected
  }

  /** Deleting the chat just added gives back the chats from before, less that id. */
  lemma DeleteAddedChat(cs: seq<Chat>, id: string, timestamp: string)
    ensures DeleteChatIn(cs + [NewChat(id, timestamp)], id) == DeleteChatIn(cs, id)
  {
    var p := (c: Chat) => c.id != id;
    FilterConcat(cs, [NewChat(id, timestamp)], p);
    assert [NewChat(id, timestamp)][1..] == [];
  }

  // ---------------------------------------------------------------------------
  // Messages

  /** `messages.map((msg, idx) => ...)` for the messages at positions `from`, `from + 1`,
      ...: the one at position `index` takes the new text. */
  function EditMessages(msgs: seq<Message>, from: int, index: int, text: string): (r: seq<Message>)
    ensures |r| == |msgs|
    ensures forall i :: 0 <= i < |msgs| && from + i != index ==> r[i] == msgs[i]
    ensures forall i :: 0 <= i < |msgs| && from + i == index ==> r[i] == msgs[i].(content := text)
    decreases |msgs|
  {
    if msgs == [] then []
    else [if from == index then msgs[0].(content := text) else msgs[0]]
         + EditMessages(msgs[1..], from + 1, index, text)
  }

  /** The map over positions is a single update of message `index`, and no change at all
      when no message sits at that position. */
  lemma EditMessagesIsUpdate(msgs: seq<Message>, index: int, text: string)
    ensures 0 <= index < |msgs| ==> EditMessages(msgs, 0, index, text) == msgs[index := msgs[index].(content := text)]
    ensures !(0 <= index < |msgs|) ==> EditMessages(msgs, 0, index, text) == msgs
  {
  }

  /** `chats.map(...)` of `handleMessageEdit`. */
  function EditChatsIn(cs: seq<Chat>, chatId: string, index: int, text: string): (r: seq<Chat>)
    ensures |r| == |cs|
    ensures forall i :: 0 <= i < |cs| ==> r[i].id == cs[i].id && r[i].title == cs[i].title
                                          && r[i].timestamp == cs[i].timestamp
                                          && |r[i].messages| == |cs[i].messages|
    ensures forall i :: 0 <= i < |cs| && cs[i].id != chatId ==> r[i] == cs[i]
    ensures forall i :: 0 <= i < |cs| && cs[i].id == chatId ==>
              r[i].messages == EditMessages(cs[i].messages, 0, index, text)
    decreases |cs|
  {
    if cs == [] then []
    else
      var c := cs[0];
      [if c.id == chatId then c.(messages := EditMessages(c.messages, 0, index, text)) else c]
      + EditChatsIn(cs[1..], chatId, index, text)
  }

  /** The chat-update part of a successful send: the chats with id `chatId` gain the
      user's message and then the assistant's reply. */
  function AppendExchange(cs: seq<Chat>, chatId: string, user: Message, assistant: Message): (r: seq<Chat>)
    ensures |r| == |cs|
    ensures forall i :: 0 <= i < |cs| ==> r[i].id == cs[i].id && r[i].title == cs[i].title
                                          && r[i].timestamp == cs[i].timestamp
    ensures forall i :: 0 <= i < |cs| && cs[i].id != chatId ==> r[i] == cs[i]
    ensures forall i :: 0 <= i < |cs| && cs[i].id == chatId ==> r[i].messages == cs[i].messages + [user, assistant]
    decreases |cs|
  {
    if cs == [] then []
    else
      var c := cs[0];
      [if c.id == chatId then c.(messages := c.messages + [user, assistant]) else c]
      + AppendExchange(cs[1..], chatId, user, assistant)
  }

  /** The chats after `handleMessageSend(message)`: `reply` is the server's response text,
      `None` when the request threw; a missing or empty selection returns early. */
  function SendIn(cs: seq<Chat>, selected: Option<string>, message: string, reply: Option<string>,
                  userTime: string, replyTime: string): (r: seq<Chat>)
    ensures selected.None? || selected.value == [] || reply.None? ==> r == cs
    ensures |r| == |cs|
    ensures selected.Some? && selected.value != [] && reply.Some? ==>
              forall i :: 0 <= i < |cs| && cs[i].id == selected.value ==>
                && |r[i].messages| == |cs[i].messages| + 2
                && r[i].messages[..|cs[i].messages|] == cs[i].messages
                && r[i].messages[|cs[i].messages|] == Message(message, userTime, User)
                && r[i].messages[|cs[i].messages| + 1] == Message(reply.value, replyTime, Assistant)
    ensures forall i :: 0 <= i < |cs| && (selected.None? || cs[i].id != selected.value) ==> r[i] == cs[i]
  {
    if selected.None? || selected.value == [] || reply.None? then cs
    else AppendExchange(cs, selected.value, Message(message, userTime, User), Message(reply.value, replyTime, Assistant))
  }

  /** The two sample memories the component starts with. */
  function InitialMemories(date: string): seq<Memory>
  {
    [Memory("1", "Project Requirements", "Key requirements for the AI system...", date),
     Memory("2", "Training Parameters", "Optimal parameters for model training...", date)]
  }

  /** The two sample chats the component starts with: a greeting exchange and an empty
      chat. */
  function InitialChats(date: string, time: string): seq<Chat>
  {
    [Chat("1", "General Discussion", date,
          [Message("Hello!", time, User), Message("Hi there! How can I help you today?", time, Assistant)]),
     Chat("2", "Technical Support", date, [])]
  }

  /** The component's state that the handlers change. */
  class App {
    var memories: seq<Memory>
    var chats: seq<Chat>
    var selectedChat: Option<string>
    var editingMemoryId: Option<string>
    var editingChatId: Option<string>
    var newMemoryTitle: string
    var newMemoryContent: string

    /** The initial state with its two sample memories and two sample chats; `date` and
        `time` are the clock's local date and time text. */
    constructor (date: string, time: string)
      ensures memories == InitialMemories(date) && chats == InitialChats(date, time)
      ensures selectedChat == None && editingMemoryId == None && editingChatId == None
      ensures newMemoryTitle == "" && newMemoryContent == ""
    {
      memories := InitialMemories(date);
      chats := InitialChats(date, time);
      selectedChat := None;
      editingMemoryId := None;
      editingChatId := None;
      newMemoryTitle := "";
      newMemoryContent := "";
    }

    /** `handleSaveMemory(id)`: the drafts go into memory `id`, then editing ends and the
        drafts are cleared. */
    method HandleSaveMemory(id: string)
      modifies this
      ensures memories == SaveMemoryIn(old(memories), id, old(newMemoryTitle), old(newMemoryContent))
      ensures editingMemoryId == None && newMemoryTitle == "" && newMemoryContent == ""
      ensures chats == old(chats) && selectedChat == old(selectedChat) && editingChatId == old(editingChatId)
    {
      memories := SaveMemoryIn(memories, id, newMemoryTitle, newMemoryContent);
      editingMemoryId := None;
      newMemoryTitle := "";
      newMemoryContent := "";
    }

    /** `handleDeleteMemory(id)`. */
    method HandleDeleteMemory(id: string)
      modifies this`memories
      ensures memories == DeleteMemoryIn(old(memories), id)
    {
      memories := DeleteMemoryIn(memories, id);
    }

    /** `handleAddChat()`, with `id` the clock's `Date.now()` text. */
    method HandleAddChat(id: string, timestamp: string)
      modifies this`chats, this`editingChatId
      ensures chats == old(chats) + [NewChat(id, timestamp)]
      ensures editingChatId == Some(id)
    {
      var chat := NewChat(id, timestamp);
      chats := chats + [chat];
      editingChatId := Some(chat.id);
    }

    /** `handleSaveChat(id)`: the draft title goes into chat `id`, then editing ends and
        the title draft is cleared; the content draft is left as it is. */
    method HandleSaveChat(id: string)
      modifies this`chats, this`editingChatId, this`newMemoryTitle
      ensures chats == SaveChatIn(old(chats), id, old(newMemoryTitle))
      ensures editingChatId == None && newMemoryTitle == ""
    {
      chats := SaveChatIn(chats, id, newMemoryTitle);
      editingChatId := None;
      newMemoryTitle := "";
    }

    /** `handleDeleteChat(id)`. */
    method HandleDeleteChat(id: string)
      modifies this`chats, this`selectedChat
      ensures chats == DeleteChatIn(old(chats), id)
      ensures selectedChat == SelectionAfterDelete(old(selectedChat), id)
    {
      chats := DeleteChatIn(chats, id);
      if selectedChat == Some(id) {
        selectedChat := None;
      }
    }

    /** `handleMessageEdit(chatId, messageIndex, newText)`. */
    method HandleMessageEdit(chatId: string, messageIndex: int, newText: string)
      modifies this`chats
      ensures chats == EditChatsIn(old(chats), chatId, messageIndex, newText)
    {
      chats := EditChatsIn(chats, chatId, messageIndex, newText);
    }

    /** The chat update of `handleMessageSend(message)`; `reply` is the response text, or
        `None` when `sendMessage` threw. */
    method HandleMessageSend(message: string, reply: Option<string>, userTime: string, replyTime: string)
      modifies this`chats
      ensures chats == SendIn(old(chats), selectedChat, message, reply, userTime, replyTime)
    {
      if selectedChat.None? || selectedChat.value == [] {
        return;
      }
      if reply.Some? {
        chats := AppendExchange(chats, selectedChat.value, Message(message, userTime, User),
                                Message(reply.value, replyTime, Assistant));
      }
    }
  }

  /** Saving a title draft into a sample memory keeps its content and the other memory. */
  method MemoryEditScenario()
  {
    var app := new App("1/1/2024", "10:00");
    app.newMemoryTitle := "Goals";
    app.HandleSaveMemory("2");
    assert app.memories[1].title == "Goals";
    assert app.memories[1].content == "Optimal parameters for model training...";
    assert app.memories[0] == InitialMemories("1/1/2024")[0];
    assert app.newMemoryTitle == "" && app.editingMemoryId == None;
  }

  /** Adding a chat, sending into it before and after selecting it, and deleting it
      while selected. */
  method ChatScenario(reply: string)
  {
    var app := new App("1/1/2024", "10:00");
    var id := "1700000000000";
    app.HandleAddChat(id, "1/1/2024");
    assert |app.chats| == 3 && app.chats[2] == NewChat(id, "1/1/2024") && app.editingChatId == Some(id);

    app.HandleMessageSend("hi", Some(reply), "10:01", "10:02");
    assert app.chats[2].messages == [];

    app.selectedChat := Some(id);
    app.HandleMessageSend("hi", Some(reply), "10:01", "10:02");
    assert app.chats[2].messages == [Message("hi", "10:01", User), Message(reply, "10:02", Assistant)];

    app.HandleDeleteChat(id);
    assert app.selectedChat == None;
    assert forall i :: 0 <= i < |app.chats| ==> app.chats[i].id != id;
  }
}
