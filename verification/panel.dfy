/**
 * The control panel (app/painel-controle/page.tsx): the list of chats, the
 * chat being edited in the dialog, and the draft of a new scheduled message.
 * Each handler computes a new list with a pure expression (spread, `map`,
 * `filter`) and then overwrites the component's state with it.
 */
module Panel {
  import opened Wrappers
  import opened Text
  import opened ChatTypes
  import Seqs

  /** The draft the add-message form starts from and is reset to. */
  const EmptyDraft: ScheduledMessage := ScheduledMessage(Some(""), "", "", Seconds(0))

  function Ids(chats: seq<Chat>): seq<string> {
    seq(|chats|, i requires 0 <= i < |chats| => chats[i].id)
  }

  lemma AbsentIdMatchesNoChat(chats: seq<Chat>, id: string)
    requires id !in Ids(chats)
    ensures forall i :: 0 <= i < |chats| ==> chats[i].id != id
  {
    forall i | 0 <= i < |chats|
      ensures chats[i].id != id
    {
      assert Ids(chats)[i] == chats[i].id;
    }
  }

  /**
   * The list after creating a chat named `name` with id `id`: unchanged when
   * the name is blank, otherwise one more chat, last, with the trimmed name
   * and an empty plan.
   */
  function WithNewChat(chats: seq<Chat>, name: string, id: string): (r: seq<Chat>)
    ensures Blank(name) ==> r == chats
    ensures !Blank(name) ==> |r| == |chats| + 1 && r[..|chats|] == chats
    ensures !Blank(name) ==> r[|chats|].id == id && r[|chats|].name == Trim(name) && r[|chats|].messages == []
  {
    if Blank(name) then chats else chats + [Chat(id, Trim(name), [])]
  }

  /** The list with every chat whose id is `edited.id` replaced by `edited`. */
  function ReplaceChat(chats: seq<Chat>, edited: Chat): (r: seq<Chat>)
    ensures |r| == |chats|
    ensures forall i :: 0 <= i < |chats| && chats[i].id == edited.id ==> r[i] == edited
    ensures forall i :: 0 <= i < |chats| && chats[i].id != edited.id ==> r[i] == chats[i]
    ensures Ids(r) == Ids(chats)
  {
    if chats == [] then []
    else [if chats[0].id == edited.id then edited else chats[0]] + ReplaceChat(chats[1..], edited)
  }

  /** The list without the chats whose id is `id`. */
  function WithoutChat(chats: seq<Chat>, id: string): (r: seq<Chat>)
    ensures forall i :: 0 <= i < |r| ==> r[i] in chats && r[i].id != id
    ensures forall i :: 0 <= i < |chats| && chats[i].id != id ==> chats[i] in r
    ensures id !in Ids(chats) ==> r == chats
  {
    var r := Seqs.Filter(chats, (c: Chat) => c.id != id);
    if id !in Ids(chats) then
      AbsentIdMatchesNoChat(chats, id);
      Seqs.FilterKeepsAll(chats, (c: Chat) => c.id != id);
      r
    else r
  }

  /** The plan without the entries whose id is `messageId`. */
  function WithoutMessage(plan: seq<ScheduledMessage>, messageId: string): (r: seq<ScheduledMessage>)
    ensures forall i :: 0 <= i < |r| ==> r[i] in plan && r[i].id != Some(messageId)
    ensures forall i :: 0 <= i < |plan| && plan[i].id != Some(messageId) ==> plan[i] in r
    ensures (forall i :: 0 <= i < |plan| ==> plan[i].id != Some(messageId)) ==> r == plan
  {
    var r := Seqs.Filter(plan, (m: ScheduledMessage) => m.id != Some(messageId));
    if forall i :: 0 <= i < |plan| ==> plan[i].id != Some(messageId) then
      Seqs.FilterKeepsAll(plan, (m: ScheduledMessage) => m.id != Some(messageId));
      r
    else r
  }

  /** The draft may be added: neither its name nor its text is blank. */
  predicate DraftComplete(draft: ScheduledMessage) {
    !Blank(draft.name) && !Blank(draft.text)
  }

  /** Creating a chat under a fresh id and then deleting that id gives back the original list. */
  lemma CreateThenDeleteRestores(chats: seq<Chat>, name: string, id: string)
    requires id !in Ids(chats)
    ensures WithoutChat(WithNewChat(chats, name, id), id) == chats
  {
    var keep := (c: Chat) => c.id != id;
    if !Blank(name) {
      var c := Chat(id, Trim(name), []);
      Seqs.FilterAppend(chats, [c], keep);
      AbsentIdMatchesNoChat(chats, id);
      Seqs.FilterKeepsAll(chats, keep);
      assert Seqs.Filter([c], keep) == [];
    }
  }

  /** Deleting keeps the surviving chats in their order: deletion distributes over concatenation. */
  lemma DeleteChatKeepsOrder(a: seq<Chat>, b: seq<Chat>, id: string)
    ensures WithoutChat(a + b, id) == WithoutChat(a, id) + WithoutChat(b, id)
  {
    Seqs.FilterAppend(a, b, (c: Chat) => c.id != id);
  }

  /** Removing a message id distributes over concatenation: the kept entries stay in plan order. */
  lemma DeleteMessageKeepsOrder(a: seq<ScheduledMessage>, b: seq<ScheduledMessage>, messageId: string)
    ensures WithoutMessage(a + b, messageId) == WithoutMessage(a, messageId) + WithoutMessage(b, messageId)
  {
    Seqs.FilterAppend(a, b, (m: ScheduledMessage) => m.id != Some(messageId));
  }

  /** Deleting the same id twice is deleting it once. */
  lemma DeleteChatIdempotent(chats: seq<Chat>, id: string)
    ensures WithoutChat(WithoutChat(chats, id), id) == WithoutChat(chats, id)
  {
    Seqs.FilterIdempotent(chats, (c: Chat) => c.id != id);
  }

  /** Saving the same edited chat twice changes nothing the second time. */
  lemma ReplaceChatIdempotent(chats: seq<Chat>, edited: Chat)
    ensures ReplaceChat(ReplaceChat(chats, edited), edited) == ReplaceChat(chats, edited)
  {
  }

  /** Adding a message under a fresh id and then removing that id gives back the original plan. */
  lemma AddThenRemoveMessageRestores(plan: seq<ScheduledMessage>, draft: ScheduledMessage, id: string)
    requires forall i :: 0 <= i < |plan| ==> plan[i].id != Some(id)
    ensures WithoutMessage(plan + [draft.(id := Some(id))], id) == plan
  {
    var keep := (m: ScheduledMessage) => m.id != Some(id);
    Seqs.FilterAppend(plan, [draft.(id := Some(id))], keep);
    Seqs.FilterKeepsAll(plan, keep);
    assert Seqs.Filter([draft.(id := Some(id))], keep) == [];
  }

  /** Removing the same message id twice is removing it once. */
  lemma DeleteMessageIdempotent(plan: seq<ScheduledMessage>, messageId: string)
    ensures WithoutMessage(WithoutMessage(plan, messageId), messageId) == WithoutMessage(plan, messageId)
  {
    Seqs.FilterIdempotent(plan, (m: ScheduledMessage) => m.id != Some(messageId));
  }

  class ControlPanel {
    var chats: seq<Chat>
    var newChatName: string
    var editingChat: Option<Chat>
    var newMessage: ScheduledMessage

    constructor ()
      ensures chats == [] && newChatName == "" && editingChat == None && newMessage == EmptyDraft
    {
      chats, newChatName, editingChat, newMessage := [], "", None, EmptyDraft;
    }

    /** The mount effect: adopt the stored list, when there is one. */
    method Load(stored: Option<seq<Chat>>)
      modifies this`chats
      ensures chats == if stored.Some? then stored.value else old(chats)
    {
      if stored.Some? {
        chats := stored.value;
      }
    }

    method TypeChatName(value: string)
      modifies this`newChatName
      ensures newChatName == value
    {
      newChatName := value;
    }

    /** `handleCreateChat`; `id` is the current `Date.now()` as a string. */
    method CreateChat(id: string)
      modifies this`chats, this`newChatName
      ensures chats == WithNewChat(old(chats), old(newChatName), id)
      ensures newChatName == if Blank(old(newChatName)) then old(newChatName) else ""
    {
      if Blank(newChatName) {
        return;
      }
      chats := WithNewChat(chats, newChatName, id);
      newChatName := "";
    }

    /** `handleEditChat`: the dialog edits a copy of the chat. */
    method EditChat(chat: Chat)
      modifies this`editingChat
      ensures editingChat == Some(chat)
    {
      editingChat := Some(chat);
    }

    /** Typing in the dialog's name field renames the copy, if there is one. */
    method RenameEditing(value: string)
      modifies this`editingChat
      ensures editingChat == if old(editingChat).Some? then Some(old(editingChat).value.(name := value)) else None
    {
      if editingChat.Some? {
        editingChat := Some(editingChat.value.(name := value));
      }
    }

    /** `handleUpdateChat`: store the edited copy over every chat with its id, untrimmed, and discard the edited copy. */
    method UpdateChat()
      modifies this`chats, this`editingChat
      ensures old(editingChat).None? || Blank(old(editingChat).value.name) ==>
                chats == old(chats) && editingChat == old(editingChat)
      ensures old(editingChat).Some? && !Blank(old(editingChat).value.name) ==>
                chats == ReplaceChat(old(chats), old(editingChat).value) && editingChat == None
    {
      if editingChat.None? || Blank(editingChat.value.name) {
        return;
      }
      chats := ReplaceChat(chats, editingChat.value);
      editingChat := None;
    }

    /** `handleDeleteChat`. */
    method DeleteChat(id: string)
      modifies this`chats
      ensures chats == WithoutChat(old(chats), id)
    {
      chats := WithoutChat(chats, id);
    }

    method TypeDraftName(value: string)
      modifies this`newMessage
      ensures newMessage == old(newMessage).(name := value)
    {
      newMessage := newMessage.(name := value);
    }

    method TypeDraftText(value: string)
      modifies this`newMessage
      ensures newMessage == old(newMessage).(text := value)
    {
      newMessage := newMessage.(text := value);
    }

    /** The delay field stores `parseInt` of what was typed, NaN included, unchecked. */
    method TypeDraftDelay(parsed: Delay)
      modifies this`newMessage
      ensures newMessage == old(newMessage).(delay := parsed)
    {
      newMessage := newMessage.(delay := parsed);
    }

    /**
     * `handleAddMessage`: append the draft, under the fresh id `id`, to the
     * copy being edited, and reset the draft. The stored list is untouched.
     */
    method AddMessage(id: string)
      modifies this`editingChat, this`newMessage
      ensures chats == old(chats)
      ensures old(editingChat).None? || !DraftComplete(old(newMessage)) ==>
                editingChat == old(editingChat) && newMessage == old(newMessage)
      ensures old(editingChat).Some? && DraftComplete(old(newMessage)) ==>
                && editingChat.Some?
                && editingChat.value.id == old(editingChat).value.id
                && editingChat.value.name == old(editingChat).value.name
                && editingChat.value.messages == old(editingChat).value.messages + [old(newMessage).(id := Some(id))]
                && newMessage == EmptyDraft
    {
      if editingChat.None? || !DraftComplete(newMessage) {
        return;
      }
      var edited := editingChat.value;
      editingChat := Some(edited.(messages := edited.messages + [newMessage.(id := Some(id))]));
      newMessage := EmptyDraft;
    }

    /** `handleDeleteMessage`: drop the entries with that id from the copy being edited. */
    method DeleteMessage(messageId: string)
      modifies this`editingChat
      ensures chats == old(chats)
      ensures editingChat == if old(editingChat).None? then None
                             else Some(old(editingChat).value.(messages := WithoutMessage(old(editingChat).value.messages, messageId)))
    {
      if editingChat.None? {
        return;
      }
      var edited := editingChat.value;
      editingChat := Some(edited.(messages := WithoutMessage(edited.messages, messageId)));
    }
  }
}
