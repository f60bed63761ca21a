/** The chat session store: the visible history of the current conversation, the
    list of saved conversations, which saved conversation (if any) is being viewed,
    and the loading flag; saving a new conversation schedules its title. */
module ChatHistory {
  import opened Js
  import opened AIService

  /** A saved conversation. */
  datatype Chat = Chat(history: seq<Entry>, title: string)

  /** The title a new conversation carries until its generated title arrives. */
  const PendingTitle: string := "..."

  /** `prev.map((chat, index) => index === k ? {...chat, history: h} : chat)`. */
  function WithHistoryAt(chats: seq<Chat>, k: int, h: seq<Entry>): (r: seq<Chat>)
    ensures |r| == |chats|
    ensures forall i :: 0 <= i < |chats| && i != k ==> r[i] == chats[i]
    ensures 0 <= k < |chats| ==> r[k].history == h && r[k].title == chats[k].title
  {
    seq(|chats|, i requires 0 <= i < |chats| => if i == k then chats[i].(history := h) else chats[i])
  }

  /** `prev.map((chat, index) => index === k ? {...chat, title: t} : chat)`. */
  function WithTitleAt(chats: seq<Chat>, k: int, t: string): (r: seq<Chat>)
    ensures |r| == |chats|
    ensures forall i :: 0 <= i < |chats| && i != k ==> r[i] == chats[i]
    ensures 0 <= k < |chats| ==> r[k].title == t && r[k].history == chats[k].history
    ensures !(0 <= k < |chats|) ==> r == chats
  {
    seq(|chats|, i requires 0 <= i < |chats| => if i == k then chats[i].(title := t) else chats[i])
  }

  /** The viewed index after deleting the conversation at `k`: -1 when the viewed
      one goes, one less when an earlier one goes, otherwise unchanged. */
  function IndexAfterDelete(current: int, k: int): (r: int)
    ensures current == k ==> r == -1
    ensures current > k ==> r == current - 1
    ensures current < k ==> r == current
  {
    if current == k then -1 else if current > k then current - 1 else current
  }

  /** Deleting another saved conversation leaves the viewed one viewed: at its
      adjusted index sits the same conversation. */
  lemma DeleteKeepsViewedChat(chats: seq<Chat>, current: int, k: int)
    requires 0 <= current < |chats| && 0 <= k < |chats| && current != k
    ensures var r := RemoveIndex(chats, k);
      0 <= IndexAfterDelete(current, k) < |r| && r[IndexAfterDelete(current, k)] == chats[current]
  {
    var r := RemoveIndex(chats, k);
    if current > k {
      assert r[current - 1] == chats[k + 1..][current - 1 - k];
    } else {
      assert r[current] == chats[..k][current];
    }
  }

  /** `isStillOnSameChat`, comparing a captured context with the current state. */
  predicate IsStillOnSameChat(ctxExisting: bool, ctxIndex: int, onExisting: bool, current: int) {
    (ctxExisting == onExisting && ctxIndex == current) || (!ctxExisting && !onExisting)
  }

  /** The context is captured from the very state it is compared with, so the test
      always passes. */
  lemma StillOnSameChatAlways(onExisting: bool, current: int)
    ensures IsStillOnSameChat(onExisting, current, onExisting, current)
  {
  }

  /** When a saved conversation is deleted before the title of a new one arrives,
      the title goes to the index the new conversation had: past the shortened
      list, so nothing is retitled and the new conversation keeps the pending title. */
  lemma DeleteBeforeTitleLeavesChatUntitled(chats: seq<Chat>, h: seq<Entry>, k: int, t: string)
    requires 0 <= k < |chats|
    ensures var after := RemoveIndex(chats + [Chat(h, PendingTitle)], k);
      WithTitleAt(after, |chats|, t) == after && after[|after| - 1] == Chat(h, PendingTitle)
  {
    var all := chats + [Chat(h, PendingTitle)];
    var after := RemoveIndex(all, k);
    assert after[|after| - 1] == all[k + 1..][|all| - k - 2];
  }

  /** If a second conversation is saved in between as well, it takes the index the
      first one had, and the first one's title goes to the second. */
  lemma DeleteBeforeTitleRetitlesNextChat(chats: seq<Chat>, h1: seq<Entry>, h2: seq<Entry>, k: int, t: string)
    requires 0 <= k < |chats|
    ensures var after := RemoveIndex(chats + [Chat(h1, PendingTitle)], k) + [Chat(h2, PendingTitle)];
      var r := WithTitleAt(after, |chats|, t);
      r[|chats|] == Chat(h2, t) && r[|chats| - 1] == Chat(h1, PendingTitle)
  {
    var all := chats + [Chat(h1, PendingTitle)];
    var removed := RemoveIndex(all, k);
    assert |removed| == |chats|;
    assert removed[|chats| - 1] == all[k + 1..][|chats| - 1 - k];
  }

  class ChatSession {
    var history: seq<Entry>
    var previousChats: seq<Chat>
    var onExistingChat: bool
    var currentChatIndex: int
    var loading: bool

    /** A saved conversation is viewed exactly when the index points into the list,
        and the index is -1 otherwise. */
    ghost predicate Valid()
      reads this
    {
      (onExistingChat <==> 0 <= currentChatIndex < |previousChats|)
      && (!onExistingChat ==> currentChatIndex == -1)
    }

    constructor()
      ensures Valid()
      ensures history == [] && previousChats == [] && !onExistingChat && currentChatIndex == -1 && !loading
    {
      history, previousChats, onExistingChat, currentChatIndex, loading := [], [], false, -1, false;
    }

    /** `updateHistory`. */
    method UpdateHistory(h: seq<Entry>)
      modifies this
      ensures history == h
      ensures previousChats == old(previousChats) && onExistingChat == old(onExistingChat)
      ensures currentChatIndex == old(currentChatIndex) && loading == old(loading)
    {
      history := h;
    }

    /** `addToHistory`. */
    method AddToHistory(entry: Entry)
      modifies this
      ensures history == old(history) + [entry]
      ensures previousChats == old(previousChats) && onExistingChat == old(onExistingChat)
      ensures currentChatIndex == old(currentChatIndex) && loading == old(loading)
    {
      history := history + [entry];
    }

    method SetLoading(b: bool)
      modifies this
      ensures loading == b
      ensures history == old(history) && previousChats == old(previousChats)
      ensures onExistingChat == old(onExistingChat) && currentChatIndex == old(currentChatIndex)
    {
      loading := b;
    }

    /** `createChat`: a fresh, unsaved conversation; the saved ones are untouched. */
    method CreateChat()
      modifies this
      ensures Valid()
      ensures !loading && !onExistingChat && currentChatIndex == -1 && history == []
      ensures previousChats == old(previousChats)
    {
      loading, onExistingChat, currentChatIndex, history := false, false, -1, [];
    }

    /** `loadChat`: views the given conversation at the given index; the state is
        valid exactly when the index points into the list. */
    method LoadChat(chat: Chat, index: int)
      modifies this
      ensures Valid() <==> 0 <= index < |previousChats|
      ensures !loading && onExistingChat && currentChatIndex == index && history == chat.history
      ensures previousChats == old(previousChats)
    {
      loading, onExistingChat, currentChatIndex, history := false, true, index, chat.history;
    }

    /** `deleteChat`: removes the conversation at `k`, keeping the others in order;
        deleting the viewed one starts a fresh conversation, deleting an earlier one
        moves the index down by one. */
    method DeleteChat(k: int)
      requires Valid()
      modifies this
      ensures 0 <= k ==> Valid()
      ensures previousChats == RemoveIndex(old(previousChats), k)
      ensures currentChatIndex == IndexAfterDelete(old(currentChatIndex), k)
      ensures old(currentChatIndex) == k ==> !onExistingChat && history == []
      ensures old(currentChatIndex) != k ==> onExistingChat == old(onExistingChat) && history == old(history)
      ensures loading == old(loading)
    {
      previousChats := RemoveIndex(previousChats, k);
      if currentChatIndex == k {
        onExistingChat, currentChatIndex, history := false, -1, [];
      } else if currentChatIndex > k {
        currentChatIndex := currentChatIndex - 1;
      }
    }

    /** `saveChatHistory`: a viewed conversation gets the new history in place; an
        unsaved one is appended with the pending title and becomes the viewed one,
        and its index is returned for the title that follows. */
    method SaveChatHistory(updated: seq<Entry>) returns (titleIndex: Option<nat>)
      requires Valid()
      modifies this
      ensures Valid()
      ensures history == updated && onExistingChat && loading == old(loading)
      ensures old(onExistingChat) ==>
        previousChats == WithHistoryAt(old(previousChats), old(currentChatIndex), updated)
        && currentChatIndex == old(currentChatIndex) && titleIndex.None?
      ensures !old(onExistingChat) ==>
        previousChats == old(previousChats) + [Chat(updated, PendingTitle)]
        && currentChatIndex == |old(previousChats)| && titleIndex == Some(|old(previousChats)|)
    {
      var ctxExisting, ctxIndex := onExistingChat, currentChatIndex;
      var stillOnSameChat := IsStillOnSameChat(ctxExisting, ctxIndex, onExistingChat, currentChatIndex);
      StillOnSameChatAlways(onExistingChat, currentChatIndex);
      if onExistingChat && currentChatIndex >= 0 {
        previousChats := WithHistoryAt(previousChats, currentChatIndex, updated);
        if stillOnSameChat {
          history := updated;
        }
        titleIndex := None;
      } else {
        var newChatIndex := |previousChats|;
        previousChats := previousChats + [Chat(updated, PendingTitle)];
        if stillOnSameChat {
          onExistingChat, currentChatIndex, history := true, newChatIndex, updated;
        }
        titleIndex := Some(newChatIndex);
      }
    }

    /** The delayed title patch: the conversation at `index`, if there still is one,
        takes the generated title (or "Untitled Chat" when generation fails); no
        other conversation and nothing else changes. */
    method ApplyGeneratedTitle(index: nat, updated: seq<Entry>, summarize: seq<Content> -> TitleResult)
      requires Valid()
      modifies this
      ensures Valid()
      ensures previousChats == WithTitleAt(old(previousChats), index, GenerateTitle(updated, summarize))
      ensures history == old(history) && onExistingChat == old(onExistingChat)
      ensures currentChatIndex == old(currentChatIndex) && loading == old(loading)
    {
      var title := GenerateTitle(updated, summarize);
      previousChats := WithTitleAt(previousChats, index, title);
    }
  }
}
