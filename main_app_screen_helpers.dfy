/** The quick-action handlers of the chat list, as functions from the setter's previous
    value to the new one. */
module MainAppScreenHelpers {
  import opened Seqs

  /** `prev.filter((id) => id !== x)`. */
  function RemoveAll(prev: seq<int>, x: int): (r: seq<int>)
    ensures x !in r
    ensures forall y :: y != x ==> (y in r <==> y in prev)
    ensures forall y :: y != x ==> multiset(r)[y] == multiset(prev)[y]
    ensures IsSubseq(r, prev)
  {
    FilterCounts(prev, (y: int) => y != x);
    Filter(prev, (y: int) => y != x)
  }

  lemma RemoveAllAbsent(prev: seq<int>, x: int)
    requires x !in prev
    ensures RemoveAll(prev, x) == prev
  {
    FilterKeepsAll(prev, (y: int) => y != x);
  }

  lemma RemoveAllAppend(a: seq<int>, b: seq<int>, x: int)
    ensures RemoveAll(a + b, x) == RemoveAll(a, x) + RemoveAll(b, x)
  {
    FilterAppend(a, b, (y: int) => y != x);
  }

  /** The membership toggle every handler applies:
      `prev.includes(id) ? prev.filter((x) => x !== id) : [...prev, id]`.
      The id becomes present exactly when it was absent; an absent id goes at the end;
      every other id keeps its occurrences and their order. */
  function Toggle(prev: seq<int>, id: int): (r: seq<int>)
    ensures id in r <==> id !in prev
    ensures id !in prev ==> r == prev + [id]
    ensures forall y :: y != id ==> (y in r <==> y in prev)
    ensures RemoveAll(r, id) == RemoveAll(prev, id)
  {
    if id in prev then
      RemoveAllAbsent(RemoveAll(prev, id), id);
      RemoveAll(prev, id)
    else
      RemoveAllAppend(prev, [id], id);
      assert RemoveAll([id], id) == [];
      prev + [id]
  }

  /** Toggling an absent id twice gives back the original list. */
  lemma ToggleTwiceAbsent(prev: seq<int>, id: int)
    requires id !in prev
    ensures Toggle(Toggle(prev, id), id) == prev
  {
    RemoveAllAppend(prev, [id], id);
    assert RemoveAll([id], id) == [];
    RemoveAllAbsent(prev, id);
  }

  /** Toggling a present id twice removes its copies and puts a single one at the end. */
  lemma ToggleTwicePresent(prev: seq<int>, id: int)
    requires id in prev
    ensures Toggle(Toggle(prev, id), id) == RemoveAll(prev, id) + [id]
  {
  }

  /** `toggleChatSelection(chatId, selectedChats, setSelectedChats)`: the setter receives
      `Toggle(prev, chatId)`; the `selectedChats` snapshot is not read. */
  function ToggleChatSelection(chatId: int, selectedChats: seq<int>, prev: seq<int>): (r: seq<int>)
    ensures chatId in r <==> chatId !in prev
    ensures forall y :: y != chatId ==> (y in r <==> y in prev)
  {
    Toggle(prev, chatId)
  }

  /** `togglePinChat(chatId, pinnedChats, setPinnedChats)`. */
  function TogglePinChat(chatId: int, pinnedChats: seq<int>, prev: seq<int>): (r: seq<int>)
    ensures chatId in r <==> chatId !in prev
    ensures forall y :: y != chatId ==> (y in r <==> y in prev)
  {
    Toggle(prev, chatId)
  }

  /** `toggleMuteChat(chatId, mutedChats, setMutedChats)`. */
  function ToggleMuteChat(chatId: int, mutedChats: seq<int>, prev: seq<int>): (r: seq<int>)
    ensures chatId in r <==> chatId !in prev
    ensures forall y :: y != chatId ==> (y in r <==> y in prev)
  {
    Toggle(prev, chatId)
  }

  /** The three toggle handlers agree with each other and with `Toggle`, whatever snapshot
      they are handed. */
  lemma ToggleHandlersAgree(chatId: int, snapshot1: seq<int>, snapshot2: seq<int>, prev: seq<int>)
    ensures ToggleChatSelection(chatId, snapshot1, prev) == Toggle(prev, chatId)
    ensures TogglePinChat(chatId, snapshot1, prev) == ToggleChatSelection(chatId, snapshot2, prev)
    ensures ToggleMuteChat(chatId, snapshot2, prev) == ToggleChatSelection(chatId, snapshot1, prev)
  {
  }

  /** The state slots the quick actions write. */
  datatype ChatLists = ChatLists(
    selected: seq<int>, pinned: seq<int>, muted: seq<int>, archived: seq<int>, selectionMode: bool)

  /** `archiveSelectedChats(selectedChats, ...)`: archived grows by the selection, without
      removing duplicates; the selection is cleared and selection mode ends. */
  function ArchiveSelectedChats(selectedChats: seq<int>, prev: ChatLists): (r: ChatLists)
    ensures r.archived == prev.archived + selectedChats
    ensures |r.archived| == |prev.archived| + |selectedChats|
    ensures forall id :: id in r.archived <==> id in prev.archived || id in selectedChats
    ensures r.selected == [] && !r.selectionMode
    ensures r.pinned == prev.pinned && r.muted == prev.muted
  {
    prev.(archived := prev.archived + selectedChats, selected := [], selectionMode := false)
  }

  /** `deleteSelectedChats(...)`: only the selection and selection mode change. */
  function DeleteSelectedChats(prev: ChatLists): (r: ChatLists)
    ensures r.selected == [] && !r.selectionMode
    ensures r.archived == prev.archived && r.pinned == prev.pinned && r.muted == prev.muted
  {
    prev.(selected := [], selectionMode := false)
  }
}
