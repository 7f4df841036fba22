/** The enhanced chat list: archive exclusion, the search/filter/sort pipeline over chats,
    the group filter, and the component state its handlers update. */
module EnhancedMainAppScreen {
  import opened Text
  import opened Seqs
  import opened ChatData
  import opened MainAppScreenHelpers

  datatype SortBy = ByTime | ByName | ByUnread

  /** The sort button: time -> name -> unread -> time. */
  function NextSortBy(s: SortBy): (r: SortBy)
    ensures r != s
  {
    match s
    case ByTime => ByName
    case ByName => ByUnread
    case ByUnread => ByTime
  }

  /** Three presses of the sort button restore the mode. */
  lemma SortByCycle(s: SortBy)
    ensures NextSortBy(NextSortBy(NextSortBy(s))) == s
  {
  }

  // ---------------------------------------------------------------------------
  // Filtering
  // ---------------------------------------------------------------------------

  /** The body of the `filteredChats` filter callback. */
  predicate KeepsChat(query: string, filter: ChatFilter, pinned: seq<int>, muted: seq<int>, c: Chat)
    ensures KeepsChat(query, filter, pinned, muted, c)
      <==> MatchesSearch(query, c.name) && ChatChipAdmits(filter, pinned, muted, c)
  {
    && MatchesSearch(query, c.name)
    && !(filter == Unread && c.unread == 0)
    && !(filter == Favourites && c.id !in pinned)
    && !(filter == Online && !c.isOnline)
    && !(filter == Muted && c.id !in muted)
  }

  function ChatKeep(query: string, filter: ChatFilter, pinned: seq<int>, muted: seq<int>): Chat -> bool
  {
    (c: Chat) => KeepsChat(query, filter, pinned, muted, c)
  }

  /** The body of the `filteredGroups` filter callback; it has no "online" case. */
  predicate KeepsGroup(query: string, filter: ChatFilter, pinned: seq<int>, muted: seq<int>, g: Group)
    ensures KeepsGroup(query, filter, pinned, muted, g)
      <==> MatchesSearch(query, g.name) && GroupChipAdmits(filter, pinned, muted, g)
  {
    && MatchesSearch(query, g.name)
    && !(filter == Unread && g.unread == 0)
    && !(filter == Favourites && g.id !in pinned)
    && !(filter == Muted && g.id !in muted)
  }

  /** What each filter chip means for a chat. */
  predicate ChatChipAdmits(filter: ChatFilter, pinned: seq<int>, muted: seq<int>, c: Chat)
  {
    match filter
    case All => true
    case Unread => c.unread > 0
    case Favourites => c.id in pinned
    case Online => c.isOnline
    case Muted => c.id in muted
  }

  /** What each filter chip means for a group: "online" admits every group. */
  predicate GroupChipAdmits(filter: ChatFilter, pinned: seq<int>, muted: seq<int>, g: Group)
  {
    match filter
    case All => true
    case Unread => g.unread > 0
    case Favourites => g.id in pinned
    case Online => true
    case Muted => g.id in muted
  }

  // ---------------------------------------------------------------------------
  // Sorting
  // ---------------------------------------------------------------------------

  /** The comparator handed to `sort`: pinned chats first, then by the sort mode. Under "time"
      it never reports two chats equal, which is why that mode is not a consistent order. */
  function ChatCompare(pinned: seq<int>, sortBy: SortBy, a: Chat, b: Chat): (r: int)
    ensures a.id in pinned && b.id !in pinned ==> r < 0
    ensures a.id !in pinned && b.id in pinned ==> r > 0
    ensures (a.id in pinned <==> b.id in pinned) && sortBy == ByUnread ==> (r <= 0 <==> a.unread >= b.unread)
    ensures sortBy == ByTime ==> r != 0
  {
    var aPinned := a.id in pinned;
    var bPinned := b.id in pinned;
    if aPinned && !bPinned then -1
    else if !aPinned && bPinned then 1
    else
      match sortBy
      case ByName => LexCompare(a.name, b.name)
      case ByUnread => b.unread - a.unread
      case ByTime => if Includes(a.time, "PM") && Includes(b.time, "AM") then -1 else 1
  }

  function ChatOrder(pinned: seq<int>, sortBy: SortBy): (Chat, Chat) -> bool
  {
    (a: Chat, b: Chat) => ChatCompare(pinned, sortBy, a, b) <= 0
  }

  /** Under "name" and "unread" the comparator is consistent. */
  lemma ChatOrderConsistent(pinned: seq<int>, sortBy: SortBy)
    requires sortBy != ByTime
    ensures TotalPreorder(ChatOrder(pinned, sortBy))
  {
    var le := ChatOrder(pinned, sortBy);
    forall a: Chat, b: Chat ensures le(a, b) || le(b, a) {
      if sortBy == ByName { LexCompareAntisymmetric(a.name, b.name); }
    }
    forall a: Chat, b: Chat, c: Chat | le(a, b) && le(b, c) ensures le(a, c) {
      if sortBy == ByName && (a.id in pinned <==> b.id in pinned) && (b.id in pinned <==> c.id in pinned) {
        LexCompareTransitive(a.name, b.name, c.name);
      }
    }
  }

  // ---------------------------------------------------------------------------
  // The pipeline
  // ---------------------------------------------------------------------------

  /** `filteredChats`: the visible chats that pass the search and the chip, sorted. */
  function FilteredChats(
    all: seq<Chat>, archived: seq<int>, query: string, filter: ChatFilter,
    sortBy: SortBy, pinned: seq<int>, muted: seq<int>): seq<Chat>
  {
    Sort(Filter(VisibleChats(all, archived), ChatKeep(query, filter, pinned, muted)), ChatOrder(pinned, sortBy))
  }

  /** `filteredGroups`: the visible groups that pass the search and the chip, unsorted. */
  function FilteredGroups(
    all: seq<Group>, archived: seq<int>, query: string, filter: ChatFilter,
    pinned: seq<int>, muted: seq<int>): seq<Group>
  {
    Filter(VisibleGroups(all, archived), (g: Group) => KeepsGroup(query, filter, pinned, muted, g))
  }

  /** A chat is listed exactly when it is not archived, matches the search and passes the chip. */
  lemma FilteredChatsMembers(
    all: seq<Chat>, archived: seq<int>, query: string, filter: ChatFilter,
    sortBy: SortBy, pinned: seq<int>, muted: seq<int>, c: Chat)
    ensures c in FilteredChats(all, archived, query, filter, sortBy, pinned, muted)
      <==> c in all && c.id !in archived && MatchesSearch(query, c.name) && ChatChipAdmits(filter, pinned, muted, c)
  {
    var visible := VisibleChats(all, archived);
    var kept := Filter(visible, ChatKeep(query, filter, pinned, muted));
    VisibleMembers(all, [], archived);
    SortMembers(kept, ChatOrder(pinned, sortBy));
    if c in visible && KeepsChat(query, filter, pinned, muted, c) {
      var i :| 0 <= i < |visible| && visible[i] == c;
    }
  }

  /** The sorted list is a permutation of the visible chats that pass the filters. */
  lemma FilteredChatsPermutation(
    all: seq<Chat>, archived: seq<int>, query: string, filter: ChatFilter,
    sortBy: SortBy, pinned: seq<int>, muted: seq<int>)
    ensures multiset(FilteredChats(all, archived, query, filter, sortBy, pinned, muted))
      == multiset(Filter(VisibleChats(all, archived), ChatKeep(query, filter, pinned, muted)))
    ensures multiset(FilteredChats(all, archived, query, filter, sortBy, pinned, muted)) <= multiset(all)
  {
    FilterMultiset(VisibleChats(all, archived), ChatKeep(query, filter, pinned, muted));
    FilterMultiset(all, (c: Chat) => c.id !in archived);
  }

  /** Under "name" and "unread", every pinned chat comes before every unpinned chat; within a
      pin class "unread" orders by descending unread count and "name" by ascending name. */
  lemma FilteredChatsOrder(
    all: seq<Chat>, archived: seq<int>, query: string, filter: ChatFilter,
    sortBy: SortBy, pinned: seq<int>, muted: seq<int>, i: int, j: int)
    requires sortBy != ByTime
    requires 0 <= i < j < |FilteredChats(all, archived, query, filter, sortBy, pinned, muted)|
    ensures var r := FilteredChats(all, archived, query, filter, sortBy, pinned, muted);
      && (r[j].id in pinned ==> r[i].id in pinned)
      && ((r[i].id in pinned <==> r[j].id in pinned) ==>
            (sortBy == ByUnread ==> r[i].unread >= r[j].unread)
            && (sortBy == ByName ==> LexCompare(r[i].name, r[j].name) <= 0))
  {
    var kept := Filter(VisibleChats(all, archived), ChatKeep(query, filter, pinned, muted));
    ChatOrderConsistent(pinned, sortBy);
    SortSorted(kept, ChatOrder(pinned, sortBy));
  }

  /** No listed chat or group carries an archived id. */
  lemma NothingArchivedListed(
    chats: seq<Chat>, groups: seq<Group>, archived: seq<int>, query: string, filter: ChatFilter,
    sortBy: SortBy, pinned: seq<int>, muted: seq<int>)
    ensures forall c :: c in FilteredChats(chats, archived, query, filter, sortBy, pinned, muted) ==> c.id !in archived
    ensures forall g :: g in FilteredGroups(groups, archived, query, filter, pinned, muted) ==> g.id !in archived
  {
    forall c | c in FilteredChats(chats, archived, query, filter, sortBy, pinned, muted) ensures c.id !in archived {
      FilteredChatsMembers(chats, archived, query, filter, sortBy, pinned, muted, c);
    }
    VisibleMembers(chats, groups, archived);
  }

  /** A group is listed exactly when it is not archived, matches the search and passes the chip;
      in particular "online" keeps every matching group. */
  lemma FilteredGroupsMembers(
    all: seq<Group>, archived: seq<int>, query: string, filter: ChatFilter,
    pinned: seq<int>, muted: seq<int>, g: Group)
    ensures g in FilteredGroups(all, archived, query, filter, pinned, muted)
      <==> g in all && g.id !in archived && MatchesSearch(query, g.name) && GroupChipAdmits(filter, pinned, muted, g)
  {
    var visible := VisibleGroups(all, archived);
    VisibleMembers([], all, archived);
    if g in visible && KeepsGroup(query, filter, pinned, muted, g) {
      var i :| 0 <= i < |visible| && visible[i] == g;
    }
  }

  /** The listed groups keep the order of the mock data. */
  lemma FilteredGroupsKeepOrder(
    all: seq<Group>, archived: seq<int>, query: string, filter: ChatFilter,
    pinned: seq<int>, muted: seq<int>)
    ensures IsSubseq(FilteredGroups(all, archived, query, filter, pinned, muted), all)
  {
    IsSubseqTransitive(FilteredGroups(all, archived, query, filter, pinned, muted), VisibleGroups(all, archived), all);
  }

  // ---------------------------------------------------------------------------
  // Component state
  // ---------------------------------------------------------------------------

  /** The component's state fields; `allChats` and `allGroups` are its mock data. */
  class Screen {
    const allChats: seq<Chat>
    const allGroups: seq<Group>
    var searchQuery: string
    var selectedFilter: ChatFilter
    var sortBy: SortBy
    var selectedChats: seq<int>
    var isSelectionMode: bool
    var pinnedChats: seq<int>
    var archivedChats: seq<int>
    var mutedChats: seq<int>
    var showFilters: bool

    constructor (allChats: seq<Chat>, allGroups: seq<Group>)
      ensures this.allChats == allChats && this.allGroups == allGroups
      ensures searchQuery == "" && selectedFilter == All && sortBy == ByTime
      ensures selectedChats == [] && !isSelectionMode && !showFilters
      ensures pinnedChats == [1, 3] && archivedChats == [] && mutedChats == [4]
    {
      this.allChats, this.allGroups := allChats, allGroups;
      searchQuery, selectedFilter, sortBy := "", All, ByTime;
      selectedChats, isSelectionMode, showFilters := [], false, false;
      pinnedChats, archivedChats, mutedChats := [1, 3], [], [4];
    }

    /** The chats on screen, as the component derives them on each render. */
    function Chats(): (r: seq<Chat>)
      reads this
      ensures forall c :: c in r ==> c.id !in archivedChats
    {
      NothingArchivedListed(allChats, allGroups, archivedChats, searchQuery, selectedFilter, sortBy, pinnedChats, mutedChats);
      FilteredChats(allChats, archivedChats, searchQuery, selectedFilter, sortBy, pinnedChats, mutedChats)
    }

    function Groups(): (r: seq<Group>)
      reads this
      ensures forall g :: g in r ==> g.id !in archivedChats
    {
      NothingArchivedListed(allChats, allGroups, archivedChats, searchQuery, selectedFilter, sortBy, pinnedChats, mutedChats);
      FilteredGroups(allGroups, archivedChats, searchQuery, selectedFilter, pinnedChats, mutedChats)
    }

    method ToggleChatSelection(chatId: int)
      modifies this`selectedChats
      ensures selectedChats == Toggle(old(selectedChats), chatId)
    {
      selectedChats := if chatId in selectedChats then RemoveAll(selectedChats, chatId) else selectedChats + [chatId];
    }

    method TogglePinChat(chatId: int)
      modifies this`pinnedChats
      ensures pinnedChats == Toggle(old(pinnedChats), chatId)
    {
      pinnedChats := if chatId in pinnedChats then RemoveAll(pinnedChats, chatId) else pinnedChats + [chatId];
    }

    method ToggleMuteChat(chatId: int)
      modifies this`mutedChats
      ensures mutedChats == Toggle(old(mutedChats), chatId)
    {
      mutedChats := if chatId in mutedChats then RemoveAll(mutedChats, chatId) else mutedChats + [chatId];
    }

    /** Archiving hides every selected chat, and every group sharing one of their ids. */
    method ArchiveSelectedChats()
      modifies this`archivedChats, this`selectedChats, this`isSelectionMode
      ensures archivedChats == old(archivedChats) + old(selectedChats)
      ensures selectedChats == [] && !isSelectionMode
      ensures forall c :: c in Chats() ==> c.id !in old(selectedChats)
      ensures forall g :: g in Groups() ==> g.id !in old(selectedChats)
    {
      archivedChats := archivedChats + selectedChats;
      selectedChats := [];
      isSelectionMode := false;
      NothingArchivedListed(allChats, allGroups, archivedChats, searchQuery, selectedFilter, sortBy, pinnedChats, mutedChats);
    }

    method DeleteSelectedChats()
      modifies this`selectedChats, this`isSelectionMode
      ensures selectedChats == [] && !isSelectionMode
    {
      selectedChats := [];
      isSelectionMode := false;
    }

    method CycleSortBy()
      modifies this`sortBy
      ensures sortBy == NextSortBy(old(sortBy))
    {
      sortBy := match sortBy case ByTime => ByName case ByName => ByUnread case ByUnread => ByTime;
    }

    /** A click on a chat row toggles it in selection mode and otherwise opens the chat. */
    method ClickChat(chatId: int) returns (opensChat: bool)
      modifies this`selectedChats
      ensures opensChat == !isSelectionMode
      ensures selectedChats == if isSelectionMode then Toggle(old(selectedChats), chatId) else old(selectedChats)
    {
      opensChat := !isSelectionMode;
      if isSelectionMode {
        ToggleChatSelection(chatId);
      }
    }

    /** A right-click (context menu) enters selection mode and toggles the chat. */
    method ContextMenuChat(chatId: int)
      modifies this`selectedChats, this`isSelectionMode
      ensures isSelectionMode && selectedChats == Toggle(old(selectedChats), chatId)
    {
      isSelectionMode := true;
      ToggleChatSelection(chatId);
    }

    /** The select-all button of the selection header. */
    method SelectAllListed()
      modifies this`selectedChats
      ensures selectedChats == ChatIds(Chats())
    {
      selectedChats := ChatIds(Chats());
    }

    /** Ctrl+A (or Cmd+A): select exactly the listed chats, in order, only in selection mode. */
    method PressSelectAllShortcut()
      modifies this`selectedChats
      ensures old(isSelectionMode) ==> selectedChats == ChatIds(Chats())
      ensures !old(isSelectionMode) ==> selectedChats == old(selectedChats)
    {
      if isSelectionMode {
        selectedChats := ChatIds(Chats());
      }
    }

    /** Escape: leave selection mode, clear the selection and the search, hide the filters. */
    method PressEscape()
      modifies this`isSelectionMode, this`selectedChats, this`searchQuery, this`showFilters
      ensures !isSelectionMode && selectedChats == [] && searchQuery == "" && !showFilters
    {
      isSelectionMode := false;
      selectedChats := [];
      searchQuery := "";
      showFilters := false;
    }

    /** The close button of the selection header ends selection mode and keeps the selection. */
    method CloseSelection()
      modifies this`isSelectionMode
      ensures !isSelectionMode
    {
      isSelectionMode := false;
    }

    method SetSearchQuery(query: string)
      modifies this`searchQuery
      ensures searchQuery == query
    {
      searchQuery := query;
    }

    method SetFilter(filter: ChatFilter)
      modifies this`selectedFilter
      ensures selectedFilter == filter
    {
      selectedFilter := filter;
    }

    method ToggleFilters()
      modifies this`showFilters
      ensures showFilters == !old(showFilters)
    {
      showFilters := !showFilters;
    }
  }
}
