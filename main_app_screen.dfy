/** The basic chat list: archive exclusion, the search and "unread" filters over chats and
    groups (no sort), and the unread tab count. */
module MainAppScreen {
  import opened Text
  import opened Seqs
  import opened ChatData

  /** The body of the `filteredChats` callback; only "unread" restricts. */
  predicate KeepsChat(query: string, filter: ChatFilter, c: Chat)
  {
    MatchesSearch(query, c.name) && !(filter == Unread && c.unread == 0)
  }

  /** The body of the `filteredGroups` callback. */
  predicate KeepsGroup(query: string, filter: ChatFilter, g: Group)
  {
    MatchesSearch(query, g.name) && !(filter == Unread && g.unread == 0)
  }

  function FilteredChats(all: seq<Chat>, archived: seq<int>, query: string, filter: ChatFilter): seq<Chat>
  {
    Filter(VisibleChats(all, archived), (c: Chat) => KeepsChat(query, filter, c))
  }

  function FilteredGroups(all: seq<Group>, archived: seq<int>, query: string, filter: ChatFilter): seq<Group>
  {
    Filter(VisibleGroups(all, archived), (g: Group) => KeepsGroup(query, filter, g))
  }

  /** The "Unread (n)" chip: visible chats plus visible groups with unread messages. */
  function UnreadTabCount(chats: seq<Chat>, groups: seq<Group>, archived: seq<int>): nat
  {
    |Filter(VisibleChats(chats, archived), (c: Chat) => c.unread > 0)|
    + |Filter(VisibleGroups(groups, archived), (g: Group) => g.unread > 0)|
  }

  /** A chat or group is listed exactly when it is visible, matches the search and, under
      "unread", has unread messages. */
  lemma FilteredMembers(
    chats: seq<Chat>, groups: seq<Group>, archived: seq<int>, query: string, filter: ChatFilter)
    ensures forall c :: (c in FilteredChats(chats, archived, query, filter)
      <==> c in chats && c.id !in archived && MatchesSearch(query, c.name) && (filter == Unread ==> c.unread > 0))
    ensures forall g :: (g in FilteredGroups(groups, archived, query, filter)
      <==> g in groups && g.id !in archived && MatchesSearch(query, g.name) && (filter == Unread ==> g.unread > 0))
  {
    VisibleMembers(chats, groups, archived);
    var vc := VisibleChats(chats, archived);
    var vg := VisibleGroups(groups, archived);
    forall c | c in vc && KeepsChat(query, filter, c) ensures c in FilteredChats(chats, archived, query, filter) {
      var i :| 0 <= i < |vc| && vc[i] == c;
    }
    forall g | g in vg && KeepsGroup(query, filter, g) ensures g in FilteredGroups(groups, archived, query, filter) {
      var i :| 0 <= i < |vg| && vg[i] == g;
    }
  }

  /** One archived id hides both the chat and the group that carry it. */
  lemma ArchivedIdHidesBoth(
    chats: seq<Chat>, groups: seq<Group>, archived: seq<int>, query: string, filter: ChatFilter, id: int)
    requires id in archived
    ensures forall c :: c in FilteredChats(chats, archived, query, filter) ==> c.id != id
    ensures forall g :: g in FilteredGroups(groups, archived, query, filter) ==> g.id != id
  {
    FilteredMembers(chats, groups, archived, query, filter);
  }

  /** The filters keep the input order and draw only from their input: there is no sort. */
  lemma FilteredKeepOrder(
    chats: seq<Chat>, groups: seq<Group>, archived: seq<int>, query: string, filter: ChatFilter)
    ensures IsSubseq(FilteredChats(chats, archived, query, filter), chats)
    ensures IsSubseq(FilteredGroups(groups, archived, query, filter), groups)
  {
    IsSubseqTransitive(FilteredChats(chats, archived, query, filter), VisibleChats(chats, archived), chats);
    IsSubseqTransitive(FilteredGroups(groups, archived, query, filter), VisibleGroups(groups, archived), groups);
  }

  /** Every filter other than "unread", "favourites" included, lists what "all" lists. */
  lemma OnlyUnreadRestricts(
    chats: seq<Chat>, groups: seq<Group>, archived: seq<int>, query: string, filter: ChatFilter)
    requires filter != Unread
    ensures FilteredChats(chats, archived, query, filter) == FilteredChats(chats, archived, query, All)
    ensures FilteredGroups(groups, archived, query, filter) == FilteredGroups(groups, archived, query, All)
  {
    FilterExt(VisibleChats(chats, archived), (c: Chat) => KeepsChat(query, filter, c), (c: Chat) => KeepsChat(query, All, c));
    FilterExt(VisibleGroups(groups, archived), (g: Group) => KeepsGroup(query, filter, g), (g: Group) => KeepsGroup(query, All, g));
  }

  /** The unread tab count is what the "unread" filter lists with an empty search, whatever
      the current search is. */
  lemma UnreadTabCountIsUnreadListing(chats: seq<Chat>, groups: seq<Group>, archived: seq<int>)
    ensures UnreadTabCount(chats, groups, archived)
      == |FilteredChats(chats, archived, "", Unread)| + |FilteredGroups(groups, archived, "", Unread)|
  {
    FilterExt(VisibleChats(chats, archived), (c: Chat) => c.unread > 0, (c: Chat) => KeepsChat("", Unread, c));
    FilterExt(VisibleGroups(groups, archived), (g: Group) => g.unread > 0, (g: Group) => KeepsGroup("", Unread, g));
  }

  /** The unread count never exceeds the number of visible chats and groups. */
  lemma UnreadTabCountBound(chats: seq<Chat>, groups: seq<Group>, archived: seq<int>)
    ensures UnreadTabCount(chats, groups, archived) <= |VisibleChats(chats, archived)| + |VisibleGroups(groups, archived)|
  {
    FilterLength(VisibleChats(chats, archived), (c: Chat) => c.unread > 0);
    FilterLength(VisibleGroups(groups, archived), (g: Group) => g.unread > 0);
  }
}
