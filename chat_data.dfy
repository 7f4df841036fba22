/** The chat and group records that the chat-list screens hold in their mock data
    (their `ChatData` and `GroupData` interfaces, restricted to the fields the logic reads),
    and the search test those screens share. */
module ChatData {
  import opened Text
  import opened Seqs

  datatype Chat = Chat(id: int, name: string, time: string, unread: nat, isOnline: bool)

  datatype Group = Group(id: int, name: string, participants: seq<string>, unread: nat)

  /** The filter chips of the chat list. */
  datatype ChatFilter = All | Unread | Favourites | Online | Muted

  /** `!(searchQuery && !name.toLowerCase().includes(searchQuery.toLowerCase()))`:
      the empty query matches every name. */
  predicate MatchesSearch(query: string, name: string)
  {
    query == "" || Includes(Lower(name), Lower(query))
  }

  /** `chats.map((c) => c.id)`. */
  function ChatIds(chats: seq<Chat>): (ids: seq<int>)
    ensures |ids| == |chats|
    ensures forall i :: 0 <= i < |chats| ==> ids[i] == chats[i].id
  {
    seq(|chats|, i requires 0 <= i < |chats| => chats[i].id)
  }

  /** `allChats.filter((chat) => !archivedChats.includes(chat.id))`. */
  function VisibleChats(all: seq<Chat>, archived: seq<int>): (r: seq<Chat>)
  {
    Filter(all, (c: Chat) => c.id !in archived)
  }

  /** `allGroups.filter((group) => !archivedChats.includes(group.id))`. */
  function VisibleGroups(all: seq<Group>, archived: seq<int>): (r: seq<Group>)
  {
    Filter(all, (g: Group) => g.id !in archived)
  }

  /** A chat or group is visible exactly when it is in the mock data and its id is not archived;
      chat ids and group ids are compared against the same archive list. */
  lemma VisibleMembers(chats: seq<Chat>, groups: seq<Group>, archived: seq<int>)
    ensures forall c :: c in VisibleChats(chats, archived) <==> c in chats && c.id !in archived
    ensures forall g :: g in VisibleGroups(groups, archived) <==> g in groups && g.id !in archived
  {
    forall c | c in chats && c.id !in archived ensures c in VisibleChats(chats, archived) {
      var i :| 0 <= i < |chats| && chats[i] == c;
    }
    forall g | g in groups && g.id !in archived ensures g in VisibleGroups(groups, archived) {
      var i :| 0 <= i < |groups| && groups[i] == g;
    }
  }
}
