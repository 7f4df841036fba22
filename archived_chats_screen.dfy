/** The archived-chats screen: the search over its fixed list and the selection that the
    unarchive and delete actions clear. */
module ArchivedChatsScreen {
  import opened Text
  import opened Seqs
  import MainAppScreenHelpers

  datatype ArchivedChat = ArchivedChat(id: int, name: string, isGroup: bool)

  /** The screen's hard-coded list. */
  const ArchivedList: seq<ArchivedChat> := [
    ArchivedChat(1, "Old Project Team", true),
    ArchivedChat(2, "John Smith", false),
    ArchivedChat(3, "College Friends", true)
  ]

  /** `filteredChats`: there is no empty-query guard, the empty query is simply included in
      every name. */
  function FilteredChats(chats: seq<ArchivedChat>, query: string): (r: seq<ArchivedChat>)
    ensures |r| <= |chats|
    ensures forall i :: 0 <= i < |r| ==> Includes(Lower(r[i].name), Lower(query))
  {
    FilterLength(chats, NameSearch(query));
    Filter(chats, NameSearch(query))
  }

  function NameSearch(query: string): ArchivedChat -> bool
  {
    (c: ArchivedChat) => Includes(Lower(c.name), Lower(query))
  }

  /** A chat is listed exactly when its lower-cased name contains the lower-cased query. */
  lemma FilteredChatsMembers(chats: seq<ArchivedChat>, query: string, c: ArchivedChat)
    ensures c in FilteredChats(chats, query) <==> c in chats && Includes(Lower(c.name), Lower(query))
  {
    if c in chats && Includes(Lower(c.name), Lower(query)) {
      var i :| 0 <= i < |chats| && chats[i] == c;
    }
  }

  /** The empty query lists every chat, in order. */
  lemma EmptyQueryListsAll(chats: seq<ArchivedChat>)
    ensures FilteredChats(chats, "") == chats
  {
    forall c | c in chats ensures Includes(Lower(c.name), Lower("")) {
      IncludesEmpty(Lower(c.name));
    }
    FilterKeepsAll(chats, NameSearch(""));
  }

  /** Any search keeps the list's order. */
  lemma FilteredChatsKeepOrder(chats: seq<ArchivedChat>, query: string)
    ensures IsSubseq(FilteredChats(chats, query), chats)
  {
  }

  /** Example, a step of SearchIgnoresCase: "John Smith" contains "SMITH" once both are lower-cased. */
  lemma JohnSmithMatches()
    ensures Includes(Lower("John Smith"), Lower("SMITH"))
  {
    var john := Lower("John Smith");
    assert john[5..10] == Lower("SMITH");
    OccursIncludes(john, Lower("SMITH"), 5);
  }

  /** Example, a step of SearchIgnoresCase: "Old Project Team" has no 's'. */
  lemma OldProjectTeamMisses()
    ensures !Includes(Lower("Old Project Team"), Lower("SMITH"))
  {
    var s := Lower("Old Project Team");
    assert Lower("SMITH")[0] == 's';
    assert forall i :: 0 <= i < |s| ==> s[i] != 's';
    MissingCharExcludes(s, Lower("SMITH"), 0);
  }

  /** Example, a step of SearchIgnoresCase: "College Friends" has no 'm'. */
  lemma CollegeFriendsMisses()
    ensures !Includes(Lower("College Friends"), Lower("SMITH"))
  {
    var s := Lower("College Friends");
    assert Lower("SMITH")[1] == 'm';
    assert forall i :: 0 <= i < |s| ==> s[i] != 'm';
    MissingCharExcludes(s, Lower("SMITH"), 1);
  }

  /** Example on the fixed list: searching "SMITH" finds only John Smith. */
  lemma SearchIgnoresCase()
    ensures FilteredChats(ArchivedList, "SMITH") == [ArchivedChat(2, "John Smith", false)]
  {
    var p := NameSearch("SMITH");
    var a, b, c := [ArchivedList[0]], [ArchivedList[1]], [ArchivedList[2]];
    var fa, fb, fc := Filter(a, p), Filter(b, p), Filter(c, p);
    assert fa == [] by { OldProjectTeamMisses(); }
    assert fb == b by { JohnSmithMatches(); }
    assert fc == [] by { CollegeFriendsMisses(); }
    assert Filter(a + b, p) == b by { FilterAppend(a, b, p); }
    assert Filter(a + b + c, p) == b by { FilterAppend(a + b, c, p); }
    assert ArchivedList == a + b + c;
  }

  /** The unarchive and delete buttons are shown exactly when something is selected. */
  predicate ActionsVisible(selectedChats: seq<int>)
  {
    |selectedChats| > 0
  }

  /** The component state; the archived list itself is a constant of the component. */
  class Screen {
    var searchQuery: string
    var selectedChats: seq<int>

    constructor ()
      ensures searchQuery == "" && selectedChats == []
    {
      searchQuery, selectedChats := "", [];
    }

    /** "n archived conversations". */
    function DisplayedCount(): (n: nat)
      reads this
      ensures n == |FilteredChats(ArchivedList, searchQuery)|
      ensures n <= |ArchivedList|
    {
      var query := searchQuery;
      FilterLength(ArchivedList, NameSearch(query));
      |FilteredChats(ArchivedList, query)|
    }

    method SetSearchQuery(query: string)
      modifies this`searchQuery
      ensures searchQuery == query
    {
      searchQuery := query;
    }

    /** The context-menu toggle, the same toggle as the chat list's. */
    method ToggleChatSelection(chatId: int)
      modifies this`selectedChats
      ensures selectedChats == MainAppScreenHelpers.Toggle(old(selectedChats), chatId)
    {
      selectedChats := if chatId in selectedChats then MainAppScreenHelpers.RemoveAll(selectedChats, chatId)
                       else selectedChats + [chatId];
    }

    /** Unarchive logs the selection and clears it; nothing is removed from the archive. */
    method UnarchiveSelectedChats() returns (logged: seq<int>)
      modifies this`selectedChats
      ensures logged == old(selectedChats) && selectedChats == []
      ensures !ActionsVisible(selectedChats)
    {
      logged := selectedChats;
      selectedChats := [];
    }

    /** Delete logs the selection and clears it; nothing is removed from the archive. */
    method DeleteSelectedChats() returns (logged: seq<int>)
      modifies this`selectedChats
      ensures logged == old(selectedChats) && selectedChats == []
      ensures !ActionsVisible(selectedChats)
    {
      logged := selectedChats;
      selectedChats := [];
    }
  }
}
