/** The contact list: search over name and phone, the favourites/online filter, the name
    order, the chip counts and the sort-label toggle. */
module ContactsScreen {
  import opened Text
  import opened Seqs

  datatype Contact = Contact(id: int, name: string, phone: string, isOnline: bool, isFavorite: bool)

  datatype ContactFilter = AllContacts | FavoriteContacts | OnlineContacts

  datatype ContactSort = ByName | ByRecent

  /** The sort button: name <-> recent. */
  function NextContactSort(s: ContactSort): (r: ContactSort)
    ensures r != s
  {
    if s == ByName then ByRecent else ByName
  }

  lemma NextContactSortTwice(s: ContactSort)
    ensures NextContactSort(NextContactSort(s)) == s
  {
  }

  /** The search callback: a non-empty query must occur in the lower-cased name (ignoring
      case) or in the phone number (exactly as typed). */
  predicate MatchesContactSearch(query: string, c: Contact)
  {
    query == "" || Includes(Lower(c.name), Lower(query)) || Includes(c.phone, query)
  }

  /** The filter callback. */
  predicate PassesFilter(filter: ContactFilter, c: Contact)
  {
    match filter
    case FavoriteContacts => c.isFavorite
    case OnlineContacts => c.isOnline
    case AllContacts => true
  }

  /** The comparator: both branches compare names. */
  function ContactCompare(sortBy: ContactSort, a: Contact, b: Contact): (r: int)
    ensures r == LexCompare(a.name, b.name)
  {
    if sortBy == ByName then LexCompare(a.name, b.name) else LexCompare(a.name, b.name)
  }

  function ContactOrder(sortBy: ContactSort): (Contact, Contact) -> bool
  {
    (a: Contact, b: Contact) => ContactCompare(sortBy, a, b) <= 0
  }

  /** `filteredContacts`: search, then filter, then sort. */
  function FilteredContacts(contacts: seq<Contact>, query: string, filter: ContactFilter, sortBy: ContactSort): seq<Contact>
  {
    var searched := Filter(contacts, (c: Contact) => MatchesContactSearch(query, c));
    Sort(Filter(searched, (c: Contact) => PassesFilter(filter, c)), ContactOrder(sortBy))
  }

  /** A contact is listed exactly when it matches the search and passes the filter. */
  lemma FilteredContactsMembers(contacts: seq<Contact>, query: string, filter: ContactFilter, sortBy: ContactSort, c: Contact)
    ensures c in FilteredContacts(contacts, query, filter, sortBy)
      <==> c in contacts && MatchesContactSearch(query, c) && PassesFilter(filter, c)
  {
    var searched := Filter(contacts, (c: Contact) => MatchesContactSearch(query, c));
    var kept := Filter(searched, (c: Contact) => PassesFilter(filter, c));
    SortMembers(kept, ContactOrder(sortBy));
    if c in contacts && MatchesContactSearch(query, c) && PassesFilter(filter, c) {
      var i :| 0 <= i < |contacts| && contacts[i] == c;
      var j :| 0 <= j < |searched| && searched[j] == c;
    }
  }

  /** The list is a permutation of the contacts that pass the search and the filter, and so of a
      sub-collection of the contacts. */
  lemma FilteredContactsPermutation(contacts: seq<Contact>, query: string, filter: ContactFilter, sortBy: ContactSort)
    ensures multiset(FilteredContacts(contacts, query, filter, sortBy))
      == multiset(Filter(Filter(contacts, (c: Contact) => MatchesContactSearch(query, c)), (c: Contact) => PassesFilter(filter, c)))
    ensures multiset(FilteredContacts(contacts, query, filter, sortBy)) <= multiset(contacts)
  {
    var searched := Filter(contacts, (c: Contact) => MatchesContactSearch(query, c));
    FilterMultiset(contacts, (c: Contact) => MatchesContactSearch(query, c));
    FilterMultiset(searched, (c: Contact) => PassesFilter(filter, c));
  }

  /** Whatever the sort label says, the list is in ascending name order... */
  lemma FilteredContactsSortedByName(contacts: seq<Contact>, query: string, filter: ContactFilter, sortBy: ContactSort, i: int, j: int)
    requires 0 <= i < j < |FilteredContacts(contacts, query, filter, sortBy)|
    ensures LexCompare(FilteredContacts(contacts, query, filter, sortBy)[i].name,
                       FilteredContacts(contacts, query, filter, sortBy)[j].name) <= 0
  {
    var le := ContactOrder(sortBy);
    forall a: Contact, b: Contact ensures le(a, b) || le(b, a) {
      LexCompareAntisymmetric(a.name, b.name);
    }
    forall a: Contact, b: Contact, c: Contact | le(a, b) && le(b, c) ensures le(a, c) {
      LexCompareTransitive(a.name, b.name, c.name);
    }
    var searched := Filter(contacts, (c: Contact) => MatchesContactSearch(query, c));
    SortSorted(Filter(searched, (c: Contact) => PassesFilter(filter, c)), le);
  }

  /** ... and "recent" lists exactly what "name" lists. */
  lemma SortLabelIrrelevant(contacts: seq<Contact>, query: string, filter: ContactFilter)
    ensures FilteredContacts(contacts, query, filter, ByRecent) == FilteredContacts(contacts, query, filter, ByName)
  {
    var searched := Filter(contacts, (c: Contact) => MatchesContactSearch(query, c));
    SortExt(Filter(searched, (c: Contact) => PassesFilter(filter, c)), ContactOrder(ByRecent), ContactOrder(ByName));
  }

  /** The empty search with the "all" filter lists every contact. */
  lemma EmptySearchListsAll(contacts: seq<Contact>, sortBy: ContactSort)
    ensures multiset(FilteredContacts(contacts, "", AllContacts, sortBy)) == multiset(contacts)
  {
    FilterKeepsAll(contacts, (c: Contact) => MatchesContactSearch("", c));
    FilterKeepsAll(contacts, (c: Contact) => PassesFilter(AllContacts, c));
  }

  /** The "Favorites (n)" chip. */
  function FavoriteCount(contacts: seq<Contact>): (n: nat)
    ensures n <= |contacts|
  {
    FilterLength(contacts, (c: Contact) => c.isFavorite);
    |Filter(contacts, (c: Contact) => c.isFavorite)|
  }

  /** The "Online (n)" chip. */
  function OnlineCount(contacts: seq<Contact>): (n: nat)
    ensures n <= |contacts|
  {
    FilterLength(contacts, (c: Contact) => c.isOnline);
    |Filter(contacts, (c: Contact) => c.isOnline)|
  }

  /** Each chip counts what its filter would list with an empty search, whatever the current
      search, filter and sort are. */
  lemma ChipCounts(contacts: seq<Contact>, sortBy: ContactSort)
    ensures FavoriteCount(contacts) == |FilteredContacts(contacts, "", FavoriteContacts, sortBy)|
    ensures OnlineCount(contacts) == |FilteredContacts(contacts, "", OnlineContacts, sortBy)|
  {
    FilterKeepsAll(contacts, (c: Contact) => MatchesContactSearch("", c));
    FilterExt(contacts, (c: Contact) => c.isFavorite, (c: Contact) => PassesFilter(FavoriteContacts, c));
    FilterExt(contacts, (c: Contact) => c.isOnline, (c: Contact) => PassesFilter(OnlineContacts, c));
  }

  /** `toggleFavorite` only logs: the contact list it leaves behind is the one it was given. */
  function ToggleFavorite(contacts: seq<Contact>, contactId: int): (r: seq<Contact>)
    ensures r == contacts
  {
    contacts
  }
}
