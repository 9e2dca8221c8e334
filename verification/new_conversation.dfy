/** NewConversationViewController: searching the user directory. The
    directory is fetched from the store once and kept for the screen's
    lifetime; each search filters the kept copy by name prefix. */
module NewConversation {
  import opened Wrappers
  import opened Seqs
  import opened Tree
  import opened Database
  import opened Strings

  /** The screen's state: the cached directory, the rows shown and whether
      the directory has been fetched. */
  datatype SearchScreen = SearchScreen(userList: seq<StringDict>, results: seq<StringDict>, hasFetched: bool)

  /** The screen as first shown. */
  const Initial: SearchScreen := SearchScreen([], [], false)

  /** The filter closure: the entry has a name, and the lower-cased name
      starts with the lower-cased term. */
  predicate NameMatches(term: string, entry: StringDict)
  {
    "name" in entry && HasPrefix(Lower(entry["name"]), Lower(term))
  }

  /** `filterUsers(with:)`: nothing before the directory is fetched;
      afterwards the rows become the matching cached entries. */
  function FilterUsers(screen: SearchScreen, term: string): (r: SearchScreen)
    ensures !screen.hasFetched ==> r == screen
    ensures screen.hasFetched ==> r.hasFetched && r.userList == screen.userList
    ensures screen.hasFetched ==> forall e :: e in r.results <==> e in screen.userList && NameMatches(term, e)
    ensures screen.hasFetched ==> IsSubsequence(r.results, screen.userList)
    ensures screen.hasFetched ==> forall e :: multiset(r.results)[e]
                                          == if NameMatches(term, e) then multiset(screen.userList)[e] else 0
  {
    if !screen.hasFetched then screen
    else
      var matches := Filter(screen.userList, (e: StringDict) => NameMatches(term, e));
      FilterIsSubsequence(screen.userList, (e: StringDict) => NameMatches(term, e));
      screen.(results := matches)
  }

  /** An entry without a "name" key is never shown. */
  lemma NamelessNeverShown(screen: SearchScreen, term: string, entry: StringDict)
    requires screen.hasFetched && "name" !in entry
    ensures entry !in FilterUsers(screen, term).results
  {
  }

  /** The search ignores the case of the term: searching for the
      lower-cased term shows the same rows. */
  lemma SearchIgnoresTermCase(screen: SearchScreen, term: string)
    ensures FilterUsers(screen, term) == FilterUsers(screen, Lower(term))
  {
    assert Lower(Lower(term)) == Lower(term);
    FilterCongruent(screen.userList, (e: StringDict) => NameMatches(term, e),
                    (e: StringDict) => NameMatches(Lower(term), e));
  }

  /** `searchUsers(query:)`: filter the cache if the directory was fetched;
      otherwise fetch it, and on success keep it, mark it fetched and filter.
      A failed fetch changes nothing. */
  function SearchUsers(screen: SearchScreen, query: string, store: Store): (r: SearchScreen)
    ensures r.hasFetched <==> screen.hasFetched || FetchUsers(store).Some?
    ensures screen.hasFetched ==> r.userList == screen.userList
    ensures !screen.hasFetched && FetchUsers(store).Some? ==> r.userList == FetchUsers(store).value
    ensures !screen.hasFetched && FetchUsers(store).None? ==> r == screen
    ensures r.hasFetched ==> forall e :: e in r.results <==> e in r.userList && NameMatches(query, e)
    ensures r.hasFetched ==> IsSubsequence(r.results, r.userList)
    ensures r.hasFetched ==> forall e :: multiset(r.results)[e]
                                          == if NameMatches(query, e) then multiset(r.userList)[e] else 0
  {
    if screen.hasFetched then FilterUsers(screen, query)
    else match FetchUsers(store)
      case Some(userCollection) => FilterUsers(screen.(userList := userCollection, hasFetched := true), query)
      case None => screen
  }

  /** Once the directory has been fetched the store is never read again:
      the outcome of a search does not depend on what the store holds now. */
  lemma SearchIgnoresStoreOnceFetched(screen: SearchScreen, query: string, s1: Store, s2: Store)
    requires screen.hasFetched
    ensures SearchUsers(screen, query, s1) == SearchUsers(screen, query, s2)
  {
  }

  /** The cache is never refreshed: a later store that differs does not
      change the directory a fetched screen searches. */
  lemma CacheIsStale(store: Store, later: Store, q1: string, q2: string)
    requires FetchUsers(store).Some?
    ensures var first := SearchUsers(Initial, q1, store);
      SearchUsers(first, q2, later).userList == FetchUsers(store).value
  {
  }

  /** `searchBarSearchButtonClicked`: ignore a missing or blank query;
      otherwise clear the rows and search with the query as typed. */
  function SearchButtonClicked(screen: SearchScreen, text: Option<string>, store: Store): (r: SearchScreen)
    ensures text.None? || IsBlank(text.value) ==> r == screen
    ensures text.Some? && !IsBlank(text.value) && !r.hasFetched ==>
      r.results == [] && r.userList == screen.userList
    ensures text.Some? && !IsBlank(text.value) && r.hasFetched ==>
      forall e :: e in r.results <==> e in r.userList && NameMatches(text.value, e)
    ensures screen.hasFetched ==> r.hasFetched && r.userList == screen.userList
    ensures text.Some? && !IsBlank(text.value) ==> (r.hasFetched <==> screen.hasFetched || FetchUsers(store).Some?)
    ensures text.Some? && !IsBlank(text.value) && !screen.hasFetched && FetchUsers(store).Some? ==>
      r.userList == FetchUsers(store).value
    ensures text.Some? && !IsBlank(text.value) && r.hasFetched ==> IsSubsequence(r.results, r.userList)
    ensures text.Some? && !IsBlank(text.value) && r.hasFetched ==>
      forall e :: (multiset(r.results)[e] == if NameMatches(text.value, e) then multiset(r.userList)[e] else 0)
  {
    match text
    case None => screen
    case Some(query) =>
      if IsBlank(query) then screen
      else SearchUsers(screen.(results := []), query, store)
  }
}
