/** The team page: the roster, seeded into the store on first visit, the
    search over names and e-mail addresses, the callback that records a new
    member, and the initials shown when a member has no avatar. */
module Team {
  import opened Records
  import opened Seqs
  import opened Text

  const InitialTeamMembers: seq<Member> := [
    Member("1", "John Doe", "john@example.com", "Admin", "", 3, 2),
    Member("2", "Jane Smith", "jane@example.com", "Manager", "", 5, 3),
    Member("3", "Mike Johnson", "mike@example.com", "User", "", 2, 1),
    Member("4", "Sarah Williams", "sarah@example.com", "User", "", 4, 4)
  ]

  /** An empty query matches everyone; otherwise the lower-cased query must
      occur in the lower-cased name or e-mail address. */
  predicate MatchesQuery(m: Member, query: string) {
    query == "" || Contains(Lower(m.name), Lower(query)) || Contains(Lower(m.email), Lower(query))
  }

  function QueryMatcher(query: string): Member -> bool {
    m => MatchesQuery(m, query)
  }

  /** `filteredMembers`. */
  function FilterMembers(members: seq<Member>, query: string): seq<Member> {
    Filter(members, QueryMatcher(query))
  }

  /** An empty query lists the whole roster. */
  lemma EmptyQueryShowsAll(members: seq<Member>)
    ensures FilterMembers(members, "") == members
  {
    FilterKeepsAll(members, QueryMatcher(""));
  }

  /** Every listed member's lower-cased name or address holds the lower-cased
      query, every member that matches is listed as often as it occurs in the
      roster, and roster order is kept. */
  lemma FilterMembersSpec(members: seq<Member>, query: string)
    ensures forall m :: m in FilterMembers(members, query) <==>
              m in members &&
              (query == "" || Contains(Lower(m.name), Lower(query)) || Contains(Lower(m.email), Lower(query)))
    ensures forall m :: multiset(FilterMembers(members, query))[m] ==
              if MatchesQuery(m, query) then multiset(members)[m] else 0
    ensures IsSubsequence(FilterMembers(members, query), members)
  {
    FilterIsSubsequence(members, QueryMatcher(query));
    FilterMultiplicity(members, QueryMatcher(query));
  }

  /** The search ignores case. */
  lemma MemberSearchIgnoresCase(members: seq<Member>, query: string)
    ensures FilterMembers(members, query) == FilterMembers(members, Lower(query))
  {
    LowerIsNormal(query);
    FilterCongruent(members, QueryMatcher(query), QueryMatcher(Lower(query)));
  }

  /** The avatar fallback: the upper-cased first character of every
      space-separated part of the name (nothing at all for an empty name). */
  function AvatarFallback(name: string): (r: string)
    ensures r == Upper(WordStarts(name, true))
    ensures |r| <= |Split(name)|
  {
    InitialsSpec(name);
    Initials(name)
  }

  class TeamPage {
    const store: Store
    var searchQuery: string
    var teamMembers: seq<Member>
    var currentUser: User

    constructor (store: Store)
      ensures this.store == store && searchQuery == "" && teamMembers == InitialTeamMembers
      ensures currentUser == User("", "")
    {
      this.store := store;
      searchQuery := "";
      teamMembers := InitialTeamMembers;
      currentUser := User("", "");
    }

    /** The mount effect. Without a roster entry the store is seeded with the
        fixture roster and the page keeps it; with one, the page shows the
        stored roster. Returns false where `JSON.parse` throws, which ends the
        effect. */
    method Mount() returns (ok: bool)
      modifies this, store
      ensures ok <==> !ReadUser(old(store.entries)).Unparsable? && !ReadMembers(old(store.entries)).Unparsable?
      ensures currentUser ==
                if ReadUser(old(store.entries)).Parsed? then ReadUser(old(store.entries)).value else old(currentUser)
      ensures ok && ReadMembers(old(store.entries)).Absent? ==>
                store.entries == old(store.entries)[MembersKey := MemberList(InitialTeamMembers)] &&
                teamMembers == old(teamMembers)
      ensures ok && ReadMembers(old(store.entries)).Parsed? ==>
                teamMembers == ReadMembers(old(store.entries)).value && store.entries == old(store.entries)
      ensures !ok ==> teamMembers == old(teamMembers) && store.entries == old(store.entries)
      ensures searchQuery == old(searchQuery)
    {
      var userData := ReadUser(store.entries);
      if userData.Unparsable? {
        return false;
      }
      if userData.Parsed? {
        currentUser := userData.value;
      }
      var membersData := ReadMembers(store.entries);
      match membersData {
        case Unparsable =>
          return false;
        case Parsed(members) =>
          teamMembers := members;
        case Absent =>
          store.SetItem(MembersKey, MemberList(InitialTeamMembers));
      }
      return true;
    }

    /** `addTeamMember`: the member is appended to the page's roster and the
        whole roster is written back, so the store then holds what the page
        shows. */
    method AddTeamMember(newMember: Member)
      modifies this, store
      ensures teamMembers == old(teamMembers) + [newMember]
      ensures store.entries == old(store.entries)[MembersKey := MemberList(teamMembers)]
      ensures ReadMembers(store.entries) == Parsed(teamMembers)
      ensures searchQuery == old(searchQuery) && currentUser == old(currentUser)
    {
      teamMembers := teamMembers + [newMember];
      store.SetItem(MembersKey, MemberList(teamMembers));
    }

    /** The cards the page shows: exactly the members the query matches, each
        as often as in the roster, in roster order. */
    function FilteredMembers(): (r: seq<Member>)
      reads this
      ensures forall m :: m in r <==> m in teamMembers && MatchesQuery(m, searchQuery)
      ensures forall m :: multiset(r)[m] == if MatchesQuery(m, searchQuery) then multiset(teamMembers)[m] else 0
      ensures IsSubsequence(r, teamMembers)
    {
      FilterMembersSpec(teamMembers, searchQuery);
      FilterMembers(teamMembers, searchQuery)
    }
  }
}
