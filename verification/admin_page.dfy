/** The admin users page: the search/status filter over the user list, the
    status toggle, and the capitalised labels. */
module AdminPage {
  import opened Wrappers
  import opened Strings
  import opened Seqs
  import opened AdminTypes
  import AdminHook

  const AllStatuses := "all"

  /** The search box: the query in the lower-cased first name, or the raw query in the phone. */
  predicate MatchesSearch(u: User, query: string) {
    Contains(Lower(u.firstName), Lower(query)) || Contains(u.phone, query)
  }

  /** The status select: "all", or the status's own spelling. */
  predicate MatchesStatus(u: User, filter: string) {
    filter == AllStatuses || StatusName(u.status) == filter
  }

  predicate Kept(u: User, query: string, filter: string) {
    MatchesSearch(u, query) && MatchesStatus(u, filter)
  }

  /** `users.filter(...)`: the kept users, in list order, each as many times as it occurs. */
  function FilterUsers(users: seq<User>, query: string, filter: string): (r: seq<User>)
    ensures IsSubsequence(r, users)
    ensures forall u :: u in r ==> Kept(u, query, filter)
    ensures forall u :: Kept(u, query, filter) ==> multiset(r)[u] == multiset(users)[u]
  {
    Filter(u => Kept(u, query, filter), users)
  }

  /** `filteredUsers`: nothing before the list has loaded or without `users`. */
  function FilteredUsers(data: Option<UsersResponse>, query: string, filter: string): (r: seq<User>)
    ensures data.None? || data.value.users.None? ==> r == []
    ensures data.Some? && data.value.users.Some? ==> IsSubsequence(r, data.value.users.value)
    ensures forall u :: u in r ==> Kept(u, query, filter)
    ensures data.Some? && data.value.users.Some? ==>
              forall u :: Kept(u, query, filter) ==> multiset(r)[u] == multiset(data.value.users.value)[u]
  {
    if data.None? || data.value.users.None? then [] else FilterUsers(data.value.users.value, query, filter)
  }

  /** A user appears in the filtered list exactly when it is in the list and passes both tests. */
  lemma FilteredMembership(users: seq<User>, query: string, filter: string, u: User)
    ensures u in FilterUsers(users, query, filter) <==> u in users && MatchesSearch(u, query) && MatchesStatus(u, filter)
  {
    var r := FilterUsers(users, query, filter);
    assert u in r <==> multiset(r)[u] > 0;
    assert u in users <==> multiset(users)[u] > 0;
  }

  /** An empty search with "all" shows the whole list. */
  lemma EmptySearchShowsAll(users: seq<User>)
    ensures FilterUsers(users, "", AllStatuses) == users
  {
    assert Lower("") == "";
    forall i | 0 <= i < |users|
      ensures Kept(users[i], "", AllStatuses)
    {
      ContainsEmpty(Lower(users[i].firstName));
    }
    FilterKeepsAll(u => Kept(u, "", AllStatuses), users);
  }

  /** Phone matching is case-sensitive: a user whose phone holds the query
      only once both are lowered, and whose name does not, is filtered out. */
  lemma PhoneMatchIsCaseSensitive()
    ensures var u := User("1", "Zed", "AB12", Active, Customer, "");
            && Contains(Lower(u.phone), Lower("ab"))
            && !Kept(u, "ab", AllStatuses)
  {
    assert Lower("AB12") == "ab12";
    assert Lower("Zed") == "zed" && Lower("ab") == "ab";
    assert "ab" <= "ab12";
    assert !Contains("zed", "ab") by {
      assert !Contains("d", "ab") by { assert "d"[1..] == []; assert !Contains([], "ab"); }
      assert !Contains("ed", "ab") by { assert "ed"[0] != 'a'; assert "ed"[1..] == "d"; }
      assert "zed"[0] != 'a' && "zed"[1..] == "ed";
    }
    assert !Contains("AB12", "ab") by {
      assert !Contains("2", "ab") by { assert "2"[1..] == []; assert !Contains([], "ab"); }
      assert !Contains("12", "ab") by { assert "12"[0] != 'a'; assert "12"[1..] == "2"; }
      assert !Contains("B12", "ab") by { assert "B12"[0] != 'a'; assert "B12"[1..] == "12"; }
      assert "AB12"[0] != 'a' && "AB12"[1..] == "B12";
    }
  }

  /** `handleStatusChange`: active becomes suspended, anything else becomes active. */
  function Toggle(s: UserStatus): (r: UserStatus)
    ensures r != s
    ensures r != Inactive
    ensures s == Active <==> r == Suspended
  {
    if s == Active then Suspended else Active
  }

  /** Toggling twice restores an active or suspended user; an inactive one ends up suspended. */
  lemma ToggleTwice(s: UserStatus)
    ensures s != Inactive ==> Toggle(Toggle(s)) == s
    ensures s == Inactive ==> Toggle(Toggle(s)) == Suspended
  {
  }

  /** The mutation variables the toggle button sends. */
  function HandleStatusChange(u: User): (v: AdminHook.StatusChange)
    ensures v.userId == u.id
    ensures v.newStatus != u.status && v.newStatus != Inactive
    ensures v.newStatus == Suspended <==> u.status == Active
    ensures v.newStatus == Active <==> u.status != Active
  {
    AdminHook.StatusChange(u.id, Toggle(u.status))
  }

  /** `s.charAt(0).toUpperCase() + s.slice(1)`. */
  function Capitalize(s: string): (r: string)
    ensures |r| == |s|
    ensures s != [] ==> r[0] == UpperChar(s[0]) && r[1..] == s[1..]
  {
    if s == [] then [] else [UpperChar(s[0])] + s[1..]
  }

  /** The status badge text. */
  function StatusLabel(s: UserStatus): string {
    Capitalize(StatusName(s))
  }

  /** The role badge text. */
  function RoleLabel(r: Role): string {
    Capitalize(RoleName(r))
  }

  /** Capitalising a lower-case word is undone by lowering it. */
  lemma CapitalizeLowerRoundTrip(s: string)
    requires forall i :: 0 <= i < |s| ==> !IsAsciiUpper(s[i])
    ensures Lower(Capitalize(s)) == s
  {
    var r := Capitalize(s);
    if s != [] {
      if IsAsciiLower(s[0]) {
        assert LowerChar(r[0]) == s[0];
      } else {
        assert r[0] == s[0];
      }
      assert forall i :: 1 <= i < |s| ==> Lower(r)[i] == LowerChar(s[i]) == s[i];
    }
  }

  /** The badges read "Active", "Inactive", "Suspended", "Customer", "Admin", "Superadmin". */
  lemma Labels()
    ensures StatusLabel(Active) == "Active" && StatusLabel(Inactive) == "Inactive" && StatusLabel(Suspended) == "Suspended"
    ensures RoleLabel(Customer) == "Customer" && RoleLabel(Admin) == "Admin" && RoleLabel(Superadmin) == "Superadmin"
  {
  }

  /** Lowering a status badge gives back the status's spelling, so distinct statuses get distinct badges. */
  lemma StatusLabelLowersToName(s: UserStatus)
    ensures Lower(StatusLabel(s)) == StatusName(s)
  {
    CapitalizeLowerRoundTrip(StatusName(s));
  }
}
