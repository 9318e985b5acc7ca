/** The admin's dashboard (`src/components/admin/AdminDashboard.jsx`): counts
    of the users and customers who joined this month, the number of
    customers, and the users table, newest first, five rows at a time until
    "Show More" is pressed. */
module AdminDashboard {
  import opened JsValues
  import opened Seqs
  import opened Dates

  /** The table's first page, and the page it returns to on "Show Less". */
  const PageSize: nat := 5

  /** `user.role === "customer"`. */
  predicate IsCustomer(u: Record)
  {
    Get(u, "role") == Str("customer")
  }

  /** `new Date(user.created_at)` falls in month `ym`; `created` stands for
      the parse. */
  function JoinedIn(created: Record -> DateTime, ym: YearMonth): Record -> bool
  {
    (u: Record) => MonthOf(created(u)) == ym
  }

  /** A customer who joined in month `ym`. */
  function CustomerJoinedIn(created: Record -> DateTime, ym: YearMonth): Record -> bool
  {
    (u: Record) => IsCustomer(u) && MonthOf(created(u)) == ym
  }

  /** `newUsers.length`. */
  function NewUsers(users: seq<Record>, created: Record -> DateTime, ym: YearMonth): nat
  {
    Count(users, JoinedIn(created, ym))
  }

  /** `newCustomers.length`. */
  function NewCustomers(users: seq<Record>, created: Record -> DateTime, ym: YearMonth): nat
  {
    Count(users, CustomerJoinedIn(created, ym))
  }

  /** `customers.length`. */
  function TotalCustomers(users: seq<Record>): nat
  {
    Count(users, IsCustomer)
  }

  /** New customers are among the new users and among the customers. */
  lemma {:induction false} NewCustomersBounded(users: seq<Record>, created: Record -> DateTime, ym: YearMonth)
    ensures NewCustomers(users, created, ym) <= NewUsers(users, created, ym)
    ensures NewCustomers(users, created, ym) <= TotalCustomers(users)
  {
    if users != [] {
      assert users == [users[0]] + users[1..];
      NewCustomersBounded(users[1..], created, ym);
      CountConcat([users[0]], users[1..], JoinedIn(created, ym));
      CountConcat([users[0]], users[1..], CustomerJoinedIn(created, ym));
      CountConcat([users[0]], users[1..], IsCustomer);
    }
  }

  /** A user joins in one month only: two different months never both
      count the same user. */
  lemma {:induction false} NewUsersOfTwoMonths(users: seq<Record>, created: Record -> DateTime, a: YearMonth, b: YearMonth)
    requires a != b
    ensures NewUsers(users, created, a) + NewUsers(users, created, b) <= |users|
  {
    if users != [] {
      assert users == [users[0]] + users[1..];
      NewUsersOfTwoMonths(users[1..], created, a, b);
      CountConcat([users[0]], users[1..], JoinedIn(created, a));
      CountConcat([users[0]], users[1..], JoinedIn(created, b));
    }
  }

  /** The three cards. */
  datatype Stats = Stats(newUsers: nat, newCustomers: nat, totalCustomers: nat)

  /** What the effect on `[users]` computes for the month of `now`. */
  function StatsOf(users: seq<Record>, created: Record -> DateTime, now: DateTime): (s: Stats)
    ensures s.newCustomers <= s.newUsers <= |users|
    ensures s.newCustomers <= s.totalCustomers <= |users|
  {
    NewCustomersBounded(users, created, MonthOf(now));
    Stats(NewUsers(users, created, MonthOf(now)), NewCustomers(users, created, MonthOf(now)), TotalCustomers(users))
  }

  /** The cards start at zero; a further user adds one to the new users
      exactly when it joined in the month of `now`, one to the new customers
      exactly when it is also a customer, and one to the customers exactly
      when it is a customer. */
  lemma {:induction false} StatsStep(users: seq<Record>, u: Record, created: Record -> DateTime, now: DateTime)
    ensures StatsOf([], created, now) == Stats(0, 0, 0)
    ensures StatsOf(users + [u], created, now).newUsers ==
              StatsOf(users, created, now).newUsers + (if MonthOf(created(u)) == MonthOf(now) then 1 else 0)
    ensures StatsOf(users + [u], created, now).newCustomers ==
              StatsOf(users, created, now).newCustomers + (if IsCustomer(u) && MonthOf(created(u)) == MonthOf(now) then 1 else 0)
    ensures StatsOf(users + [u], created, now).totalCustomers ==
              StatsOf(users, created, now).totalCustomers + (if IsCustomer(u) then 1 else 0)
  {
    var ym := MonthOf(now);
    assert [u][1..] == [];
    CountConcat(users, [u], JoinedIn(created, ym));
    CountConcat(users, [u], CustomerJoinedIn(created, ym));
    CountConcat(users, [u], IsCustomer);
  }

  /** The sort key of `(a, b) => new Date(b.created_at) - new Date(a.created_at)`. */
  function NewestFirst(created: Record -> DateTime): Record -> int
  {
    (u: Record) => -Ordinal(created(u))
  }

  /** `users.slice().sort(newest first)`: a sorted copy; the store's list is
      not touched. */
  function SortedUsers(users: seq<Record>, created: Record -> DateTime): (r: seq<Record>)
    ensures multiset(r) == multiset(users) && |r| == |users|
    ensures forall i, j :: 0 <= i < j < |r| ==> Ordinal(created(r[j])) <= Ordinal(created(r[i]))
  {
    var r := SortBy(users, NewestFirst(created));
    assert forall i, j :: 0 <= i < j < |r| ==> NewestFirst(created)(r[i]) <= NewestFirst(created)(r[j]);
    r
  }

  /** The page's state. */
  class Dashboard {
    var newUsersThisMonth: nat
    var newCustomersThisMonth: nat
    var totalCustomers: nat
    var visibleUsers: nat
    var showMore: bool

    constructor()
      ensures Numbers() == Stats(0, 0, 0)
      ensures visibleUsers == PageSize && !showMore
    {
      newUsersThisMonth, newCustomersThisMonth, totalCustomers := 0, 0, 0;
      visibleUsers, showMore := PageSize, false;
    }

    /** The three numbers on the cards. */
    function Numbers(): Stats
      reads this
    {
      Stats(newUsersThisMonth, newCustomersThisMonth, totalCustomers)
    }

    /** The rows of the users table: `sortedUsers.slice(0, visibleUsers)`. */
    function Table(users: seq<Record>, created: Record -> DateTime): (r: seq<Record>)
      reads this
      ensures |r| == if visibleUsers < |users| then visibleUsers else |users|
      ensures r <= SortedUsers(users, created)
    {
      Prefix(SortedUsers(users, created), visibleUsers)
    }

    /** The effect on `[users]`: a non-empty list sets the three cards for
        the month of `now`; an empty list leaves them as they were. */
    method OnUsers(users: seq<Record>, created: Record -> DateTime, now: DateTime)
      modifies this
      ensures users != [] ==> Numbers() == StatsOf(users, created, now)
      ensures users == [] ==> Numbers() == old(Numbers())
      ensures visibleUsers == old(visibleUsers) && showMore == old(showMore)
    {
      if users != [] {
        SetStats(StatsOf(users, created, now));
      }
    }

    /** The three `set…` calls of the effect. */
    method SetStats(s: Stats)
      modifies this
      ensures Numbers() == s
      ensures visibleUsers == old(visibleUsers) && showMore == old(showMore)
    {
      newUsersThisMonth, newCustomersThisMonth, totalCustomers := s.newUsers, s.newCustomers, s.totalCustomers;
    }

    /** `toggleShowMore`: "Show More" shows every user there is now, "Show
        Less" goes back to five. */
    method ToggleShowMore(users: seq<Record>)
      modifies this
      ensures showMore == !old(showMore)
      ensures visibleUsers == if old(showMore) then PageSize else |users|
      ensures Numbers() == old(Numbers())
    {
      if showMore {
        visibleUsers := PageSize;
      } else {
        visibleUsers := |users|;
      }
      showMore := !showMore;
    }
  }

  /** After "Show More" the table holds every user, newest first. */
  lemma ShowMoreShowsAll(users: seq<Record>, created: Record -> DateTime)
    ensures Prefix(SortedUsers(users, created), |users|) == SortedUsers(users, created)
    ensures multiset(Prefix(SortedUsers(users, created), |users|)) == multiset(users)
  {
  }
}
