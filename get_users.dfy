/** `GetUsersQueryHandler`: the current tenant's users, optionally narrowed by a case-insensitive
    search and by activity, one page at a time. */
module UserQueries {
  import opened Wrappers
  import opened Common
  import opened Text
  import opened Sequences
  import opened DomainUser

  /** `GetUsersQuery`: page numbers count from 1. */
  datatype GetUsersQuery = GetUsersQuery(pageNumber: int, pageSize: int, searchTerm: Option<string>, isActive: Option<bool>)

  /** A query with every property at its default. */
  const DefaultQuery := GetUsersQuery(1, 25, None, None)

  // ---------------------------------------------------------------- filters

  predicate InTenant(u: UserState, tenantId: Guid) {
    u.tenantId == tenantId
  }

  /** One of the four names contains the term, both lower-cased. */
  predicate MatchesSearch(u: UserState, term: string) {
    var t := AsciiLower(term);
    Contains(AsciiLower(u.firstName), t) || Contains(AsciiLower(u.lastName), t) ||
    Contains(AsciiLower(u.email), t) || Contains(AsciiLower(u.displayName), t)
  }

  /** The search step: no filter for a null or empty term. */
  function SearchFilter(users: seq<UserState>, term: Option<string>): (r: seq<UserState>)
    ensures IsNullOrEmpty(term) ==> r == users
    ensures !IsNullOrEmpty(term) ==> forall k :: 0 <= k < |r| ==> MatchesSearch(r[k], term.value)
    ensures forall u :: u in users && (IsNullOrEmpty(term) || MatchesSearch(u, term.value)) ==> u in r
    ensures IsSubsequence(r, users)
  {
    if IsNullOrEmpty(term) then
      SubsequenceReflexive(users);
      users
    else
      FilterIsSubsequence((u: UserState) => MatchesSearch(u, term.value), users);
      Filter((u: UserState) => MatchesSearch(u, term.value), users)
  }

  /** The activity step: no filter when `IsActive` is unset. */
  function ActiveFilter(users: seq<UserState>, isActive: Option<bool>): (r: seq<UserState>)
    ensures isActive.None? ==> r == users
    ensures isActive.Some? ==> forall k :: 0 <= k < |r| ==> r[k].isActive == isActive.value
    ensures forall u :: u in users && (isActive.None? || u.isActive == isActive.value) ==> u in r
    ensures IsSubsequence(r, users)
  {
    if isActive.None? then
      SubsequenceReflexive(users);
      users
    else
      FilterIsSubsequence((u: UserState) => u.isActive == isActive.value, users);
      Filter((u: UserState) => u.isActive == isActive.value, users)
  }

  function TenantFilter(users: seq<UserState>, tenantId: Guid): (r: seq<UserState>)
    ensures forall k :: 0 <= k < |r| ==> InTenant(r[k], tenantId)
    ensures forall u :: u in users && InTenant(u, tenantId) ==> u in r
    ensures IsSubsequence(r, users)
  {
    FilterIsSubsequence((u: UserState) => InTenant(u, tenantId), users);
    Filter((u: UserState) => InTenant(u, tenantId), users)
  }

  /** What the three `Where` steps keep: the tenant's users that match the term when one is
      given and have the activity when one is given. */
  predicate Selected(u: UserState, tenantId: Guid, q: GetUsersQuery) {
    InTenant(u, tenantId) &&
    (IsNullOrEmpty(q.searchTerm) || MatchesSearch(u, q.searchTerm.value)) &&
    (q.isActive.None? || u.isActive == q.isActive.value)
  }

  /** The three `Where` steps, in the handler's order: exactly the selected users, in table order. */
  function Filtered(users: seq<UserState>, tenantId: Guid, q: GetUsersQuery): (r: seq<UserState>)
    ensures forall u :: u in r <==> u in users && Selected(u, tenantId, q)
    ensures IsSubsequence(r, users)
  {
    var tenantUsers := TenantFilter(users, tenantId);
    var searched := SearchFilter(tenantUsers, q.searchTerm);
    var r := ActiveFilter(searched, q.isActive);
    SubsequenceTransitive(searched, tenantUsers, users);
    SubsequenceTransitive(r, searched, users);
    assert forall u :: u in r ==> u in users && Selected(u, tenantId, q) by {
      forall u | u in r
        ensures u in users && Selected(u, tenantId, q)
      {
        SubsequenceMembers(r, searched, u);
        SubsequenceMembers(searched, tenantUsers, u);
        SubsequenceMembers(tenantUsers, users, u);
      }
    }
    r
  }

  // ---------------------------------------------------------------- pagination

  const Int32Modulus: int := 0x1_0000_0000

  predicate IsInt32(x: int) {
    -0x8000_0000 <= x < 0x8000_0000
  }

  /** Unchecked 32-bit two's-complement arithmetic: the `int` congruent to `x` in range. */
  function WrapInt32(x: int): (r: int)
    ensures IsInt32(r) && (x - r) % Int32Modulus == 0
    ensures IsInt32(x) ==> r == x
  {
    var m := x % Int32Modulus;
    if m >= 0x8000_0000 then m - Int32Modulus else m
  }

  /** The offset the pagination evidently means: the exact product. */
  function PageOffset(q: GetUsersQuery): int {
    (q.pageNumber - 1) * q.pageSize
  }

  /** `(PageNumber - 1) * PageSize` as written: both steps are unchecked `int` arithmetic, so the
      result is an `int` congruent to the exact offset modulo 2^32. */
  function OffsetAsWritten(q: GetUsersQuery): (r: int)
    requires IsInt32(q.pageNumber) && IsInt32(q.pageSize)
    ensures IsInt32(r) && (r - PageOffset(q)) % Int32Modulus == 0
  {
    var w := WrapInt32(q.pageNumber - 1);
    var k := (q.pageNumber - 1 - w) / Int32Modulus;
    assert q.pageNumber - 1 == w + Int32Modulus * k;
    assert w * q.pageSize - PageOffset(q) == Int32Modulus * (-k * q.pageSize);
    WrapInt32(w * q.pageSize)
  }

  /** `Skip(offset).Take(PageSize)`. */
  function PageAt(users: seq<UserState>, offset: int, size: int): (r: seq<UserState>)
    ensures |r| <= |users| && (size > 0 ==> |r| <= size) && (size <= 0 ==> r == [])
    ensures IsSubsequence(r, users)
  {
    SkipIsSubsequence(users, offset);
    TakeIsSubsequence(Skip(users, offset), size);
    SubsequenceTransitive(Take(Skip(users, offset), size), Skip(users, offset), users);
    Take(Skip(users, offset), size)
  }

  /** Where the overflow does not happen, the offset as written is the exact one. */
  lemma OffsetAsWrittenAgrees(q: GetUsersQuery)
    requires IsInt32(q.pageNumber) && IsInt32(q.pageSize)
    requires IsInt32(q.pageNumber - 1) && IsInt32(PageOffset(q))
    ensures OffsetAsWritten(q) == PageOffset(q)
  {
  }

  /** The offset as written wraps: page 0x4000_0001 of size 4 starts at 2^32, which wraps to 0,
      so the query returns the first page instead of an empty one. */
  lemma OffsetAsWrittenWraps(users: seq<UserState>)
    requires 0 < |users| < Int32Modulus
    ensures var q := GetUsersQuery(0x4000_0001, 4, None, None);
      && OffsetAsWritten(q) == 0 && PageOffset(q) == Int32Modulus
      && PageAt(users, OffsetAsWritten(q), q.pageSize) == PageAt(users, 0, 4) != []
      && PageAt(users, PageOffset(q), q.pageSize) == []
  {
  }

  /** The page as a slice: from the offset, cut at the end of the sequence, at most `PageSize` long. */
  function PageStart(n: nat, q: GetUsersQuery): nat
    requires q.pageNumber >= 1 && q.pageSize > 0
  {
    if PageOffset(q) <= n then PageOffset(q) else n
  }

  function PageEnd(n: nat, q: GetUsersQuery): nat
    requires q.pageNumber >= 1 && q.pageSize > 0
  {
    if PageOffset(q) + q.pageSize <= n then PageOffset(q) + q.pageSize else n
  }

  lemma PageIsSlice(users: seq<UserState>, q: GetUsersQuery)
    requires q.pageNumber >= 1 && q.pageSize > 0
    ensures PageStart(|users|, q) <= PageEnd(|users|, q) <= |users|
    ensures PageAt(users, PageOffset(q), q.pageSize) == users[PageStart(|users|, q)..PageEnd(|users|, q)]
  {
    assert PageOffset(q) >= 0 by {
      assert q.pageNumber - 1 >= 0;
    }
    SkipTakeIsSlice(users, PageOffset(q), q.pageSize);
  }

  /** A page number below 1 skips nothing: the query returns the first `PageSize` users. */
  lemma PageBeforeFirst(users: seq<UserState>, q: GetUsersQuery)
    requires q.pageNumber < 1
    ensures PageAt(users, PageOffset(q), q.pageSize) == Take(users, q.pageSize)
  {
    if q.pageSize >= 0 {
      assert PageOffset(q) <= 0 by {
        assert q.pageNumber - 1 < 0;
      }
    }
  }

  /** For a fixed order, a later page starts where an earlier one has already ended. */
  lemma PagesAreDisjoint(n: nat, q1: GetUsersQuery, q2: GetUsersQuery)
    requires 1 <= q1.pageNumber < q2.pageNumber && q1.pageSize == q2.pageSize > 0
    ensures PageEnd(n, q1) <= PageStart(n, q2)
  {
    var s := q1.pageSize;
    assert PageOffset(q1) + s == q1.pageNumber * s;
    assert q1.pageNumber * s <= (q2.pageNumber - 1) * s by {
      assert q1.pageNumber <= q2.pageNumber - 1;
    }
  }

  // ---------------------------------------------------------------- Handle

  /** `Handle`, given the `Users` table and what reading `TenantId` yields (the read throws with
      no tenant context). Pages use the exact offset. */
  function GetUsers(users: seq<UserState>, tenant: Result<Guid, Error>, q: GetUsersQuery): (r: Result<seq<UserState>, Error>)
    ensures tenant.Failure? ==> r == Failure(tenant.error)
    ensures tenant.Success? ==> r.Success?
    ensures tenant.Success? && q.pageNumber >= 1 && q.pageSize > 0 ==>
              var f := Filtered(users, tenant.value, q);
              r.value == f[PageStart(|f|, q)..PageEnd(|f|, q)]
    ensures tenant.Success? && q.pageNumber < 1 ==> r.value == Take(Filtered(users, tenant.value, q), q.pageSize)
    ensures tenant.Success? && q.pageSize <= 0 ==> r.value == []
  {
    if tenant.Failure? then Failure(tenant.error)
    else
      var f := Filtered(users, tenant.value, q);
      var page := PageAt(f, PageOffset(q), q.pageSize);
      if q.pageNumber >= 1 && q.pageSize > 0 then PageIsSlice(f, q); Success(page)
      else if q.pageNumber < 1 then PageBeforeFirst(f, q); Success(page)
      else Success(page)
  }

  /** No tenant context, no result. */
  lemma GetUsersNeedsTenant(users: seq<UserState>, q: GetUsersQuery)
    ensures GetUsers(users, Failure(NoTenantContext), q) == Failure(NoTenantContext)
  {
  }

  /** Every user returned belongs to the current tenant, matches the search term when one is
      given, and has the requested activity when one is given; there are at most `PageSize` of
      them, and they appear in table order. */
  lemma GetUsersResult(users: seq<UserState>, tenantId: Guid, q: GetUsersQuery)
    ensures var r := GetUsers(users, Success(tenantId), q).value;
      && (forall u :: u in r ==> InTenant(u, tenantId))
      && (!IsNullOrEmpty(q.searchTerm) ==> forall u :: u in r ==> MatchesSearch(u, q.searchTerm.value))
      && (q.isActive.Some? ==> forall u :: u in r ==> u.isActive == q.isActive.value)
      && |r| <= (if q.pageSize > 0 then q.pageSize else 0)
      && IsSubsequence(r, users)
  {
    var tenantUsers := TenantFilter(users, tenantId);
    var searched := SearchFilter(tenantUsers, q.searchTerm);
    var filtered := ActiveFilter(searched, q.isActive);
    var r := PageAt(filtered, PageOffset(q), q.pageSize);
    SubsequenceTransitive(searched, tenantUsers, users);
    SubsequenceTransitive(filtered, searched, users);
    SubsequenceTransitive(r, filtered, users);
    forall u | u in r
      ensures InTenant(u, tenantId)
      ensures !IsNullOrEmpty(q.searchTerm) ==> MatchesSearch(u, q.searchTerm.value)
      ensures q.isActive.Some? ==> u.isActive == q.isActive.value
    {
      SubsequenceMembers(r, filtered, u);
      SubsequenceMembers(filtered, searched, u);
      SubsequenceMembers(searched, tenantUsers, u);
    }
  }

  /** With the default query (no search, no activity filter, page 1 of 25), a tenant with at
      most 25 users gets all of them, in table order. */
  lemma DefaultQueryFirstPage(users: seq<UserState>, tenantId: Guid)
    requires |TenantFilter(users, tenantId)| <= 25
    ensures GetUsers(users, Success(tenantId), DefaultQuery) == Success(TenantFilter(users, tenantId))
  {
  }

  /** An element of a subsequence is an element of the sequence. */
  lemma {:induction false} SubsequenceMembers<T>(a: seq<T>, b: seq<T>, x: T)
    requires IsSubsequence(a, b) && x in a
    ensures x in b
    decreases |b|
  {
    if a[0] == b[0] && IsSubsequence(a[1..], b[1..]) {
      if x != a[0] {
        SubsequenceMembers(a[1..], b[1..], x);
      }
    } else {
      SubsequenceMembers(a, b[1..], x);
    }
  }
}
