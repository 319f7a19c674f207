/** `filterAdmins` of src/pages/AdminsPage/AdminsPageConstants.js: the
    search box over the admins table. */
module AdminsFilter {
  import opened Text

  /** The fields of an admin the search looks at; `id` is
      `admin.id.toString()`. */
  datatype AdminRow = AdminRow(id: string, fullname: string, username: string, phone: string, birthDate: string)

  /** The query as it is compared: lower-cased, then trimmed. */
  function Normalize(searchQuery: string): string {
    Trim(ToLower(searchQuery))
  }

  /** An admin matches a normalized query by exact id, by name or username
      ignoring case, or by a piece of the phone or of the birth date. */
  predicate Matches(a: AdminRow, q: string) {
    || a.id == q
    || Contains(ToLower(a.fullname), q)
    || Contains(ToLower(a.username), q)
    || Contains(a.phone, q)
    || Contains(a.birthDate, q)
  }

  /** `admins.filter(...)`: the matching admins in their original order. */
  function Keep(admins: seq<AdminRow>, q: string): (kept: seq<AdminRow>)
    ensures |kept| <= |admins|
    ensures forall a :: a in kept <==> a in admins && Matches(a, q)
    ensures forall a :: multiset(kept)[a] == if Matches(a, q) then multiset(admins)[a] else 0
  {
    if admins == [] then []
    else
      assert admins == [admins[0]] + admins[1..];
      (if Matches(admins[0], q) then [admins[0]] else []) + Keep(admins[1..], q)
  }

  function FilterAdmins(admins: seq<AdminRow>, searchQuery: string): (r: seq<AdminRow>)
    ensures Trim(searchQuery) == "" ==> r == admins
    ensures Trim(searchQuery) != "" ==>
              forall a :: a in r <==> a in admins && Matches(a, Normalize(searchQuery))
  {
    if Trim(searchQuery) == "" then admins else Keep(admins, Normalize(searchQuery))
  }

  /** `xs` is `ys` with some elements left out, the rest in order. */
  predicate IsSublist(xs: seq<AdminRow>, ys: seq<AdminRow>)
    decreases |ys|
  {
    xs == [] || (ys != [] && ((xs[0] == ys[0] && IsSublist(xs[1..], ys[1..])) || IsSublist(xs, ys[1..])))
  }

  lemma {:induction false} KeepIsSublist(admins: seq<AdminRow>, q: string)
    ensures IsSublist(Keep(admins, q), admins)
  {
    if admins != [] {
      KeepIsSublist(admins[1..], q);
      var kept := Keep(admins, q);
      if Matches(admins[0], q) {
        assert kept[0] == admins[0] && kept[1..] == Keep(admins[1..], q);
      } else {
        assert kept == Keep(admins[1..], q);
      }
    }
  }

  /** The result is always an order-preserving sub-list of the input. */
  lemma FilterIsSublist(admins: seq<AdminRow>, searchQuery: string)
    ensures IsSublist(FilterAdmins(admins, searchQuery), admins)
  {
    if Trim(searchQuery) == "" {
      SublistRefl(admins);
    } else {
      KeepIsSublist(admins, Normalize(searchQuery));
    }
  }

  lemma {:induction false} SublistRefl(xs: seq<AdminRow>)
    ensures IsSublist(xs, xs)
  {
    if xs != [] {
      SublistRefl(xs[1..]);
    }
  }

  lemma {:induction false} KeepIdempotent(admins: seq<AdminRow>, q: string)
    ensures Keep(Keep(admins, q), q) == Keep(admins, q)
  {
    if admins != [] {
      KeepIdempotent(admins[1..], q);
      var kept := Keep(admins, q);
      if Matches(admins[0], q) {
        assert kept[0] == admins[0] && kept[1..] == Keep(admins[1..], q);
        assert Keep(kept, q) == [kept[0]] + Keep(kept[1..], q);
      } else {
        assert kept == Keep(admins[1..], q);
      }
    }
  }

  /** Searching the result again with the same query changes nothing. */
  lemma FilterIdempotent(admins: seq<AdminRow>, searchQuery: string)
    ensures FilterAdmins(FilterAdmins(admins, searchQuery), searchQuery) == FilterAdmins(admins, searchQuery)
  {
    if Trim(searchQuery) != "" {
      KeepIdempotent(admins, Normalize(searchQuery));
    }
  }

  /** A query is blank exactly when its normalized form is empty. */
  lemma BlankIffNormalizedEmpty(searchQuery: string)
    ensures Trim(searchQuery) == "" <==> Normalize(searchQuery) == ""
  {
    TrimToLower(searchQuery);
  }

  /** Two queries with the same normalized form, e.g. differing only in
      letter case or in surrounding whitespace, give the same result. */
  lemma SameNormalFormSameResult(admins: seq<AdminRow>, q1: string, q2: string)
    requires Normalize(q1) == Normalize(q2)
    ensures FilterAdmins(admins, q1) == FilterAdmins(admins, q2)
  {
    BlankIffNormalizedEmpty(q1);
    BlankIffNormalizedEmpty(q2);
  }

  /** Letter case in the query does not matter. */
  lemma CaseInsensitive(admins: seq<AdminRow>, searchQuery: string)
    ensures FilterAdmins(admins, ToLower(searchQuery)) == FilterAdmins(admins, searchQuery)
  {
    ToLowerIdempotent(searchQuery);
    SameNormalFormSameResult(admins, ToLower(searchQuery), searchQuery);
  }

  /** The id is compared whole: an admin none of whose other fields
      contains the query is found exactly when its id equals the query. */
  lemma IdIsExact(a: AdminRow, q: string)
    requires !Contains(ToLower(a.fullname), q) && !Contains(ToLower(a.username), q)
    requires !Contains(a.phone, q) && !Contains(a.birthDate, q)
    ensures Matches(a, q) <==> a.id == q
  {
  }

  /** An admin with id "12" and no other text is not found by the query
      "1", though "12" contains it. */
  lemma IdPrefixIsNotFound()
    ensures Contains("12", "1")
    ensures !Matches(AdminRow("12", "", "", "", ""), "1")
    ensures Matches(AdminRow("12", "", "", "", ""), "12")
  {
    assert "1" <= "12"[0..];
  }
}
