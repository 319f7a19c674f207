/** The route-dependent part of the page header in
    src/components/layout/Layout.jsx: a back button on an admin's detail
    page, a title everywhere else. Titles are translation keys. */
module Layout {

  const AdminPrefix := "/admin/"
  const GenericTitle := "Qomar Qur'on Markazi"

  /** `/^\/admin\/[^/]+$/`: "/admin/" followed by one non-empty segment
      with no further slash. */
  predicate IsAdminDetailPage(path: string) {
    AdminPrefix <= path && |path| > |AdminPrefix| && '/' !in path[|AdminPrefix|..]
  }

  /** The title key, first match wins. */
  function PageTitle(path: string): (title: string)
    ensures path == "/" ==> title == "Dashboard"
    ensures path == "/admins" ==> title == "Admins"
    ensures AdminPrefix <= path ==> title == "Admin Details"
    ensures path != "/" && path != "/admins" && !(AdminPrefix <= path) ==> title == GenericTitle
  {
    if path == "/" then "Dashboard"
    else if path == "/admins" then assert path[6] != AdminPrefix[6]; "Admins"
    else if AdminPrefix <= path then "Admin Details"
    else GenericTitle
  }

  datatype Header = BackButton | Title(key: string)

  /** The left side of the header. */
  function HeaderFor(path: string): (h: Header)
    ensures h == BackButton <==> IsAdminDetailPage(path)
    ensures h.Title? ==> h.key == PageTitle(path)
  {
    if IsAdminDetailPage(path) then BackButton else Title(PageTitle(path))
  }

  /** The back button shows exactly on "/admin/" plus one non-empty segment
      without a slash. */
  lemma DetailPageIsOneSegment(path: string, segment: string)
    requires path == AdminPrefix + segment
    ensures IsAdminDetailPage(path) <==> segment != "" && '/' !in segment
  {
    assert path[|AdminPrefix|..] == segment;
  }

  /** Only paths beginning "/admin/" can be detail pages. */
  lemma DetailPageHasPrefix(path: string)
    requires !(AdminPrefix <= path)
    ensures HeaderFor(path) == Title(PageTitle(path))
  {
  }

  /** "/admins" is not caught by the "/admin/" rule. */
  lemma AdminsIsNotDetail()
    ensures !(AdminPrefix <= "/admins")
    ensures HeaderFor("/admins") == Title("Admins")
  {
    assert "/admins"[6] != AdminPrefix[6];
  }

  /** A deeper path under "/admin/" gets the details title, not the back
      button. */
  lemma DeeperAdminPath(segment: string, rest: string)
    requires segment != "" && '/' !in segment
    ensures HeaderFor(AdminPrefix + segment + "/" + rest) == Title("Admin Details")
  {
    var p := AdminPrefix + segment + "/" + rest;
    assert AdminPrefix <= p;
    assert p[|AdminPrefix| + |segment|] == '/';
    assert '/' in p[|AdminPrefix|..];
  }

  /** Other pages behind the gate carry the centre's name. */
  lemma OtherPagesGeneric()
    ensures HeaderFor("/dashboard") == Title(GenericTitle)
    ensures HeaderFor("/settings") == Title(GenericTitle)
  {
    assert "/dashboard"[1] != AdminPrefix[1];
    assert "/settings"[1] != AdminPrefix[1];
  }
}
