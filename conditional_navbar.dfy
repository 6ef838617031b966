/** Whether the storefront navbar is shown for a route. */
module ConditionalNavbar {
  import opened Wrappers

  /** Whether `s` begins with `prefix`, compared character by character. */
  function StartsWith(s: string, prefix: string): (b: bool)
    ensures b <==> |prefix| <= |s| && s[..|prefix|] == prefix
  {
    if prefix == [] then true
    else if s == [] then false
    else s[0] == prefix[0] && StartsWith(s[1..], prefix[1..])
  }

  /**
    An admin page: a present pathname under the "/admin" prefix other than the
    public "/admin/login" and "/admin/set-token"; a null pathname is not one.
  */
  predicate IsAdminPage(pathname: Option<string>) {
    pathname.Some? && StartsWith(pathname.value, "/admin")
    && pathname.value != "/admin/login" && pathname.value != "/admin/set-token"
  }

  /** The navbar is hidden exactly on admin pages other than the two public ones. */
  lemma HiddenExactly(pathname: Option<string>)
    ensures IsAdminPage(pathname) <==>
      pathname.Some? && |pathname.value| >= 6 && pathname.value[..6] == "/admin"
      && pathname.value != "/admin/login" && pathname.value != "/admin/set-token"
  {
  }

  /** The public admin login and set-token pages, and a missing pathname, show the navbar. */
  lemma PublicPagesShown()
    ensures !IsAdminPage(Some("/admin/login")) && !IsAdminPage(Some("/admin/set-token"))
    ensures !IsAdminPage(None)
  {
  }

  /** Every path outside the "/admin" prefix shows the navbar. */
  lemma ShownPages(path: string)
    requires !(|path| >= 6 && path[..6] == "/admin")
    ensures !IsAdminPage(Some(path))
  {
  }

  /** The test is a plain prefix test: all three hide the navbar. */
  lemma PrefixOnly()
    ensures IsAdminPage(Some("/admin/products"))
    ensures IsAdminPage(Some("/adminx"))
    ensures IsAdminPage(Some("/admin"))
  {
    assert "/admin/products"[..6] == "/admin";
    assert "/adminx"[..6] == "/admin";
  }
}
