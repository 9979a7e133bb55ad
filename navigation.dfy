/**
 * components/navigation.tsx: the breadcrumb header, hidden on the login and
 * sign-up pages, whose last item names the current page. The pathname is
 * `None` when `usePathname` gives none.
 */
module Navigation {
  import opened Wrappers
  import opened Text

  /** `pathname?.startsWith('/login') || pathname?.startsWith('/signup')` */
  predicate IsAuthPage(pathname: Option<string>) {
    pathname.Some? && (StartsWith(pathname.value, "/login") || StartsWith(pathname.value, "/signup"))
  }

  function Last(xs: seq<string>): string
    requires xs != []
  {
    xs[|xs| - 1]
  }

  /** `getPageName` */
  function GetPageName(pathname: Option<string>): string {
    if pathname == Some("/") then "Scripts"
    else if pathname == Some("/products") then "View Products"
    else if pathname.None? then ""
    else Last(Split(pathname.value, '/'))
  }

  /** What the header shows as the page name, or `None` when it renders nothing. */
  function Breadcrumb(pathname: Option<string>): Option<string> {
    if IsAuthPage(pathname) then None else Some(GetPageName(pathname))
  }

  /**
   * The last piece of a split is the text after the last separator: the
   * string ends with it, it holds no separator, and it is the whole string or
   * is preceded by a separator.
   */
  lemma {:induction false} SplitLast(s: string, c: char)
    ensures var p := Last(Split(s, c));
      EndsWith(s, p) && c !in p && (|p| == |s| || s[|s| - |p| - 1] == c)
    decreases |s|
  {
    if c in s {
      var k := FirstIndex(s, c);
      var rest := s[k + 1..];
      SplitLast(rest, c);
      LastAfterFirst(s, c);
      SuffixShift(s, rest, k, c, Last(Split(rest, c)));
    }
  }

  lemma LastAfterFirst(s: string, c: char)
    requires c in s
    ensures Last(Split(s, c)) == Last(Split(s[FirstIndex(s, c) + 1..], c))
  {
    var k := FirstIndex(s, c);
    SplitStep(s, c);
    LastOfCons(Split(s, c), s[..k], Split(s[k + 1..], c));
  }

  lemma LastOfCons(r: seq<string>, x: string, tail: seq<string>)
    requires tail != [] && r == [x] + tail
    ensures Last(r) == Last(tail)
  {
  }

  /** A suffix of the text after position `k` is a suffix of the whole, with the same predecessor. */
  lemma SuffixShift(s: string, rest: string, k: nat, c: char, p: string)
    requires k < |s| && s[k] == c && rest == s[k + 1..]
    requires EndsWith(rest, p) && (|p| == |rest| || rest[|rest| - |p| - 1] == c)
    ensures EndsWith(s, p) && (|p| == |s| || s[|s| - |p| - 1] == c)
  {
    assert |s| == k + 1 + |rest|;
    assert forall i :: 0 <= i < |rest| ==> s[k + 1 + i] == rest[i];
    assert s[|s| - |p|..] == rest[|rest| - |p|..];
    if |p| < |rest| {
      assert s[|s| - |p| - 1] == rest[|rest| - |p| - 1];
    }
  }

  /**
   * The two named pages have fixed names; any other path is named by its
   * last `/`-separated segment, which is empty for a path with a trailing
   * slash.
   */
  lemma GetPageNameMeaning(pathname: Option<string>)
    ensures pathname == Some("/") ==> GetPageName(pathname) == "Scripts"
    ensures pathname == Some("/products") ==> GetPageName(pathname) == "View Products"
    ensures pathname.None? ==> GetPageName(pathname) == ""
    ensures pathname.Some? && pathname.value != "/" && pathname.value != "/products" ==>
      var p, name := pathname.value, GetPageName(pathname);
      EndsWith(p, name) && '/' !in name && (|name| == |p| || p[|p| - |name| - 1] == '/')
      && (p != "" && p[|p| - 1] == '/' ==> name == "")
  {
    if pathname.Some? && pathname.value != "/" && pathname.value != "/products" {
      var p := pathname.value;
      SplitLast(p, '/');
    }
  }

  /**
   * The header disappears exactly on paths beginning with `/login` or
   * `/signup`; those are prefix tests, so any path continuing them (like
   * `/login/reset` or `/loginhelp`) counts as well.
   */
  lemma BreadcrumbMeaning(pathname: Option<string>, rest: string)
    ensures Breadcrumb(pathname).None? <==> IsAuthPage(pathname)
    ensures Breadcrumb(Some("/login" + rest)).None? && Breadcrumb(Some("/signup" + rest)).None?
    ensures Breadcrumb(None) == Some("")
  {
    StartsWithConcat("/login", rest);
    StartsWithConcat("/signup", rest);
  }

  /** The home page and the product list are not auth pages, and get their fixed names. */
  lemma NamedPages()
    ensures Breadcrumb(Some("/")) == Some("Scripts")
    ensures Breadcrumb(Some("/products")) == Some("View Products")
  {
    assert "/products"[1] != "/login"[1] && "/products"[1] != "/signup"[1];
  }
}
