/** The navigation bar's active-link rule over its table of links. */
module Navbar {
  import opened Text

  datatype NavLink = NavLink(text: string, path: string)

  const NavLinks: seq<NavLink> := [
    NavLink("Home", "/"),
    NavLink("How It Works", "/how-it-works"),
    NavLink("Services", "/services"),
    NavLink("Case Studies", "/case-studies"),
    NavLink("Dashboard", "/dashboard-preview"),
    NavLink("Pricing", "/pricing"),
    NavLink("Blog", "/blog"),
    NavLink("Contact", "/demo")
  ]

  /** `isActive(path)` on the page at `current`: the home link only on "/"
      itself, any other link on every path that starts with its own. */
  predicate IsActive(path: string, current: string)
    ensures IsActive(path, current) ==> StartsWith(current, path)
    ensures path != "/" && StartsWith(current, path) ==> IsActive(path, current)
  {
    if path == "/" then current == "/" else StartsWith(current, path)
  }

  /** The home link is active exactly on "/". */
  lemma HomeActiveIffRoot(current: string)
    ensures IsActive("/", current) <==> current == "/"
  {
  }

  /** Any other link is active exactly when the current path starts with
      it, so "/blog" is active on "/blog/5". */
  lemma OtherActiveIffPrefix(path: string, current: string)
    requires path != "/"
    ensures IsActive(path, current) <==> exists rest :: current == path + rest
  {
    if IsActive(path, current) {
      assert current == path + current[|path|..];
    }
    forall rest | current == path + rest
      ensures IsActive(path, current)
    {
      assert current[..|path|] == path;
    }
  }

  /** A link is active on its own path. */
  lemma ActiveOnOwnPath(path: string)
    ensures IsActive(path, path)
  {
    assert path[..|path|] == path;
  }

  /** The match is not segment-aware: "/blog" is active on "/blog/5" and on
      "/blogging" alike, while "/blog" is not active on "/". */
  lemma BlogMatchesByRawPrefix()
    ensures IsActive("/blog", "/blog/5")
    ensures IsActive("/blog", "/blogging")
    ensures !IsActive("/blog", "/")
  {
    assert "/blog/5"[..5] == "/blog";
    assert "/blogging"[..5] == "/blog";
  }

  /** Two different links other than home disagree at their second or
      third character, so neither path is a prefix of the other. */
  lemma PathsDiverge(i: nat, j: nat)
    requires 1 <= i < |NavLinks| && 1 <= j < |NavLinks| && i != j
    ensures !StartsWith(NavLinks[i].path, NavLinks[j].path)
  {
    var p, q := NavLinks[i].path, NavLinks[j].path;
    assert |p| >= 5 && |q| >= 5;
    if {i, j} == {4, 7} {
      assert p[2] != q[2];
      NotPrefixWhenDiffering(p, q, 2);
    } else {
      assert p[1] != q[1];
      NotPrefixWhenDiffering(p, q, 1);
    }
  }

  /** Whatever the current path, at most one link of the table is
      active. */
  lemma AtMostOneActive(current: string, i: nat, j: nat)
    requires i < |NavLinks| && j < |NavLinks|
    requires IsActive(NavLinks[i].path, current) && IsActive(NavLinks[j].path, current)
    ensures i == j
  {
    var p, q := NavLinks[i].path, NavLinks[j].path;
    // With the home link involved the path is "/", on which no other
    // link is active.
    if i != j && i != 0 && j != 0 {
      if |p| <= |q| {
        PrefixesAreNested(current, p, q);
        PathsDiverge(j, i);
      } else {
        PrefixesAreNested(current, q, p);
        PathsDiverge(i, j);
      }
    }
  }
}
