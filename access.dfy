/**
 * The admin gate. The stored identity is lowercased, trimmed and compared
 * with a fixed constant; the list screen and the create screen spell the
 * check differently.
 */
module Access {
  import opened Wrappers
  import opened Text

  const ADMIN_USER := "admin"

  /** `user?.toLowerCase().trim() ?? null`: the list screen's normalised identity. */
  function NormalizedUser(user: Option<string>): (n: Option<string>)
    ensures n.None? <==> user.None?
  {
    match user
    case None => None
    case Some(u) => Some(Trim(Lower(u)))
  }

  /** The list screen's gate: the normalised identity equals the constant. */
  predicate IsAdmin(user: Option<string>): (b: bool)
    ensures b ==> user.Some?  // a missing identity never passes
  {
    NormalizedUser(user) == Some(ADMIN_USER)
  }

  /** The create screen's test for sending the user away: `(currentUser ?? "").toLowerCase().trim() !== ADMIN_USER`. */
  predicate CreateDenied(currentUser: Option<string>): (b: bool)
    ensures currentUser.None? ==> b
  {
    Trim(Lower(currentUser.GetOr(""))) != ADMIN_USER
  }

  /** The two screens' checks agree on every stored identity, null included. */
  lemma CreateDeniedIffNotAdmin(currentUser: Option<string>)
    ensures CreateDenied(currentUser) <==> !IsAdmin(currentUser)
    ensures currentUser.None? ==> CreateDenied(currentUser) && !IsAdmin(currentUser)
  {
    assert Lower("") == "";
  }

  /** Normalising white space + w + white space gives the lowered w, when it has non-white ends. */
  lemma {:induction false} NormalizePadded(p: string, w: string, q: string)
    requires AllWhitespace(p) && AllWhitespace(q)
    requires Lower(w) != [] && !IsWhitespace(Lower(w)[0]) && !IsWhitespace(Lower(w)[|w| - 1])
    ensures Trim(Lower(p + w + q)) == Lower(w)
  {
    LowerAppend(p + w, q);
    LowerAppend(p, w);
    LowerWhitespace(p);
    LowerWhitespace(q);
    TrimPadded(Lower(p), Lower(w), Lower(q));
  }

  /** Whatever normalises to n splits into white space, something that lowers to n, and white space. */
  lemma {:induction false} NormalizeSplit(u: string, n: string) returns (i: nat, j: nat)
    requires Trim(Lower(u)) == n
    ensures i <= j <= |u|
    ensures AllWhitespace(u[..i]) && Lower(u[i..j]) == n && AllWhitespace(u[j..])
  {
    var l := Lower(u);
    i, j := TrimBounds(l);
    assert l[..i] == Lower(u[..i]) by { LowerSlice(u, 0, i); }
    assert l[i..j] == Lower(u[i..j]) by { LowerSlice(u, i, j); }
    assert l[j..] == Lower(u[j..]) by { LowerSlice(u, j, |u|); }
    LowerWhitespace(u[..i]);
    LowerWhitespace(u[j..]);
  }

  /** Any casing of "admin" surrounded by white space passes the gate. */
  lemma AdminWhenPadded(p: string, w: string, q: string)
    requires AllWhitespace(p) && AllWhitespace(q)
    requires Lower(w) == ADMIN_USER
    ensures IsAdmin(Some(p + w + q))
  {
    NormalizePadded(p, w, q);
  }

  /** Only such strings pass: an admin identity splits into white space, a casing of "admin", white space. */
  lemma AdminSplit(u: string) returns (i: nat, j: nat)
    requires IsAdmin(Some(u))
    ensures i <= j <= |u|
    ensures AllWhitespace(u[..i]) && Lower(u[i..j]) == ADMIN_USER && AllWhitespace(u[j..])
  {
    i, j := NormalizeSplit(u, ADMIN_USER);
  }

  lemma AdminCasings()
    ensures Lower("ADMIN") == ADMIN_USER && Lower("Admin") == ADMIN_USER
  {
    var upper, mixed := "ADMIN", "Admin";
    forall k | 0 <= k < 5 ensures Lower(upper)[k] == ADMIN_USER[k] && Lower(mixed)[k] == ADMIN_USER[k] {
    }
  }

  /** " ADMIN " passes the gate. */
  lemma UpperPaddedAdmin()
    ensures IsAdmin(Some(" ADMIN "))
  {
    AdminCasings();
    var sp := " ";
    assert AllWhitespace(sp);
    assert " ADMIN " == sp + "ADMIN" + sp;
    AdminWhenPadded(sp, "ADMIN", sp);
  }

  /** "Admin " passes the gate. */
  lemma MixedPaddedAdmin()
    ensures IsAdmin(Some("Admin "))
  {
    AdminCasings();
    var sp := " ";
    assert AllWhitespace(sp) && AllWhitespace("");
    assert "Admin " == "" + "Admin" + sp;
    AdminWhenPadded("", "Admin", sp);
  }

  /** An e-mail address and a missing identity do not pass. */
  lemma NonAdminExamples()
    ensures !IsAdmin(Some("user@x.com")) && !IsAdmin(None)
  {
    var e := "user@x.com";
    forall k | 0 <= k < |e| ensures Lower(e)[k] == e[k] {
    }
    assert Lower(e) == e;
    assert e == "" + e + "";
    TrimPadded("", e, "");
    assert e[0] != ADMIN_USER[0];
  }
}
