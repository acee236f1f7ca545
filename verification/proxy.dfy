/**
 * The route guard (`proxy.ts`): which paths need a signed-in user, and the
 * redirect or pass-through decision for a request. URL construction is
 * reduced to the target path and the callback the sign-in page receives.
 */
module Proxy {
  import opened Text

  const ProtectedPrefixes: seq<string> := ["/settings", "/account", "/me", "/org/new", "/repo/new"]

  /** The path is the prefix itself or lies below it, on a segment boundary. */
  predicate UnderPrefix(path: string, p: string) {
    path == p || StartsWith(path, p + "/")
  }

  /** `PROTECTED_PREFIXES.some(...)`, scanning left to right. */
  function AnyUnder(path: string, prefixes: seq<string>): (b: bool)
    ensures b <==> exists i :: 0 <= i < |prefixes| && UnderPrefix(path, prefixes[i])
    decreases |prefixes|
  {
    if |prefixes| == 0 then false
    else if UnderPrefix(path, prefixes[0]) then true
    else
      assert forall i :: 1 <= i < |prefixes| ==> prefixes[i] == prefixes[1..][i - 1];
      AnyUnder(path, prefixes[1..])
  }

  predicate IsProtected(path: string) {
    AnyUnder(path, ProtectedPrefixes)
  }

  datatype Decision =
    | SignInRedirect(callbackUrl: string)
    | HomeRedirect
    | PassThrough

  /** The path a decision sends the browser to. */
  function TargetPath(d: Decision): string
    requires !d.PassThrough?
  {
    if d.SignInRedirect? then "/sign-in" else "/"
  }

  /** The proxy's decision for a request to `path` (full URL `href`). */
  function Decide(path: string, href: string, loggedIn: bool): (d: Decision)
    ensures d.SignInRedirect? <==> IsProtected(path) && !loggedIn
    ensures d.SignInRedirect? ==> d.callbackUrl == href
    ensures d.HomeRedirect? <==> StartsWith(path, "/sign-in") && loggedIn
    ensures d.PassThrough? <==> !(IsProtected(path) && !loggedIn) && !(StartsWith(path, "/sign-in") && loggedIn)
  {
    if IsProtected(path) && !loggedIn then SignInRedirect(href)
    else if StartsWith(path, "/sign-in") && loggedIn then HomeRedirect
    else PassThrough
  }

  /**
   * The segment boundary: "/me" and anything below "/me/" is protected,
   * "/meow" is not; the sign-in bounce has no boundary, so "/sign-inx"
   * sends a signed-in user home.
   */
  lemma PrefixBoundaries()
    ensures IsProtected("/me") && IsProtected("/me/profile")
    ensures !IsProtected("/meow")
    ensures Decide("/sign-inx", "", true) == HomeRedirect
  {
    assert UnderPrefix("/me", ProtectedPrefixes[2]);
    assert UnderPrefix("/me/profile", ProtectedPrefixes[2]);
    assert !IsProtected("/sign-inx") by {
      forall i | 0 <= i < |ProtectedPrefixes| ensures !UnderPrefix("/sign-inx", ProtectedPrefixes[i]) {
        assert "/sign-inx"[1] == 's';
      }
    }
    forall i | 0 <= i < |ProtectedPrefixes| ensures !UnderPrefix("/meow", ProtectedPrefixes[i]) {
      assert "/meow"[3] == 'o';
    }
  }

  /**
   * No redirect loop: following either redirect with the same login state
   * reaches a page the proxy lets through.
   */
  lemma NoRedirectLoop(path: string, href: string, loggedIn: bool, nextHref: string)
    requires !Decide(path, href, loggedIn).PassThrough?
    ensures Decide(TargetPath(Decide(path, href, loggedIn)), nextHref, loggedIn) == PassThrough
  {
    forall i | 0 <= i < |ProtectedPrefixes| ensures !UnderPrefix("/sign-in", ProtectedPrefixes[i]) && !UnderPrefix("/", ProtectedPrefixes[i]) {
      assert "/sign-in"[1] == 's';
    }
    assert !StartsWith("/", "/sign-in");
  }
}
