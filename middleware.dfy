/** The request middleware: which paths pass through and which require a signed-in user. */
module Middleware {
  import opened Strings

  datatype Action = PassThrough | Protect

  const PublicApiPrefix := "/api/public/"
  const TrpcPrefix := "/api/trpc/"

  /** The public routes: the landing page, the login page and everything under /api/public/. The
      route matcher ignores case, so the path is compared lower-cased. */
  predicate IsPublicRoute(path: string) {
    var p := Lower(path);
    p == "/" || p == "/login" || StartsWith(p, PublicApiPrefix)
  }

  /** The tRPC routes, matched without regard to case like the public ones. */
  predicate IsTrpcRoute(path: string) {
    StartsWith(Lower(path), TrpcPrefix)
  }

  /** The tRPC routes left public: none are listed. */
  predicate IsTrpcPublicRoute(path: string) {
    false
  }

  /** The handler's dispatch: public routes pass, tRPC routes not listed as public are protected,
      and so is every other route. */
  function Dispatch(path: string): (a: Action)
    ensures a == Protect <==> !IsPublicRoute(path)
  {
    if IsPublicRoute(path) then PassThrough
    else if IsTrpcRoute(path) && !IsTrpcPublicRoute(path) then Protect
    else Protect
  }

  /** Every tRPC route is protected: no tRPC path is also a public one. */
  lemma TrpcAlwaysProtected(path: string)
    requires IsTrpcRoute(path)
    ensures Dispatch(path) == Protect
  {
    var p := Lower(path);
    assert p[..|TrpcPrefix|] == TrpcPrefix;
    assert p[5] == 't' && PublicApiPrefix[5] == 'p';
  }

  /** Two paths that differ only in the case of their letters are dispatched alike. */
  lemma DispatchIgnoresCase(a: string, b: string)
    requires Lower(a) == Lower(b)
    ensures Dispatch(a) == Dispatch(b)
  {
  }

  /** The login page in capitals is still public. */
  lemma UpperCaseLoginIsPublic()
    ensures Dispatch("/LOGIN") == PassThrough
  {
    assert Lower("/LOGIN") == "/login";
  }
}
