/** The client's list of methods whose calls carry the access token, and its
    agreement with the server's access table. */
module ClientMain {
  import opened Pb
  import opened ClientAuth
  import ServerMain

  /** accessibleRoles of the client: the methods the interceptor guards. */
  function AuthMethods(): (m: map<string, bool>)
    ensures m.Keys == ServerMain.AccessibleRoles().Keys
    ensures forall k :: k in m ==> m[k]
  {
    map[CREATE_LAPTOP := true, UPLOAD_IMAGE := true, RATE_LAPTOP := true]
  }

  /** The client attaches its token to exactly the methods the server guards
      by role, so no guarded call goes out without a token and no public call
      carries one. */
  lemma TokenExactlyForGuardedMethods(interceptor: AuthInterceptor, fullMethod: string)
    requires interceptor.authMethods == AuthMethods()
    ensures interceptor.NeedsToken(fullMethod) <==> !ServerMain.IsPublic(fullMethod)
    ensures !interceptor.NeedsToken(SEARCH_LAPTOP) && !interceptor.NeedsToken(LOGIN)
  {
    ServerMain.AccessPolicy("admin");
  }
}
