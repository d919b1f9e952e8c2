/**
 * How the two call gates meet. The client command's table of methods that
 * need a token (cmd/client/main.go) marks exactly the methods the server's
 * policy table protects, and the token the client attaches arrives as the
 * first `authorization` value the server verifies. The transport is gRPC's
 * metadata delivery: pairs appended to the outgoing context arrive grouped
 * by key, the values of a key in append order.
 */
module EndToEnd {
  import opened Wrappers
  import opened Grpc
  import ServerAuth
  import ClientAuth

  /** `authMethods()` of the client command: the laptop methods sent with a token. */
  function ClientAuthMethods(): map<string, bool>
  {
    map[
      ServerAuth.CreateLaptopMethod := true,
      ServerAuth.UploadImageMethod := true,
      ServerAuth.RateLaptopMethod := true
    ]
  }

  /** Incoming metadata as the server sees it: the outgoing pairs grouped by key, in order. */
  function Deliver(out: ClientAuth.OutgoingMetadata): map<string, seq<string>>
  {
    if out == [] then map[]
    else
      var prev := Deliver(out[..|out| - 1]);
      var (key, value) := out[|out| - 1];
      prev[key := (if key in prev then prev[key] else []) + [value]]
  }

  /** A key that no outgoing pair carries does not arrive. */
  lemma {:induction false} DeliverOmitsUnsentKey(out: ClientAuth.OutgoingMetadata, key: string)
    requires forall i :: 0 <= i < |out| ==> out[i].0 != key
    ensures key !in Deliver(out)
  {
    if out != [] {
      var n := |out| - 1;
      assert forall i :: 0 <= i < n ==> out[..n][i] == out[i];
      DeliverOmitsUnsentKey(out[..n], key);
    }
  }

  /** The client sends a token for a method exactly when the server's table protects it. */
  lemma ClientGatesExactlyProtectedMethods(fullMethod: string)
    ensures var gated := fullMethod in ClientAuthMethods() && ClientAuthMethods()[fullMethod];
            gated <==> fullMethod in ServerAuth.AccessibleRoles()
  {
  }

  /**
   * A protected call from a client holding the deployed table, with no
   * `authorization` pair of its own, reaches the server carrying the cached
   * token as its only `authorization` value; the server lets it through
   * exactly when that token verifies to a role the method lists.
   */
  lemma ProtectedCallCarriesCachedToken(client: ClientAuth.AuthInterceptor, server: ServerAuth.AuthInterceptor,
                                        md: ClientAuth.OutgoingMetadata, fullMethod: string)
    requires client.authMethods == ClientAuthMethods()
    requires server.accessibleRoles == ServerAuth.AccessibleRoles()
    requires forall i :: 0 <= i < |md| ==> md[i].0 != AuthorizationKey
    requires fullMethod in ServerAuth.AccessibleRoles()
    ensures ServerAuth.AuthorizationValues(Deliver(client.CallMetadata(fullMethod, md))) == [client.accessToken]
    ensures var verdict := ServerAuth.Authorize(server, Some(Deliver(client.CallMetadata(fullMethod, md))), fullMethod);
            verdict.None? <==> (server.verify(client.accessToken).Success?
                                && server.verify(client.accessToken).value.role in ServerAuth.AccessibleRoles()[fullMethod])
  {
    ClientGatesExactlyProtectedMethods(fullMethod);
    DeliverOmitsUnsentKey(md, AuthorizationKey);
    var out := client.CallMetadata(fullMethod, md);
    assert out[..|out| - 1] == md;
  }

  /** A public call goes out unchanged and the server lets it through whatever it carries. */
  lemma PublicCallPassesUntouched(client: ClientAuth.AuthInterceptor, server: ServerAuth.AuthInterceptor,
                                  md: ClientAuth.OutgoingMetadata, fullMethod: string)
    requires client.authMethods == ClientAuthMethods()
    requires server.accessibleRoles == ServerAuth.AccessibleRoles()
    requires fullMethod !in ServerAuth.AccessibleRoles()
    ensures client.CallMetadata(fullMethod, md) == md
    ensures ServerAuth.Authorize(server, Some(Deliver(md)), fullMethod).None?
  {
    ClientGatesExactlyProtectedMethods(fullMethod);
  }
}
