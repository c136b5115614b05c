/** `requireAdmin` of `src/middleware/admin.ts`: a shared-secret check. The key comes from an
    `Authorization: Bearer <key>` header when there is one, otherwise from `x-admin-key`, and
    must equal the configured `ADMIN_SECRET_KEY` exactly. The request is never changed. */
module AdminGate {
  import opened Wrappers
  import opened Strings
  import opened Errors
  import opened Http

  const BearerPrefix := "Bearer "
  const MissingKeyMessage := "Admin authentication required. Please provide admin key."
  const InvalidKeyMessage := "Invalid admin credentials"

  /** `providedKey`: `undefined` is `None`; an empty `x-admin-key` is falsy and skipped. */
  function ProvidedKey(h: Headers): (k: Option<string>)
    ensures h.authorization.Some? && StartsWith(h.authorization.value, BearerPrefix) ==>
              k == Some(h.authorization.value[|BearerPrefix|..])
    ensures !(h.authorization.Some? && StartsWith(h.authorization.value, BearerPrefix)) ==>
              k == (if h.adminKey.Some? && h.adminKey.value != "" then h.adminKey else None)
  {
    if h.authorization.Some? && h.authorization.value != "" && StartsWith(h.authorization.value, BearerPrefix) then
      Some(Drop(h.authorization.value, 7))
    else if h.adminKey.Some? && h.adminKey.value != "" then
      h.adminKey
    else
      None
  }

  /** The gate. It proceeds exactly when the provided key is non-empty and equal to the secret;
      otherwise it fails with a 403 whose message says which check failed. */
  function RequireAdmin(h: Headers, secret: string): (f: Flow)
    ensures f == Proceed <==> ProvidedKey(h) == Some(secret) && secret != ""
    ensures ProvidedKey(h) == None || ProvidedKey(h) == Some("") ==>
              f == Fail(App(NewAuthorizationError(Some(MissingKeyMessage))))
    ensures ProvidedKey(h).Some? && ProvidedKey(h).value != "" && ProvidedKey(h).value != secret ==>
              f == Fail(App(NewAuthorizationError(Some(InvalidKeyMessage))))
    ensures f.Fail? ==> f.error.App? && f.error.error.kind == Authorization && f.error.error.statusCode == 403
  {
    var key := ProvidedKey(h);
    if key.None? || key.value == "" then Fail(App(NewAuthorizationError(Some(MissingKeyMessage))))
    else if key.value != secret then Fail(App(NewAuthorizationError(Some(InvalidKeyMessage))))
    else Proceed
  }

  /** A Bearer header wins over `x-admin-key`, whatever the latter holds. */
  lemma BearerTakesPrecedence(key: string, adminKey: Option<string>)
    ensures ProvidedKey(Headers(Some(BearerPrefix + key), adminKey)) == Some(key)
  {
    assert (BearerPrefix + key)[..|BearerPrefix|] == BearerPrefix;
    assert (BearerPrefix + key)[|BearerPrefix|..] == key;
  }

  /** `Authorization: Bearer ` with nothing after it is rejected as a missing key, even when
      `x-admin-key` holds the right secret. */
  lemma EmptyBearerShadowsAdminKey(secret: string)
    ensures RequireAdmin(Headers(Some(BearerPrefix), Some(secret)), secret)
            == Fail(App(NewAuthorizationError(Some(MissingKeyMessage))))
  {
    BearerTakesPrecedence("", Some(secret));
    assert BearerPrefix + "" == BearerPrefix;
  }

  /** The comparison is exact: a key that differs only in case or in surrounding white space
      is refused. */
  lemma ComparisonIsExact()
    ensures RequireAdmin(Headers(None, Some("Secret")), "secret") == Fail(App(NewAuthorizationError(Some(InvalidKeyMessage))))
    ensures RequireAdmin(Headers(None, Some("secret ")), "secret") == Fail(App(NewAuthorizationError(Some(InvalidKeyMessage))))
    ensures RequireAdmin(Headers(Some("bearer secret"), None), "secret") == Fail(App(NewAuthorizationError(Some(MissingKeyMessage))))
  {
    assert !StartsWith("bearer secret", BearerPrefix) by {
      assert "bearer secret"[0] != BearerPrefix[0];
    }
  }
}
