/**
 * The API-key gate of the gateway (src/server.ts lines 21-36).
 *
 * The key comes from the environment; it is passed in here as `secret`.
 * The bearer-token check belongs to the web framework and its code is not
 * part of this model, so every member takes it as a parameter `bearerOk`:
 * `bearerOk(authorization, key)` is the framework's verdict on the
 * `Authorization` header for the expected token `key`.
 */
module Admission {
  import opened Wrappers

  /** The health-check path, served without credentials. */
  const HealthPath: string := "/"

  /** The framework's bearer-token verdict for an `Authorization` header and a key. */
  type BearerCheck = (Option<string>, string) -> bool

  /**
   * The gate is installed only when the configured key is truthy: an unset
   * variable and the empty string both leave the gateway open.
   */
  predicate Gated(secret: Option<string>) {
    secret.Some? && secret.value != ""
  }

  /**
   * The body of the installed middleware for key `key`: the health path is
   * skipped, then an `x-api-key` header strictly equal to the key admits,
   * and otherwise the bearer check decides.
   */
  function GateAdmits(key: string, path: string, xApiKey: Option<string>,
                      authorization: Option<string>, bearerOk: BearerCheck): bool
  {
    if path == HealthPath then true
    else if xApiKey == Some(key) then true
    else bearerOk(authorization, key)
  }

  /** Whether a request gets past the API-key stage, open or gated. */
  function Admit(secret: Option<string>, path: string, xApiKey: Option<string>,
                 authorization: Option<string>, bearerOk: BearerCheck): bool
  {
    if !Gated(secret) then true
    else GateAdmits(secret.value, path, xApiKey, authorization, bearerOk)
  }

  /** With no key, or an empty one, every request on every path is admitted. */
  lemma OpenModeAdmitsAll(secret: Option<string>, path: string, xApiKey: Option<string>,
                          authorization: Option<string>, bearerOk: BearerCheck)
    requires secret == None || secret == Some("")
    ensures !Gated(secret)
    ensures Admit(secret, path, xApiKey, authorization, bearerOk)
  {
  }

  /** The health path needs no credentials, whatever the key. */
  lemma HealthPathExempt(secret: Option<string>, xApiKey: Option<string>,
                         authorization: Option<string>, bearerOk: BearerCheck)
    ensures Admit(secret, HealthPath, xApiKey, authorization, bearerOk)
  {
  }

  /**
   * A correct `x-api-key` admits whatever the `Authorization` header holds
   * and whatever the bearer check would say of it.
   */
  lemma HeaderKeyWins(key: string, path: string, authorization: Option<string>,
                      bearerOk: BearerCheck)
    requires key != ""
    ensures Admit(Some(key), path, Some(key), authorization, bearerOk)
  {
  }

  /** Off the health path, without a matching `x-api-key`, the bearer check alone decides. */
  lemma BearerDecidesOtherwise(key: string, path: string, xApiKey: Option<string>,
                               authorization: Option<string>, bearerOk: BearerCheck)
    requires key != "" && path != HealthPath
    requires xApiKey != Some(key)
    ensures Admit(Some(key), path, xApiKey, authorization, bearerOk) == bearerOk(authorization, key)
  {
  }

  /** A missing header can never take the header branch: the key is not empty. */
  lemma MissingHeaderFallsThrough(key: string, path: string, authorization: Option<string>,
                                  bearerOk: BearerCheck)
    requires key != "" && path != HealthPath
    ensures Admit(Some(key), path, None, authorization, bearerOk) == bearerOk(authorization, key)
    ensures Admit(Some(key), path, Some(""), authorization, bearerOk) == bearerOk(authorization, key)
  {
  }

  /**
   * Complete characterisation: a request is admitted exactly when the gate is
   * off, or the path is the health path, or the header matches the key, or
   * the bearer check passes; so one failing both credential checks off the
   * health path is rejected.
   */
  lemma AdmitExactly(secret: Option<string>, path: string, xApiKey: Option<string>,
                     authorization: Option<string>, bearerOk: BearerCheck)
    ensures Admit(secret, path, xApiKey, authorization, bearerOk) <==>
      (!Gated(secret) || path == HealthPath || xApiKey == secret
       || bearerOk(authorization, secret.value))
  {
  }
}
