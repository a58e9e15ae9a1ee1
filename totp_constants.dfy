/**
 * The literal values the resolver compares against and builds from.  They
 * belong to the authenticator's constants class and to the identity helper's
 * constants class, which are not part of this model, so the values below
 * are assumed rather than taken from the code.
 */
module TotpConstants {

  const AUTHENTICATOR_NAME := "totp"
  const SUPER_TENANT_DOMAIN := "carbon.super"
  const ENCODING_METHOD := "encodingMethod"
  const BASE32 := "Base32"
  const BASE64 := "Base64"
  const NAME := "name"
  const AUTHENTICATOR_CONFIG := "AuthenticatorConfig"
  const APPLICATION_AUTHENTICATION_XML := "application-authentication.xml"

  /** Session hint: read the encoding method from the identity helper, not from the session. */
  const GET_PROPERTY_FROM_IDENTITY_CONFIG := "getPropertyFromIdentityConfig"
  /** Session hint (identity helper's constant): read numeric and boolean parameters from the helper. */
  const GET_PROPERTY_FROM_REGISTRY := "getPropertyFromRegistry"
  const AUTHENTICATION := "authentication"

  const TIME_STEP_SIZE := "TimeStepSize"
  const WINDOW_SIZE := "WindowSize"
  const ENABLE_TOTP_IN_AUTHENTICATIONFLOW := "EnableTOTPInAuthenticationFlow"
  const ENABLE_TOTP_REQUEST_PAGE := "authenticationendpoint/totp_enable.do"

  /** Registry path of the per-tenant configuration document. */
  const CONFIG_RESOURCE_PATH := AUTHENTICATOR_NAME + "/" + APPLICATION_AUTHENTICATION_XML
}
