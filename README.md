# TOTP authenticator: tenant-scoped configuration resolver

This project models the configuration resolver of a TOTP second-factor
authenticator for a multi-tenant identity server, in Dafny. It does not model
the TOTP algorithm. For each authentication attempt the resolver decides four
things for the tenant and session in hand:

- the shared secret's encoding (Base32 or Base64);
- the time-step size;
- the verification window;
- whether TOTP is enabled in the authentication flow.

It chooses between four sources: the static file configuration (used for the
super tenant `carbon.super`), the identity helper's per-authenticator parameter
maps, a per-tenant XML document in the governance registry, and the session's
property bag.

Files:

- `wrappers.dfy`: `Option`, where `None` is Java's `null`.
- `totp_constants.dfy`: the literal keys, names and paths the resolver uses.
- `dom.dfy`: the parsed XML document as a tree of elements, text and comments.
  It also has `getAttribute`, `getNamedItem`, `getTextContent` and
  `getElementsByTagName`.
- `carbon_context.dfy`: the thread-local tenant binding. Starting a tenant flow
  saves the binding and ending one restores it. A ghost `depth` counts the open
  flows.
- `totp_util.dfy`: the resolver. A Java exception is a `Thrown` outcome. The
  collaborators (file configuration, identity helper, tenant manager, registry,
  realm service, number parsers) are fields of an `Environment` value. The
  session is an `AuthenticationContext` object whose property map is updated in
  place.
  - The registry reader is a method. It opens and closes a tenant flow, calls
    the method `ScanAuthenticatorConfigs` (which holds the two nested scan loops)
    and may write the hint property on the session. It is proved against the
    specification function `EncodingMethodFromRegistry`.
  - The context-less `GetEncodingMethod` is a method too, because it calls the
    registry reader and so changes the carbon context; it is proved against the
    function `EncodingMethodOfTenant`.
  - The other operations are functions of their inputs.
- `totp_util_properties.dfy`: lemmas. They characterise the registry scan
  (first configuration, last parameter), the fallback chain, the boolean parse,
  what the getters read, and the shape of the redirect URL.

Behaviour of the code that the model keeps as written:

- Inside the chosen `AuthenticatorConfig` the last `encodingMethod` child
  wins, because the inner loop (lines 187-199) never breaks.
- A child element with no `name` attribute makes `getNamedItem` return null,
  and `getNodeValue()` on it throws (lines 191-194). No catch clause handles
  the null dereference, so it escapes the registry reader and its one caller,
  the context-less `getEncodingMethod` (line 131).
- On a registry failure the reader returns `""` when it has no session (line
  209). With a session it sets the hint and returns `null` (lines 205-207,
  220). The only call, at line 131, passes no session, so the session branch
  is unreachable from this file. The model keeps it, as the reader's own
  contract.
- A null registry, null resource content or content that is not a byte array
  make lines 171 and 174 throw. No catch clause in the file handles these
  exceptions, so they escape like the null dereference above.
- The context overload of `getEncodingMethod` calls `toString()` on the
  `encodingMethod` property (line 105). When the property is absent it throws
  instead of normalising to Base64.

## Model

| member | source | states |
|---|---|---|
| Dom.ElementsByTagName | component/authenticator/src/main/java/org/wso2/carbon/identity/application/authenticator/totp/util/TOTPUtil.java:179 | every node returned is an element with the requested tag |
| Dom.DocumentElementsByTagName | component/authenticator/src/main/java/org/wso2/carbon/identity/application/authenticator/totp/util/TOTPUtil.java:179 | the `AuthenticatorConfig` list contains only elements with that tag, so the node-type test at line 182 always passes |
| CarbonContext.PrivilegedCarbonContext.StartTenantFlow | component/authenticator/src/main/java/org/wso2/carbon/identity/application/authenticator/totp/util/TOTPUtil.java:166 | opens one more flow (depth + 1) and saves the current tenant binding |
| CarbonContext.PrivilegedCarbonContext.GetRegistry | component/authenticator/src/main/java/org/wso2/carbon/identity/application/authenticator/totp/util/TOTPUtil.java:170 | hands out the registry of the tenant id currently bound and records the flow depth and binding it was handed out under |
| CarbonContext.PrivilegedCarbonContext.EndTenantFlow | component/authenticator/src/main/java/org/wso2/carbon/identity/application/authenticator/totp/util/TOTPUtil.java:218 | closes the innermost flow (depth - 1) and restores the binding saved when it opened |
| CarbonContext.PrivilegedCarbonContext.SetTenantId | component/authenticator/src/main/java/org/wso2/carbon/identity/application/authenticator/totp/util/TOTPUtil.java:168 | binds the tenant id of the current flow |
| CarbonContext.PrivilegedCarbonContext.SetTenantDomain | component/authenticator/src/main/java/org/wso2/carbon/identity/application/authenticator/totp/util/TOTPUtil.java:169 | binds the tenant domain of the current flow |
| TotpUtil.AuthenticationContext.SetProperty | component/authenticator/src/main/java/org/wso2/carbon/identity/application/authenticator/totp/util/TOTPUtil.java:206-207 | the session's property map gains or overwrites exactly that key |
| TotpUtil.NormalizeEncoding | component/authenticator/src/main/java/org/wso2/carbon/identity/application/authenticator/totp/util/TOTPUtil.java:112-115 | the result is always Base32 or Base64, and it is Base32 iff the input is exactly the literal Base32 (so "null" gives Base64) |
| TotpUtil.GetEncodingMethodWithContext | component/authenticator/src/main/java/org/wso2/carbon/identity/application/authenticator/totp/util/TOTPUtil.java:96-116 | returns Base32 or Base64, and Base32 iff the selected source is exactly "Base32"; throws a null dereference iff the tenant is not the super tenant and the session has neither the identity-config hint nor an `encodingMethod` property |
| TotpUtil.ConfigScan | component/authenticator/src/main/java/org/wso2/carbon/identity/application/authenticator/totp/util/TOTPUtil.java:180-203 | scanning the configuration list fails only with a null dereference |
| TotpUtil.DocumentScan | component/authenticator/src/main/java/org/wso2/carbon/identity/application/authenticator/totp/util/TOTPUtil.java:179-203 | scanning a document fails only with a null dereference |
| TotpUtil.ScanAuthenticatorConfigs | component/authenticator/src/main/java/org/wso2/carbon/identity/application/authenticator/totp/util/TOTPUtil.java:179-203 | the nested loops, with the early `break` and the throw on an unnamed child, compute exactly `DocumentScan` |
| TotpUtil.EncodingMethodFromRegistry | component/authenticator/src/main/java/org/wso2/carbon/identity/application/authenticator/totp/util/TOTPUtil.java:161-221 | on a registry failure: `""` without a session, null with one; a `TOTPException` is thrown iff the content fails to parse, a class cast failure iff the content is not bytes, and otherwise only a null dereference (null registry, null content, unnamed child) |
| TotpUtil.GetEncodingMethodFromRegistry | component/authenticator/src/main/java/org/wso2/carbon/identity/application/authenticator/totp/util/TOTPUtil.java:161-221 | the registry is fetched exactly once, inside a newly opened flow (depth one above the caller's) bound to the tenant's id and domain; the tenant-flow depth and binding after the call equal those before it, on every outcome; the result is `EncodingMethodFromRegistry`; the session changes only on a registry failure, and then only by gaining the identity-config hint set to its own name |
| TotpUtil.EncodingMethodOfTenant | component/authenticator/src/main/java/org/wso2/carbon/identity/application/authenticator/totp/util/TOTPUtil.java:125-145 | returns Base32 or Base64; never fails for the super tenant; failures are an authentication failure, or an escaping null dereference or class cast failure |
| TotpUtil.GetEncodingMethod | component/authenticator/src/main/java/org/wso2/carbon/identity/application/authenticator/totp/util/TOTPUtil.java:125-145 | leaves the tenant flow as it found it, reads the registry once inside a flow bound to the tenant only for a tenant other than the super tenant, and returns `EncodingMethodOfTenant` |
| TotpUtil.SelectedParameter | component/authenticator/src/main/java/org/wso2/carbon/identity/application/authenticator/totp/util/TOTPUtil.java:232-240 | with the registry hint present or the super tenant: the helper map keyed by the session's `authentication` property, throwing iff that property is absent; otherwise the session property of the same key, throwing iff it is absent; the only failure is a null dereference |
| TotpUtil.ParseNumber | component/authenticator/src/main/java/org/wso2/carbon/identity/application/authenticator/totp/util/TOTPUtil.java:235-239 | a present string the parser accepts gives the parser's number, and only then is a number returned; a null or unparsable string throws a number-format error |
| TotpUtil.GetTimeStepSize | component/authenticator/src/main/java/org/wso2/carbon/identity/application/authenticator/totp/util/TOTPUtil.java:228-241 | returns n iff the selected string is present and `parseLong` gives n; throws a null dereference iff selecting the string does (absent session or `authentication` property), otherwise a number-format error for an absent or unparsable string |
| TotpUtil.GetWindowSize | component/authenticator/src/main/java/org/wso2/carbon/identity/application/authenticator/totp/util/TOTPUtil.java:248-262 | returns n iff the selected string is present and `parseInt` gives n; throws a null dereference iff selecting the string does (absent session or `authentication` property), otherwise a number-format error for an absent or unparsable string |
| TotpUtil.GetTOTPEnableInAuthenticationFlow | component/authenticator/src/main/java/org/wso2/carbon/identity/application/authenticator/totp/util/TOTPUtil.java:269-284 | throws exactly when selecting the string throws, and then only a null dereference; boolean parsing itself never throws |
| TotpUtil.RedirectToEnableTOTPReqPage | component/authenticator/src/main/java/org/wso2/carbon/identity/application/authenticator/totp/util/TOTPUtil.java:293-309 | redirects iff the enable flag reads true, to the enrolment URL for the session's identifier; fails with "Error while getting value for EnableTOTPInAuthenticationFlow" iff the flag reads false; an exception from reading the flag propagates unchanged |
| TotpUtil.GetUserRealm | component/authenticator/src/main/java/org/wso2/carbon/identity/application/authenticator/totp/util/TOTPUtil.java:317-331 | a null user name gives a null realm; the realm service's answer for the user's tenant is returned, a found realm as that realm and none as null; it fails iff the directory fails for a non-null user, with an authentication failure naming the user |
| TotpUtilProperties.LastEncodingTextIsLastMatch | component/authenticator/src/main/java/org/wso2/carbon/identity/application/authenticator/totp/util/TOTPUtil.java:187-199 | inside the chosen configuration the untrimmed text of the LAST `encodingMethod` child is kept; with no such child the result is null |
| TotpUtilProperties.ConfigScanTakesFirstMatch | component/authenticator/src/main/java/org/wso2/carbon/identity/application/authenticator/totp/util/TOTPUtil.java:180-203 | only the first `AuthenticatorConfig` named `totp` is examined; with none the result is null |
| TotpUtilProperties.UnnamedChildThrows | component/authenticator/src/main/java/org/wso2/carbon/identity/application/authenticator/totp/util/TOTPUtil.java:191-194 | a child element without a `name` attribute in the chosen configuration makes the scan throw, even after a match |
| TotpUtilProperties.LaterParameterOverridesEarlier | component/authenticator/src/main/java/org/wso2/carbon/identity/application/authenticator/totp/util/TOTPUtil.java:187-199 | in a document with Base64 and then Base32 parameters, the scan returns Base32 |
| TotpUtilProperties.SuperTenantOverloadsAgree | component/authenticator/src/main/java/org/wso2/carbon/identity/application/authenticator/totp/util/TOTPUtil.java:99-100 | for the super tenant both overloads normalise the file configuration's value and agree, whatever the session holds |
| TotpUtilProperties.MissingEncodingIsBase64 | component/authenticator/src/main/java/org/wso2/carbon/identity/application/authenticator/totp/util/TOTPUtil.java:99-144 | an absent value resolves to Base64 (`String.valueOf(null)` is "null"): the file value for the super tenant in both overloads, the helper value after a registry miss in the context-less overload, and the helper value under the hint in the context overload |
| TotpUtilProperties.RegistryValuePrecedesHelper | component/authenticator/src/main/java/org/wso2/carbon/identity/application/authenticator/totp/util/TOTPUtil.java:131-132 | for another tenant a non-empty registry value is used and the identity helper is not consulted |
| TotpUtilProperties.RegistryMissFallsBackToHelper | component/authenticator/src/main/java/org/wso2/carbon/identity/application/authenticator/totp/util/TOTPUtil.java:132-136 | a registry failure, a missing parameter or an empty parameter falls back to the identity helper's value |
| TotpUtilProperties.EncodingMethodOfTenantFailures | component/authenticator/src/main/java/org/wso2/carbon/identity/application/authenticator/totp/util/TOTPUtil.java:137-139 | the context-less overload raises an authentication failure iff the registry document fails to parse; a null dereference iff the registry or content is null or the scan throws; a class cast failure iff the content is not bytes |
| TotpUtilProperties.HintedSessionAgreesWithRegistryFallback | component/authenticator/src/main/java/org/wso2/carbon/identity/application/authenticator/totp/util/TOTPUtil.java:102-110 | for a tenant whose registry read fails, a session carrying the hint gets the same answer from the context overload as the context-less overload gives |
| TotpUtilProperties.SelectedParameterReadsOnlyItsKeys | component/authenticator/src/main/java/org/wso2/carbon/identity/application/authenticator/totp/util/TOTPUtil.java:232-240 | the getters depend only on the tenant, the registry hint, the `authentication` property and their own key |
| TotpUtilProperties.IdentityConfigHintLeavesParametersUnchanged | component/authenticator/src/main/java/org/wso2/carbon/identity/application/authenticator/totp/util/TOTPUtil.java:233-234 | the identity-config hint that a registry failure sets does not change the time step, the window or the enable flag |
| TotpUtilProperties.ParseBooleanAcceptsTrueIgnoringCase | component/authenticator/src/main/java/org/wso2/carbon/identity/application/authenticator/totp/util/TOTPUtil.java:277-282 | the boolean parse is true exactly for the 16 case variants of "true" |
| TotpUtilProperties.EnableFlagIsTrueIgnoringCase | component/authenticator/src/main/java/org/wso2/carbon/identity/application/authenticator/totp/util/TOTPUtil.java:273-283 | the enable flag is true iff the selected string is a case variant of "true" |
| TotpUtilProperties.QuerySplitsIntoThreeParameters | component/authenticator/src/main/java/org/wso2/carbon/identity/application/authenticator/totp/util/TOTPUtil.java:296-298 | split on `&`, the query holds exactly `sessionDataKey=<id>`, `authenticators=totp` and `type=totp` |
| TotpUtilProperties.EnableTotpRequestUrlQuery | component/authenticator/src/main/java/org/wso2/carbon/identity/application/authenticator/totp/util/TOTPUtil.java:296-298 | the URL is the enrolment page, one `?`, then that query, when the session id contains no `?` or `&` |

## Left out

- `encrypt` and `decrypt` (lines 74-87) wrap the process crypto service, which is not part of this model. A round trip could only be assumed, not proved.
- Parsing the registry bytes as XML (lines 175-178) is not modelled. The resource content is given as null, as not a byte array (lines 173-174, both modelled), as an already parsed document, or as one of three parser failures.
- Three collaborators are given as plain inputs: the file configuration, the identity helper and the tenant manager. A missing authenticator bean in the file configuration (a null dereference at line 153) is not modelled.
- The tenant-flow stack stands in for the thread-local carbon context. Threads and the fields the real context resets on a new flow are not modelled.
- The absolute URL (`getServerURL`, line 299) and the redirect itself (`sendRedirect`, lines 300-305, with its I/O failure) are HTTP and are not modelled. Only the relative URL and the disabled-flag failure are.
- Two steps of `getUserRealm` are inputs: the tenant domain of a user name, and the realm service. The realm is an opaque handle.
- `Long.parseLong` and `Integer.parseInt` are abstract parse functions in the environment. Their grammar and 64-bit and 32-bit ranges are not modelled.
- TotpUtil.EqualsIgnoreCase: case folding is ASCII only. No other character folds onto the letters of "true", so this is exact for `Boolean.parseBoolean`.
- A null tenant domain and other null strings are not modelled: strings are never null.
- A null session is not modelled: `GetEncodingMethodWithContext`, `SelectedParameter`, the three getters and `RedirectToEnableTOTPReqPage` take a non-null `AuthenticationContext`. In the source, `getEncodingMethod(tenantDomain, null)` still returns the file value for the super tenant (lines 99-100), because it never touches the context. For any other tenant it throws a null dereference at line 102, and the three getters throw one at lines 232, 252 and 273. Only the registry reader takes a possibly-null session.
- Logging is not modelled.
