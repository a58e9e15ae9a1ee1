/**
 * The tenant-scoped TOTP configuration resolver.  Each operation picks one
 * configuration source (the static file configuration, the identity helper's
 * per-authenticator parameters, the per-tenant registry document or the
 * session's properties) and turns the chosen string into a value.  Java
 * exceptions are modelled as a `Thrown` outcome; `null` is `None`.
 */
module TotpUtil {
  import opened Wrappers
  import opened Dom
  import opened CarbonContext
  import opened TotpConstants

  datatype JavaException =
    | NullPointerException
    | NumberFormatException
    | ClassCastException
    | UserStoreException
    | TOTPException(message: string)
    | AuthenticationFailedException(message: string, cause: Option<JavaException>)

  /** How a call ends: it returns a value or throws. */
  datatype Outcome<+T> = Returned(value: T) | Thrown(error: JavaException)

  /**
   * A registry resource's content as the reader sees it: null, not a byte
   * array, or bytes whose parsing gives a document or one of three parser
   * failures.
   */
  datatype XmlContent =
    | NullContent
    | NonByteContent
    | Parsed(document: Document)
    | MalformedXml
    | ParserConfigurationFailure
    | ReadFailure

  /**
   * A tenant's governance registry as `getRegistry` hands it over: null, one
   * whose `get` fails whatever the path, or a store of resources by path (an
   * absent path also makes `get` fail).
   */
  datatype GovernanceRegistry =
    | NullRegistry
    | Unreachable
    | Store(resources: map<string, XmlContent>)

  /** What `registry.get(path).getContent()` gives the reader. */
  datatype RegistryAnswer =
    | RegistryException
    | RegistryIsNull
    | Content(content: XmlContent)

  /** What the realm service answers for a tenant id. */
  datatype RealmLookup = Realm(handle: nat) | NoRealm | StoreFailure

  /**
   * The collaborators the resolver consults, given as plain values: the
   * static file configuration of the authenticator, the identity helper's
   * parameter maps by authenticator name, the tenant manager, each tenant's
   * governance registry, the realm service, and the number parsers.
   */
  datatype Environment = Environment(
    fileParameters: map<string, string>,
    helperParameters: string -> map<string, string>,
    tenantIdOf: string -> int,
    governanceRegistryOf: int -> GovernanceRegistry,
    tenantDomainOfUser: string -> string,
    realmOf: int -> RealmLookup,
    parseLong: string -> Option<int>,
    parseInt: string -> Option<int>)

  /** The session of one authentication attempt: its tenant, its identifier and its property bag. */
  class AuthenticationContext {
    const tenantDomain: string
    const contextIdentifier: string
    var properties: map<string, string>

    constructor (tenantDomain: string, contextIdentifier: string, properties: map<string, string>)
      ensures this.tenantDomain == tenantDomain && this.contextIdentifier == contextIdentifier
      ensures this.properties == properties
    {
      this.tenantDomain := tenantDomain;
      this.contextIdentifier := contextIdentifier;
      this.properties := properties;
    }

    function GetProperty(key: string): Option<string>
      reads this
    {
      Lookup(properties, key)
    }

    method SetProperty(key: string, value: string)
      modifies this
      ensures properties == old(properties)[key := value]
    {
      properties := properties[key := value];
    }
  }

  /** `Map.get`: `None` for an absent key. */
  function Lookup(m: map<string, string>, key: string): Option<string>
  {
    if key in m then Some(m[key]) else None
  }

  /** `String.valueOf` on a possibly-null string: null becomes the text "null". */
  function ValueOf(s: Option<string>): string
  {
    match s
    case Some(v) => v
    case None => "null"
  }

  /** `StringUtils.isEmpty`: null or "". */
  predicate IsEmpty(s: Option<string>)
  {
    s.None? || s.value == ""
  }

  /** `getTOTPParameters().get(encodingMethod)`, read by both overloads for the super tenant. */
  function FileEncodingMethod(env: Environment): Option<string>
  {
    Lookup(env.fileParameters, ENCODING_METHOD)
  }

  /** `IdentityHelperUtil.getAuthenticatorParameters("totp").get(encodingMethod)`. */
  function HelperEncodingMethod(env: Environment): Option<string>
  {
    Lookup(env.helperParameters(AUTHENTICATOR_NAME), ENCODING_METHOD)
  }

  // ---------------------------------------------------------------------
  // Encoding method

  /** The final step of both `getEncodingMethod` overloads: only the exact literal Base32 stays Base32. */
  function NormalizeEncoding(s: string): (r: string)
    ensures r == BASE32 || r == BASE64
    ensures r == BASE32 <==> s == BASE32
  {
    if BASE32 == s then BASE32 else BASE64
  }

  /**
   * The string the context overload normalises; `None` when it calls
   * `toString()` on an absent `encodingMethod` property.
   */
  function ContextEncodingSource(tenantDomain: string, context: AuthenticationContext, env: Environment): Option<string>
    reads context
  {
    if tenantDomain == SUPER_TENANT_DOMAIN then Some(ValueOf(FileEncodingMethod(env)))
    else if context.GetProperty(GET_PROPERTY_FROM_IDENTITY_CONFIG).None? then context.GetProperty(ENCODING_METHOD)
    else Some(ValueOf(HelperEncodingMethod(env)))
  }

  /** `getEncodingMethod(tenantDomain, context)`. */
  function GetEncodingMethodWithContext(tenantDomain: string, context: AuthenticationContext, env: Environment): (r: Outcome<string>)
    reads context
    ensures r.Returned? ==> r.value == BASE32 || r.value == BASE64
    ensures r == Returned(BASE32) <==> ContextEncodingSource(tenantDomain, context, env) == Some(BASE32)
    ensures r.Thrown? <==>
      && tenantDomain != SUPER_TENANT_DOMAIN
      && GET_PROPERTY_FROM_IDENTITY_CONFIG !in context.properties
      && ENCODING_METHOD !in context.properties
    ensures r.Thrown? ==> r.error == NullPointerException
  {
    match ContextEncodingSource(tenantDomain, context, env)
    case None => Thrown(NullPointerException)
    case Some(s) => Returned(NormalizeEncoding(s))
  }

  // ---------------------------------------------------------------------
  // Registry scan

  /** A child element the inner loop dereferences a null `name` attribute of. */
  predicate Unnamed(n: Node)
  {
    n.Element? && NAME !in n.attributes
  }

  predicate AllNamed(nodes: seq<Node>)
  {
    forall k :: 0 <= k < |nodes| ==> !Unnamed(nodes[k])
  }

  /** A child element whose `name` attribute is `encodingMethod`. */
  predicate IsEncodingParameter(n: Node)
  {
    n.Element? && NamedItemValue(n, NAME) == Some(ENCODING_METHOD)
  }

  /** An `AuthenticatorConfig` entry whose `name` attribute is the authenticator's name. */
  predicate IsTotpConfig(n: Node)
  {
    n.Element? && GetAttribute(n, NAME) == AUTHENTICATOR_NAME
  }

  /** The value the inner loop leaves behind after visiting `children`: the text of the last match. */
  function LastEncodingText(children: seq<Node>): Option<string>
  {
    if children == [] then None
    else if IsEncodingParameter(children[|children| - 1]) then Some(TextContent(children[|children| - 1]))
    else LastEncodingText(children[..|children| - 1])
  }

  /** The inner loop over one configuration's children, including its null dereference. */
  function ParameterScan(children: seq<Node>): Outcome<Option<string>>
  {
    if AllNamed(children) then Returned(LastEncodingText(children)) else Thrown(NullPointerException)
  }

  /** The outer loop: the first matching configuration decides, later ones are never read. */
  function ConfigScan(configs: seq<Node>): (r: Outcome<Option<string>>)
    ensures r.Thrown? ==> r.error == NullPointerException
  {
    if configs == [] then Returned(None)
    else if IsTotpConfig(configs[0]) then ParameterScan(configs[0].children)
    else ConfigScan(configs[1..])
  }

  function DocumentScan(doc: Document): (r: Outcome<Option<string>>)
    ensures r.Thrown? ==> r.error == NullPointerException
  {
    ConfigScan(DocumentElementsByTagName(doc, AUTHENTICATOR_CONFIG))
  }

  /** The nested loops of `getEncodingMethodFromRegistry` over a parsed document. */
  method ScanAuthenticatorConfigs(doc: Document) returns (r: Outcome<Option<string>>)
    ensures r == DocumentScan(doc)
  {
    var encodingMethod: Option<string> := None;
    var authConfigList := DocumentElementsByTagName(doc, AUTHENTICATOR_CONFIG);
    var i := 0;
    while i < |authConfigList|
      invariant 0 <= i <= |authConfigList|
      invariant encodingMethod == None
      invariant ConfigScan(authConfigList[i..]) == ConfigScan(authConfigList)
    {
      var authConfigNode := authConfigList[i];
      if authConfigNode.Element? {
        if GetAttribute(authConfigNode, NAME) == AUTHENTICATOR_NAME {
          var children := authConfigNode.children;
          var j := 0;
          while j < |children|
            invariant 0 <= j <= |children|
            invariant AllNamed(children[..j])
            invariant encodingMethod == LastEncodingText(children[..j])
          {
            var child := children[j];
            if child.Element? {
              var tagAttribute := NamedItemValue(child, NAME);
              if tagAttribute.None? {
                assert Unnamed(children[j]);
                return Thrown(NullPointerException);
              }
              if tagAttribute.value == ENCODING_METHOD {
                encodingMethod := Some(TextContent(child));
              }
            }
            assert children[..j + 1][..j] == children[..j];
            j := j + 1;
          }
          assert children[..j] == children;
          break;
        }
      }
      assert authConfigList[i..][1..] == authConfigList[i + 1..];
      i := i + 1;
    }
    return Returned(encodingMethod);
  }

  /** The tenant's registry answer for the configuration resource's path. */
  function RegistryGet(tenantDomain: string, env: Environment): RegistryAnswer
  {
    match env.governanceRegistryOf(env.tenantIdOf(tenantDomain))
    case NullRegistry => RegistryIsNull
    case Unreachable => RegistryException
    case Store(resources) =>
      if CONFIG_RESOURCE_PATH in resources then Content(resources[CONFIG_RESOURCE_PATH]) else RegistryException
  }

  /** The three parser failures the reader turns into a `TOTPException`. */
  predicate IsParserFailure(c: XmlContent)
  {
    c.MalformedXml? || c.ParserConfigurationFailure? || c.ReadFailure?
  }

  /**
   * What `getEncodingMethodFromRegistry` returns or throws; `withContext`
   * says whether it was given a session.
   */
  function EncodingMethodFromRegistry(tenantDomain: string, withContext: bool, env: Environment): (r: Outcome<Option<string>>)
    ensures RegistryGet(tenantDomain, env) == RegistryException ==>
              r == (if withContext then Returned(None) else Returned(Some("")))
    ensures r.Thrown? && r.error.TOTPException? <==>
              RegistryGet(tenantDomain, env).Content? && IsParserFailure(RegistryGet(tenantDomain, env).content)
    ensures r == Thrown(ClassCastException) <==> RegistryGet(tenantDomain, env) == Content(NonByteContent)
    ensures r.Thrown? ==> r.error == NullPointerException || r.error == ClassCastException || r.error.TOTPException?
  {
    match RegistryGet(tenantDomain, env)
    case RegistryException => if withContext then Returned(None) else Returned(Some(""))
    case RegistryIsNull => Thrown(NullPointerException)
    case Content(NullContent) => Thrown(NullPointerException)
    case Content(NonByteContent) => Thrown(ClassCastException)
    case Content(MalformedXml) => Thrown(TOTPException("Error while parsing the content as XML"))
    case Content(ParserConfigurationFailure) => Thrown(TOTPException("Error while creating new Document Builder"))
    case Content(ReadFailure) => Thrown(TOTPException("Error while parsing the content as XML via ByteArrayInputStream"))
    case Content(Parsed(doc)) => DocumentScan(doc)
  }

  /**
   * `getEncodingMethodFromRegistry`: reads the tenant's configuration document
   * inside a tenant flow that is ended on every exit; on a registry failure it
   * leaves the identity-config hint on the session, when there is one.
   */
  method GetEncodingMethodFromRegistry(tenantDomain: string, context: AuthenticationContext?, env: Environment,
                                       carbon: PrivilegedCarbonContext)
    returns (r: Outcome<Option<string>>)
    requires carbon.Valid()
    modifies carbon, context
    ensures carbon.Valid() && carbon.depth == old(carbon.depth)
    ensures carbon.enclosing == old(carbon.enclosing) && carbon.Binding() == old(carbon.Binding())
    ensures carbon.registryReads ==
              old(carbon.registryReads) + [(old(carbon.depth) + 1, TenantBinding(env.tenantIdOf(tenantDomain), tenantDomain))]
    ensures r == EncodingMethodFromRegistry(tenantDomain, context != null, env)
    ensures context != null ==>
              context.properties ==
              if RegistryGet(tenantDomain, env) == RegistryException
              then old(context.properties)[GET_PROPERTY_FROM_IDENTITY_CONFIG := GET_PROPERTY_FROM_IDENTITY_CONFIG]
              else old(context.properties)
  {
    var tenantId := env.tenantIdOf(tenantDomain);
    carbon.StartTenantFlow();
    carbon.SetTenantId(tenantId);
    carbon.SetTenantDomain(tenantDomain);
    var registry := carbon.GetRegistry(env.governanceRegistryOf);
    if registry.NullRegistry? {
      r := Thrown(NullPointerException);
    } else if registry.Unreachable? || CONFIG_RESOURCE_PATH !in registry.resources {
      // RegistryException
      if context != null {
        context.SetProperty(GET_PROPERTY_FROM_IDENTITY_CONFIG, GET_PROPERTY_FROM_IDENTITY_CONFIG);
        r := Returned(None);
      } else {
        r := Returned(Some(""));
      }
    } else {
      match registry.resources[CONFIG_RESOURCE_PATH]
      case NullContent =>
        r := Thrown(NullPointerException);
      case NonByteContent =>
        r := Thrown(ClassCastException);
      case MalformedXml =>
        r := Thrown(TOTPException("Error while parsing the content as XML"));
      case ParserConfigurationFailure =>
        r := Thrown(TOTPException("Error while creating new Document Builder"));
      case ReadFailure =>
        r := Thrown(TOTPException("Error while parsing the content as XML via ByteArrayInputStream"));
      case Parsed(doc) =>
        r := ScanAuthenticatorConfigs(doc);
    }
    carbon.EndTenantFlow();
  }

  /** The context-less `getEncodingMethod(tenantDomain)`, as a function of its inputs. */
  function EncodingMethodOfTenant(tenantDomain: string, env: Environment): (r: Outcome<string>)
    ensures r.Returned? ==> r.value == BASE32 || r.value == BASE64
    ensures r.Thrown? ==>
              r.error == NullPointerException || r.error == ClassCastException || r.error.AuthenticationFailedException?
    ensures tenantDomain == SUPER_TENANT_DOMAIN ==> r.Returned?
  {
    if tenantDomain == SUPER_TENANT_DOMAIN then Returned(NormalizeEncoding(ValueOf(FileEncodingMethod(env))))
    else
      match EncodingMethodFromRegistry(tenantDomain, false, env)
      case Thrown(TOTPException(message)) =>
        Thrown(AuthenticationFailedException("Cannot find the property value for encodingMethod",
                                             Some(TOTPException(message))))
      case Thrown(e) => Thrown(e)
      case Returned(v) =>
        Returned(NormalizeEncoding(if IsEmpty(v) then ValueOf(HelperEncodingMethod(env)) else v.value))
  }

  /** `getEncodingMethod(tenantDomain)`: the registry is read (inside a tenant flow) only for other tenants. */
  method GetEncodingMethod(tenantDomain: string, env: Environment, carbon: PrivilegedCarbonContext)
    returns (r: Outcome<string>)
    requires carbon.Valid()
    modifies carbon
    ensures carbon.Valid() && carbon.depth == old(carbon.depth)
    ensures carbon.enclosing == old(carbon.enclosing) && carbon.Binding() == old(carbon.Binding())
    ensures carbon.registryReads ==
              old(carbon.registryReads)
              + if tenantDomain == SUPER_TENANT_DOMAIN then []
                else [(old(carbon.depth) + 1, TenantBinding(env.tenantIdOf(tenantDomain), tenantDomain))]
    ensures r == EncodingMethodOfTenant(tenantDomain, env)
  {
    var encodingMethods: string;
    if tenantDomain == SUPER_TENANT_DOMAIN {
      encodingMethods := ValueOf(FileEncodingMethod(env));
    } else {
      var fromRegistry := GetEncodingMethodFromRegistry(tenantDomain, null, env, carbon);
      match fromRegistry
      case Thrown(e) =>
        if e.TOTPException? {
          return Thrown(AuthenticationFailedException("Cannot find the property value for encodingMethod", Some(e)));
        }
        return Thrown(e);
      case Returned(v) =>
        encodingMethods := if IsEmpty(v) then ValueOf(HelperEncodingMethod(env)) else v.value;
    }
    r := Returned(NormalizeEncoding(encodingMethods));
  }

  // ---------------------------------------------------------------------
  // Time step, window size and the enable flag

  /**
   * The raw string the three parameter getters parse: from the helper map
   * keyed by the session's `authentication` property when the registry hint is
   * set or the tenant is the super tenant, else from the session property of
   * the same name.  A `toString()` on an absent property throws.
   */
  function SelectedParameter(context: AuthenticationContext, env: Environment, key: string): (r: Outcome<Option<string>>)
    reads context
    ensures r.Thrown? ==> r.error == NullPointerException
    ensures GET_PROPERTY_FROM_REGISTRY in context.properties || context.tenantDomain == SUPER_TENANT_DOMAIN ==>
              && (r.Thrown? <==> AUTHENTICATION !in context.properties)
              && (r.Returned? ==> r.value == Lookup(env.helperParameters(context.properties[AUTHENTICATION]), key))
    ensures GET_PROPERTY_FROM_REGISTRY !in context.properties && context.tenantDomain != SUPER_TENANT_DOMAIN ==>
              && (r.Thrown? <==> key !in context.properties)
              && (r.Returned? ==> r.value == Some(context.properties[key]))
  {
    if context.GetProperty(GET_PROPERTY_FROM_REGISTRY).Some? || context.tenantDomain == SUPER_TENANT_DOMAIN then
      match context.GetProperty(AUTHENTICATION)
      case None => Thrown(NullPointerException)
      case Some(authenticator) => Returned(Lookup(env.helperParameters(authenticator), key))
    else
      match context.GetProperty(key)
      case None => Thrown(NullPointerException)
      case Some(v) => Returned(Some(v))
  }

  /** `Long.parseLong` / `Integer.parseInt`: null and unparsable text throw. */
  function ParseNumber(parse: string -> Option<int>, s: Option<string>): (r: Outcome<int>)
    ensures r.Thrown? ==> r.error == NumberFormatException
    ensures r.Returned? ==> s.Some? && parse(s.value) == Some(r.value)
    ensures s.Some? && parse(s.value).Some? ==> r == Returned(parse(s.value).value)
  {
    match s
    case None => Thrown(NumberFormatException)
    case Some(text) =>
      match parse(text)
      case None => Thrown(NumberFormatException)
      case Some(n) => Returned(n)
  }

  /** `getTimeStepSize`. */
  function GetTimeStepSize(context: AuthenticationContext, env: Environment): (r: Outcome<int>)
    reads context
    ensures r.Thrown? ==> r.error == NullPointerException || r.error == NumberFormatException
    ensures r.Returned? ==> exists s :: SelectedParameter(context, env, TIME_STEP_SIZE) == Returned(Some(s))
                                         && env.parseLong(s) == Some(r.value)
    ensures r == Thrown(NullPointerException) <==> SelectedParameter(context, env, TIME_STEP_SIZE).Thrown?
    ensures forall s :: SelectedParameter(context, env, TIME_STEP_SIZE) == Returned(Some(s)) && env.parseLong(s).Some?
                        ==> r == Returned(env.parseLong(s).value)
  {
    match SelectedParameter(context, env, TIME_STEP_SIZE)
    case Thrown(e) => Thrown(e)
    case Returned(s) => ParseNumber(env.parseLong, s)
  }

  /** `getWindowSize`. */
  function GetWindowSize(context: AuthenticationContext, env: Environment): (r: Outcome<int>)
    reads context
    ensures r.Thrown? ==> r.error == NullPointerException || r.error == NumberFormatException
    ensures r.Returned? ==> exists s :: SelectedParameter(context, env, WINDOW_SIZE) == Returned(Some(s))
                                         && env.parseInt(s) == Some(r.value)
    ensures r == Thrown(NullPointerException) <==> SelectedParameter(context, env, WINDOW_SIZE).Thrown?
    ensures forall s :: SelectedParameter(context, env, WINDOW_SIZE) == Returned(Some(s)) && env.parseInt(s).Some?
                        ==> r == Returned(env.parseInt(s).value)
  {
    match SelectedParameter(context, env, WINDOW_SIZE)
    case Thrown(e) => Thrown(e)
    case Returned(s) => ParseNumber(env.parseInt, s)
  }

  /** ASCII upper-casing, which is all `equalsIgnoreCase` needs to compare against "true". */
  function ToUpper(c: char): char
  {
    if 'a' <= c <= 'z' then (c as int - 32) as char else c
  }

  /** `String.equalsIgnoreCase`, with the case folding restricted to ASCII. */
  predicate EqualsIgnoreCase(a: string, b: string)
  {
    |a| == |b| && forall i :: 0 <= i < |a| ==> ToUpper(a[i]) == ToUpper(b[i])
  }

  /** `Boolean.parseBoolean`: null is false; otherwise "true" ignoring case. */
  predicate ParseBoolean(s: Option<string>)
  {
    s.Some? && EqualsIgnoreCase(s.value, "true")
  }

  /** `getTOTPEnableInAuthenticationFlow`: parsing a boolean never throws, only the property lookup does. */
  function GetTOTPEnableInAuthenticationFlow(context: AuthenticationContext, env: Environment): (r: Outcome<bool>)
    reads context
    ensures r.Thrown? <==> SelectedParameter(context, env, ENABLE_TOTP_IN_AUTHENTICATIONFLOW).Thrown?
    ensures r.Thrown? ==> r.error == NullPointerException
  {
    match SelectedParameter(context, env, ENABLE_TOTP_IN_AUTHENTICATIONFLOW)
    case Thrown(e) => Thrown(e)
    case Returned(s) => Returned(ParseBoolean(s))
  }

  // ---------------------------------------------------------------------
  // Redirect and user realm

  /** The query string of the enrolment prompt's URL. */
  function EnableTotpQuery(contextIdentifier: string): string
  {
    "sessionDataKey=" + contextIdentifier + "&authenticators=" + AUTHENTICATOR_NAME + "&type=totp"
  }

  /** The relative URL of the enrolment prompt for one session. */
  function EnableTotpRequestUrl(contextIdentifier: string): string
  {
    ENABLE_TOTP_REQUEST_PAGE + "?" + EnableTotpQuery(contextIdentifier)
  }

  /**
   * `redirectToEnableTOTPReqPage`, up to the relative URL it redirects to:
   * it redirects exactly when the enable flag reads true.
   */
  function RedirectToEnableTOTPReqPage(context: AuthenticationContext, env: Environment): (r: Outcome<string>)
    reads context
    ensures r.Returned? <==> GetTOTPEnableInAuthenticationFlow(context, env) == Returned(true)
    ensures GetTOTPEnableInAuthenticationFlow(context, env) == Returned(false) <==>
      r == Thrown(AuthenticationFailedException("Error while getting value for EnableTOTPInAuthenticationFlow", None))
    ensures r.Returned? ==> r.value == EnableTotpRequestUrl(context.contextIdentifier)
    ensures GetTOTPEnableInAuthenticationFlow(context, env).Thrown? ==>
              r == Thrown(GetTOTPEnableInAuthenticationFlow(context, env).error)
  {
    match GetTOTPEnableInAuthenticationFlow(context, env)
    case Thrown(e) => Thrown(e)
    case Returned(enabled) =>
      if enabled then Returned(EnableTotpRequestUrl(context.contextIdentifier))
      else Thrown(AuthenticationFailedException("Error while getting value for EnableTOTPInAuthenticationFlow", None))
  }

  /** `getUserRealm`: a null user name has no realm; a directory failure names the user. */
  function GetUserRealm(username: Option<string>, env: Environment): (r: Outcome<Option<nat>>)
    ensures username.None? ==> r == Returned(None)
    ensures r.Thrown? <==>
              username.Some? && env.realmOf(env.tenantIdOf(env.tenantDomainOfUser(username.value))) == StoreFailure
    ensures r.Thrown? ==>
              && username.Some?
              && r.error == AuthenticationFailedException("Cannot find the user realm for the username: " + username.value,
                                                          Some(UserStoreException))
    ensures username.Some? && env.realmOf(env.tenantIdOf(env.tenantDomainOfUser(username.value))).Realm? ==>
              r == Returned(Some(env.realmOf(env.tenantIdOf(env.tenantDomainOfUser(username.value))).handle))
    ensures r.Returned? && r.value.Some? ==>
      username.Some? && env.realmOf(env.tenantIdOf(env.tenantDomainOfUser(username.value))) == Realm(r.value.value)
  {
    match username
    case None => Returned(None)
    case Some(name) =>
      match env.realmOf(env.tenantIdOf(env.tenantDomainOfUser(name)))
      case Realm(handle) => Returned(Some(handle))
      case NoRealm => Returned(None)
      case StoreFailure =>
        Thrown(AuthenticationFailedException("Cannot find the user realm for the username: " + name,
                                             Some(UserStoreException)))
  }
}
