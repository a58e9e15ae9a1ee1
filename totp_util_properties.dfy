/**
 * Properties of the resolver that relate several operations or characterise
 * a specification function by an independent description.
 */
module TotpUtilProperties {
  import opened Wrappers
  import opened Dom
  import opened TotpConstants
  import opened TotpUtil

  // ---------------------------------------------------------------------
  // Registry scan

  predicate NoEncodingParameterAfter(children: seq<Node>, j: int)
    requires 0 <= j < |children|
  {
    forall k :: j < k < |children| ==> !IsEncodingParameter(children[k])
  }

  /** Within the chosen configuration the LAST `encodingMethod` child wins, untrimmed; none gives null. */
  lemma {:induction false} LastEncodingTextIsLastMatch(children: seq<Node>)
    ensures (forall j :: 0 <= j < |children| ==> !IsEncodingParameter(children[j])) ==> LastEncodingText(children) == None
    ensures forall j :: 0 <= j < |children| && IsEncodingParameter(children[j]) && NoEncodingParameterAfter(children, j)
                        ==> LastEncodingText(children) == Some(TextContent(children[j]))
  {
    if children != [] {
      var n := |children| - 1;
      var prefix := children[..n];
      LastEncodingTextIsLastMatch(prefix);
      if !IsEncodingParameter(children[n]) {
        assert forall j :: 0 <= j < n ==> prefix[j] == children[j];
        forall j | 0 <= j < |children| && IsEncodingParameter(children[j]) && NoEncodingParameterAfter(children, j)
          ensures LastEncodingText(children) == Some(TextContent(children[j]))
        {
          assert j < n;
          assert NoEncodingParameterAfter(prefix, j);
        }
      }
    }
  }

  predicate NoTotpConfigBefore(configs: seq<Node>, i: int)
    requires i <= |configs|
  {
    forall k :: 0 <= k < i ==> !IsTotpConfig(configs[k])
  }

  /** Only the FIRST `AuthenticatorConfig` named after the authenticator is examined; none gives null. */
  lemma {:induction false} ConfigScanTakesFirstMatch(configs: seq<Node>)
    ensures (forall i :: 0 <= i < |configs| ==> !IsTotpConfig(configs[i])) ==> ConfigScan(configs) == Returned(None)
    ensures forall i :: 0 <= i < |configs| && IsTotpConfig(configs[i]) && NoTotpConfigBefore(configs, i)
                        ==> ConfigScan(configs) == ParameterScan(configs[i].children)
  {
    if configs != [] && !IsTotpConfig(configs[0]) {
      var rest := configs[1..];
      ConfigScanTakesFirstMatch(rest);
      forall i | 0 <= i < |configs| && IsTotpConfig(configs[i]) && NoTotpConfigBefore(configs, i)
        ensures ConfigScan(configs) == ParameterScan(configs[i].children)
      {
        assert 0 < i && rest[i - 1] == configs[i];
        assert NoTotpConfigBefore(rest, i - 1) by {
          forall k | 0 <= k < i - 1 ensures !IsTotpConfig(rest[k]) { assert rest[k] == configs[k + 1]; }
        }
      }
      if forall i :: 0 <= i < |configs| ==> !IsTotpConfig(configs[i]) {
        assert forall i :: 0 <= i < |rest| ==> rest[i] == configs[i + 1];
      }
    }
  }

  /** A child element without a `name` attribute anywhere in the chosen configuration aborts the scan. */
  lemma UnnamedChildThrows(children: seq<Node>, j: int)
    requires 0 <= j < |children| && Unnamed(children[j])
    ensures ParameterScan(children) == Thrown(NullPointerException)
  {
  }

  /** A document whose totp configuration holds two `encodingMethod` parameters: the later one is returned. */
  lemma LaterParameterOverridesEarlier()
    ensures
      var first := Element("Parameter", map[NAME := ENCODING_METHOD], [Text("Base64")]);
      var second := Element("Parameter", map[NAME := ENCODING_METHOD], [Text("Base32")]);
      var config := Element(AUTHENTICATOR_CONFIG, map[NAME := AUTHENTICATOR_NAME], [first, Comment("note"), second]);
      DocumentScan(Document(Element("AuthenticatorConfigs", map[], [config]))) == Returned(Some("Base32"))
  {
    var first := Element("Parameter", map[NAME := ENCODING_METHOD], [Text("Base64")]);
    var second := Element("Parameter", map[NAME := ENCODING_METHOD], [Text("Base32")]);
    var config := Element(AUTHENTICATOR_CONFIG, map[NAME := AUTHENTICATOR_NAME], [first, Comment("note"), second]);
    var root := Element("AuthenticatorConfigs", map[], [config]);
    assert ElementsByTagName(config.children, AUTHENTICATOR_CONFIG) == [] by {
      assert ElementsByTagName([second], AUTHENTICATOR_CONFIG) == [];
      assert ElementsByTagName([Comment("note"), second], AUTHENTICATOR_CONFIG) == [];
    }
    assert ElementsByTagName([config], AUTHENTICATOR_CONFIG) == [config];
    assert ElementsByTagName([root], AUTHENTICATOR_CONFIG) == ElementsByTagName([config], AUTHENTICATOR_CONFIG);
    assert DocumentElementsByTagName(Document(root), AUTHENTICATOR_CONFIG) == [config];
    assert TextContent(second) == "Base32";
    LastEncodingTextIsLastMatch(config.children);
  }

  // ---------------------------------------------------------------------
  // Encoding method

  /** For the super tenant both overloads read the file configuration and agree, whatever the session holds. */
  lemma SuperTenantOverloadsAgree(context: AuthenticationContext, env: Environment)
    ensures GetEncodingMethodWithContext(SUPER_TENANT_DOMAIN, context, env)
            == EncodingMethodOfTenant(SUPER_TENANT_DOMAIN, env)
            == Returned(NormalizeEncoding(ValueOf(FileEncodingMethod(env))))
  {
  }

  /**
   * An absent value in whichever map is consulted normalises to Base64,
   * because `String.valueOf(null)` is "null": the file configuration for the
   * super tenant (both overloads), the identity helper after a registry miss
   * (context-less overload), and the identity helper under the hint (context
   * overload).
   */
  lemma MissingEncodingIsBase64(tenantDomain: string, context: AuthenticationContext, env: Environment)
    ensures tenantDomain == SUPER_TENANT_DOMAIN && FileEncodingMethod(env).None? ==>
              && EncodingMethodOfTenant(tenantDomain, env) == Returned(BASE64)
              && GetEncodingMethodWithContext(tenantDomain, context, env) == Returned(BASE64)
    ensures && tenantDomain != SUPER_TENANT_DOMAIN && HelperEncodingMethod(env).None?
            && (|| RegistryGet(tenantDomain, env) == RegistryException
                || (&& RegistryGet(tenantDomain, env).Content?
                    && RegistryGet(tenantDomain, env).content.Parsed?
                    && var scan := DocumentScan(RegistryGet(tenantDomain, env).content.document);
                       scan.Returned? && IsEmpty(scan.value)))
            ==> EncodingMethodOfTenant(tenantDomain, env) == Returned(BASE64)
    ensures && tenantDomain != SUPER_TENANT_DOMAIN && HelperEncodingMethod(env).None?
            && GET_PROPERTY_FROM_IDENTITY_CONFIG in context.properties
            ==> GetEncodingMethodWithContext(tenantDomain, context, env) == Returned(BASE64)
  {
  }

  /** A non-empty registry value takes precedence over the identity helper. */
  lemma RegistryValuePrecedesHelper(tenantDomain: string, env: Environment, doc: Document, s: string)
    requires tenantDomain != SUPER_TENANT_DOMAIN
    requires RegistryGet(tenantDomain, env) == Content(Parsed(doc))
    requires DocumentScan(doc) == Returned(Some(s)) && s != ""
    ensures EncodingMethodOfTenant(tenantDomain, env) == Returned(NormalizeEncoding(s))
  {
  }

  /** A registry failure, a missing parameter or an empty one falls back to the identity helper. */
  lemma RegistryMissFallsBackToHelper(tenantDomain: string, env: Environment)
    requires tenantDomain != SUPER_TENANT_DOMAIN
    requires || RegistryGet(tenantDomain, env) == RegistryException
             || (&& RegistryGet(tenantDomain, env).Content?
                 && RegistryGet(tenantDomain, env).content.Parsed?
                 && var scan := DocumentScan(RegistryGet(tenantDomain, env).content.document);
                    scan.Returned? && IsEmpty(scan.value))
    ensures EncodingMethodOfTenant(tenantDomain, env) == Returned(NormalizeEncoding(ValueOf(HelperEncodingMethod(env))))
  {
  }

  /**
   * The context-less overload fails exactly in these cases: the registry
   * document cannot be parsed (wrapped as an authentication failure); the
   * registry or the resource content is null, or the chosen configuration
   * has an unnamed child (a null dereference that escapes unwrapped); the
   * content is not a byte array (a class cast failure, also unwrapped).
   */
  lemma EncodingMethodOfTenantFailures(tenantDomain: string, env: Environment)
    ensures var r := EncodingMethodOfTenant(tenantDomain, env);
            var answer := RegistryGet(tenantDomain, env);
            && (r.Thrown? && r.error.AuthenticationFailedException? <==>
                  tenantDomain != SUPER_TENANT_DOMAIN && answer.Content? && IsParserFailure(answer.content))
            && (r == Thrown(NullPointerException) <==>
                  && tenantDomain != SUPER_TENANT_DOMAIN
                  && (|| answer == RegistryIsNull
                      || answer == Content(NullContent)
                      || (answer.Content? && answer.content.Parsed? && DocumentScan(answer.content.document).Thrown?)))
            && (r == Thrown(ClassCastException) <==>
                  tenantDomain != SUPER_TENANT_DOMAIN && answer == Content(NonByteContent))
  {
  }

  /**
   * A session that carries the identity-config hint gets, from the context
   * overload, the answer the context-less overload gives for a tenant whose
   * registry read fails: both use the identity helper's value.  The registry
   * reader's own session branch sets that hint, but within this file the
   * reader is only ever called without a session, so there the hint comes
   * from elsewhere in the framework.
   */
  lemma HintedSessionAgreesWithRegistryFallback(tenantDomain: string, context: AuthenticationContext, env: Environment)
    requires tenantDomain != SUPER_TENANT_DOMAIN
    requires RegistryGet(tenantDomain, env) == RegistryException
    requires GET_PROPERTY_FROM_IDENTITY_CONFIG in context.properties
    ensures GetEncodingMethodWithContext(tenantDomain, context, env) == EncodingMethodOfTenant(tenantDomain, env)
  {
  }

  // ---------------------------------------------------------------------
  // Parameter getters

  predicate AgreeOn(m1: map<string, string>, m2: map<string, string>, key: string)
  {
    Lookup(m1, key) == Lookup(m2, key)
  }

  /** The getters read only the tenant, the registry hint, the `authentication` name and their own key. */
  lemma SelectedParameterReadsOnlyItsKeys(c1: AuthenticationContext, c2: AuthenticationContext, env: Environment, key: string)
    requires c1.tenantDomain == c2.tenantDomain
    requires AgreeOn(c1.properties, c2.properties, GET_PROPERTY_FROM_REGISTRY)
    requires AgreeOn(c1.properties, c2.properties, AUTHENTICATION)
    requires AgreeOn(c1.properties, c2.properties, key)
    ensures SelectedParameter(c1, env, key) == SelectedParameter(c2, env, key)
  {
  }

  /**
   * The hint a registry failure leaves on a session does not steer the time
   * step, window or enable-flag getters: they consult a different hint.
   */
  lemma IdentityConfigHintLeavesParametersUnchanged(c1: AuthenticationContext, c2: AuthenticationContext, env: Environment)
    requires c1.tenantDomain == c2.tenantDomain
    requires c2.properties == c1.properties[GET_PROPERTY_FROM_IDENTITY_CONFIG := GET_PROPERTY_FROM_IDENTITY_CONFIG]
    ensures GetTimeStepSize(c1, env) == GetTimeStepSize(c2, env)
    ensures GetWindowSize(c1, env) == GetWindowSize(c2, env)
    ensures GetTOTPEnableInAuthenticationFlow(c1, env) == GetTOTPEnableInAuthenticationFlow(c2, env)
  {
    var hint := GET_PROPERTY_FROM_IDENTITY_CONFIG;
    assert hint != GET_PROPERTY_FROM_REGISTRY && hint != AUTHENTICATION by { assert hint[3] == 'P'; }
    assert hint != TIME_STEP_SIZE && hint != WINDOW_SIZE && hint != ENABLE_TOTP_IN_AUTHENTICATIONFLOW by { assert hint[0] == 'g'; }
    SelectedParameterReadsOnlyItsKeys(c1, c2, env, TIME_STEP_SIZE);
    SelectedParameterReadsOnlyItsKeys(c1, c2, env, WINDOW_SIZE);
    SelectedParameterReadsOnlyItsKeys(c1, c2, env, ENABLE_TOTP_IN_AUTHENTICATIONFLOW);
  }

  /** The sixteen case variants of "true". */
  function TrueSpellings(): set<string>
  {
    set a, b, c, d | a in "tT" && b in "rR" && c in "uU" && d in "eE" :: [a, b, c, d]
  }

  lemma ToUpperIs(c: char, lower: char)
    requires 'a' <= lower <= 'z'
    ensures ToUpper(c) == ToUpper(lower) <==> c == lower || c as int == lower as int - 32
  {
  }

  /** `Boolean.parseBoolean` accepts exactly the case variants of "true". */
  lemma {:induction false} ParseBooleanAcceptsTrueIgnoringCase(s: string)
    ensures ParseBoolean(Some(s)) <==> s in TrueSpellings()
  {
    var t := "true";
    if ParseBoolean(Some(s)) {
      assert |s| == 4;
      forall i | 0 <= i < 4 ensures s[i] == t[i] || s[i] as int == t[i] as int - 32 {
        assert ToUpper(s[i]) == ToUpper(t[i]);
        ToUpperIs(s[i], t[i]);
      }
      assert s[0] in "tT" && s[1] in "rR" && s[2] in "uU" && s[3] in "eE";
      assert s == [s[0], s[1], s[2], s[3]];
    }
    if s in TrueSpellings() {
      var a, b, c, d :| a in "tT" && b in "rR" && c in "uU" && d in "eE" && s == [a, b, c, d];
      forall i | 0 <= i < 4 ensures ToUpper(s[i]) == ToUpper(t[i]) {
        ToUpperIs(s[i], t[i]);
      }
    }
  }

  /** The enable flag is true exactly when the chosen string is a case variant of "true". */
  lemma EnableFlagIsTrueIgnoringCase(context: AuthenticationContext, env: Environment)
    ensures GetTOTPEnableInAuthenticationFlow(context, env) == Returned(true) <==>
            exists s :: SelectedParameter(context, env, ENABLE_TOTP_IN_AUTHENTICATIONFLOW) == Returned(Some(s))
                        && s in TrueSpellings()
  {
    var sel := SelectedParameter(context, env, ENABLE_TOTP_IN_AUTHENTICATIONFLOW);
    if sel.Returned? && sel.value.Some? {
      ParseBooleanAcceptsTrueIgnoringCase(sel.value.value);
    }
  }

  // ---------------------------------------------------------------------
  // Redirect URL

  /** Splitting on a separator, keeping empty fields, as a reader of the URL would. */
  function Split(s: string, sep: char): (parts: seq<string>)
    ensures |parts| >= 1
    ensures forall i :: 0 <= i < |parts| ==> sep !in parts[i]
  {
    if s == [] then [""]
    else
      var rest := Split(s[1..], sep);
      if s[0] == sep then [""] + rest else [[s[0]] + rest[0]] + rest[1..]
  }

  lemma {:induction false} SplitWithoutSeparator(a: string, sep: char)
    requires sep !in a
    ensures Split(a, sep) == [a]
  {
    if a != [] {
      SplitWithoutSeparator(a[1..], sep);
      assert [a[0]] + a[1..] == a;
    }
  }

  lemma {:induction false} SplitAtSeparator(a: string, sep: char, b: string)
    requires sep !in a
    ensures Split(a + [sep] + b, sep) == [a] + Split(b, sep)
  {
    if a != [] {
      assert (a + [sep] + b)[1..] == a[1..] + [sep] + b;
      SplitAtSeparator(a[1..], sep, b);
      assert [a[0]] + a[1..] == a;
    }
  }

  lemma QuerySplitsIntoThreeParameters(contextIdentifier: string)
    requires '&' !in contextIdentifier
    ensures Split(EnableTotpQuery(contextIdentifier), '&')
            == ["sessionDataKey=" + contextIdentifier, "authenticators=" + AUTHENTICATOR_NAME, "type=totp"]
  {
    var key := "sessionDataKey=" + contextIdentifier;
    var name := "authenticators=" + AUTHENTICATOR_NAME;
    var tail := "type=totp";
    assert EnableTotpQuery(contextIdentifier) == key + ['&'] + (name + ['&'] + tail);
    assert '&' !in name && '&' !in tail;
    SplitAtSeparator(key, '&', name + ['&'] + tail);
    SplitAtSeparator(name, '&', tail);
    SplitWithoutSeparator(tail, '&');
  }

  /**
   * The redirect's URL is the enrolment page followed by one query string,
   * and that query string holds exactly the session key, the authenticator's
   * name and `type=totp`, for a session identifier free of the URL's
   * delimiters.
   */
  lemma EnableTotpRequestUrlQuery(contextIdentifier: string)
    requires '?' !in contextIdentifier && '&' !in contextIdentifier
    ensures Split(EnableTotpRequestUrl(contextIdentifier), '?') == [ENABLE_TOTP_REQUEST_PAGE, EnableTotpQuery(contextIdentifier)]
    ensures Split(EnableTotpQuery(contextIdentifier), '&')
            == ["sessionDataKey=" + contextIdentifier, "authenticators=" + AUTHENTICATOR_NAME, "type=totp"]
  {
    var query := EnableTotpQuery(contextIdentifier);
    assert EnableTotpRequestUrl(contextIdentifier) == ENABLE_TOTP_REQUEST_PAGE + ['?'] + query;
    assert '?' !in ENABLE_TOTP_REQUEST_PAGE;
    assert '?' !in query;
    SplitAtSeparator(ENABLE_TOTP_REQUEST_PAGE, '?', query);
    SplitWithoutSeparator(query, '?');
    QuerySplitsIntoThreeParameters(contextIdentifier);
  }
}
