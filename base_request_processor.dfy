/**
 * BaseRequestProcessor: the configuration cache every processor shares,
 * and the derivation of TLS and credential options from the configuration.
 */
module BaseRequest {
  import opened Wrappers
  import opened JsValues
  import opened Interfaces
  import opened KubeConfigs
  import opened Requests

  /** The options after derivation, and the error that stopped it part-way (if any). */
  datatype Applied = Applied(options: OptionsValue, error: Option<Error>)

  const UNDEFINED_CLUSTER := TypeError("Cannot read property 'cluster' of undefined")
  const UNDEFINED_USER := TypeError("Cannot read property 'user' of undefined")

  /**
   * Inline `*-data` wins over a file path; the field keeps its value when
   * neither is set; a file that cannot be read is an error.
   */
  ghost predicate DataOverFile(data: Option<string>, file: Option<string>, host: Host, before: Option<Pem>, after: Option<Pem>) {
    && (Truthy(data) ==> after == Some(Base64Decoded(data.value)))
    && (!Truthy(data) && Truthy(file) ==> file.value in host.files && after == Some(FileContents(host.files[file.value])))
    && (!Truthy(data) && !Truthy(file) ==> after == before)
  }

  /** The file one of the `*-data` / file pairs needs but cannot read. */
  predicate MissingFile(data: Option<string>, file: Option<string>, host: Host) {
    !Truthy(data) && Truthy(file) && file.value !in host.files
  }

  /** One TLS field: base64 data, else the file's contents, else unchanged. */
  function Material(data: Option<string>, file: Option<string>, host: Host, current: Option<Pem>): (r: Result<Option<Pem>, Error>)
    ensures r.Failure? <==> MissingFile(data, file, host)
    ensures r.Failure? ==> r.error == FileNotFound(file.value)
    ensures r.Success? ==> DataOverFile(data, file, host, current, r.value)
  {
    if Truthy(data) then Success(Some(Base64Decoded(data.value)))
    else if Truthy(file) then
      match ReadFile(host, file.value)
      case Failure(e) => Failure(e)
      case Success(contents) => Success(Some(FileContents(contents)))
    else Success(current)
  }

  /** `headers` with one more entry, creating the record when it is absent. */
  function WithHeader(headers: Option<map<string, string>>, name: string, value: string): (r: map<string, string>)
    ensures name in r && r[name] == value
    ensures headers.Some? ==> forall k :: k in headers.value && k != name ==> k in r && r[k] == headers.value[k]
    ensures headers.Some? ==> r.Keys == headers.value.Keys + {name}
    ensures headers.None? ==> r.Keys == {name}
  {
    (if headers.Some? then headers.value else map[])[name := value]
  }

  /** The three TLS fields of the request options. */
  datatype TlsField = CaField | CertField | KeyField

  function PemOf(o: OptionsValue, f: TlsField): Option<Pem> {
    match f
    case CaField => o.ca
    case CertField => o.cert
    case KeyField => o.key
  }

  function WithPem(o: OptionsValue, f: TlsField, v: Option<Pem>): (r: OptionsValue)
    ensures PemOf(r, f) == v
    ensures forall g :: g != f ==> PemOf(r, g) == PemOf(o, g)
    ensures r.url == o.url && r.httpMethod == o.httpMethod && r.qs == o.qs && r.headers == o.headers
    ensures r.body == o.body && r.json == o.json && r.rejectUnauthorized == o.rejectUnauthorized && r.auth == o.auth
  {
    match f
    case CaField => o.(ca := v)
    case CertField => o.(cert := v)
    case KeyField => o.(key := v)
  }

  /** One TLS step: the field set from its material, or the error that stops derivation. */
  function PemStep(o: OptionsValue, f: TlsField, data: Option<string>, file: Option<string>, host: Host): (r: Applied)
    ensures r.error.Some? <==> MissingFile(data, file, host)
    ensures r.error.Some? ==> r == Applied(o, Some(FileNotFound(file.value)))
    ensures r.error.None? ==>
      && DataOverFile(data, file, host, PemOf(o, f), PemOf(r.options, f))
      && r.options == WithPem(o, f, PemOf(r.options, f))
  {
    match Material(data, file, host, PemOf(o, f))
    case Failure(e) => Applied(o, Some(e))
    case Success(v) => Applied(WithPem(o, f, v), None)
  }

  /** Everything but the three TLS fields is the same. */
  predicate KeepsNonTls(a: OptionsValue, b: OptionsValue) {
    && a.url == b.url && a.httpMethod == b.httpMethod && a.qs == b.qs && a.headers == b.headers
    && a.body == b.body && a.json == b.json && a.rejectUnauthorized == b.rejectUnauthorized && a.auth == b.auth
  }

  /** Every derivation step that touches a field succeeded. */
  predicate Derivable(user: Option<KubeConfigUser>, cluster: Option<KubeConfigCluster>, host: Host) {
    && cluster.Some? && user.Some?
    && !MissingFile(cluster.value.spec.certificateAuthorityData, cluster.value.spec.certificateAuthority, host)
    && !MissingFile(user.value.spec.clientCertificateData, user.value.spec.clientCertificate, host)
    && !MissingFile(user.value.spec.clientKeyData, user.value.spec.clientKey, host)
  }

  /**
   * The steps of `updateRequestOptions` that can fail, in the source's order:
   * the cluster's `ca`, then the user's `cert` and `key`.
   */
  function TlsStep(o: OptionsValue, user: Option<KubeConfigUser>, cluster: Option<KubeConfigCluster>, host: Host): (r: Applied)
    ensures r.error.None? <==> Derivable(user, cluster, host)
    ensures KeepsNonTls(o, r.options)
    ensures cluster.None? ==> r == Applied(o, Some(UNDEFINED_CLUSTER))
    ensures (cluster.Some? && user.None? &&
             !MissingFile(cluster.value.spec.certificateAuthorityData, cluster.value.spec.certificateAuthority, host))
      ==> r.error == Some(UNDEFINED_USER)
    ensures r.error.None? ==>
      var c := cluster.value.spec;
      var u := user.value.spec;
      && DataOverFile(c.certificateAuthorityData, c.certificateAuthority, host, o.ca, r.options.ca)
      && DataOverFile(u.clientCertificateData, u.clientCertificate, host, o.cert, r.options.cert)
      && DataOverFile(u.clientKeyData, u.clientKey, host, o.key, r.options.key)
  {
    if cluster.None? then Applied(o, Some(UNDEFINED_CLUSTER))
    else
      var c := cluster.value.spec;
      var a1 := PemStep(o, CaField, c.certificateAuthorityData, c.certificateAuthority, host);
      if a1.error.Some? then a1
      else if user.None? then Applied(a1.options, Some(UNDEFINED_USER))
      else
        var u := user.value.spec;
        var a2 := PemStep(a1.options, CertField, u.clientCertificateData, u.clientCertificate, host);
        if a2.error.Some? then a2
        else PemStep(a2.options, KeyField, u.clientKeyData, u.clientKey, host)
  }

  /** The steps that cannot fail: the bearer header, TLS verification, basic auth. */
  function CredentialStep(o: OptionsValue, u: UserSpec, c: ClusterSpec): (r: OptionsValue)
    ensures r.url == o.url && r.httpMethod == o.httpMethod && r.qs == o.qs && r.body == o.body && r.json == o.json
    ensures r.ca == o.ca && r.cert == o.cert && r.key == o.key
    ensures Truthy(u.token) ==> r.headers == Some(WithHeader(o.headers, "Authorization", "Bearer " + u.token.value))
    ensures !Truthy(u.token) ==> r.headers == o.headers
    ensures TruthyBool(c.insecureSkipTlsVerify) ==> r.rejectUnauthorized == Some(false)
    ensures !TruthyBool(c.insecureSkipTlsVerify) ==> r.rejectUnauthorized == o.rejectUnauthorized
    ensures r.auth != o.auth ==> Truthy(u.username) && Truthy(u.password)
    ensures Truthy(u.username) && Truthy(u.password) ==> r.auth == Some(Credentials(u.username.value, u.password.value))
  {
    var o4 := if Truthy(u.token) then o.(headers := Some(WithHeader(o.headers, "Authorization", "Bearer " + u.token.value))) else o;
    var o5 := if TruthyBool(c.insecureSkipTlsVerify) then o4.(rejectUnauthorized := Some(false)) else o4;
    if Truthy(u.username) && Truthy(u.password)
    then o5.(auth := Some(Credentials(u.username.value, u.password.value)))
    else o5
  }

  /**
   * `updateRequestOptions` as a function of the options before it runs, the
   * configuration's user and cluster, and the host's files.
   */
  function Derive(o: OptionsValue, user: Option<KubeConfigUser>, cluster: Option<KubeConfigCluster>, host: Host): (r: Applied)
    ensures r.options.url == o.url && r.options.httpMethod == o.httpMethod && r.options.qs == o.qs
    ensures r.options.body == o.body && r.options.json == o.json
    ensures r.error.None? <==> Derivable(user, cluster, host)
  {
    var t := TlsStep(o, user, cluster, host);
    if t.error.Some? then t else Applied(CredentialStep(t.options, user.value.spec, cluster.value.spec), None)
  }

  /**
   * What derivation promises: the request line, query and body are kept; it
   * fails exactly when the user or cluster is unset or a needed file is
   * missing, and then attaches no credentials; otherwise every TLS field
   * prefers inline data over a file, a token sets the Authorization header
   * beside the other headers, insecure TLS turns certificate checks off, and
   * basic auth needs both username and password.
   */
  lemma DeriveFollowsPrecedence(o: OptionsValue, user: Option<KubeConfigUser>, cluster: Option<KubeConfigCluster>, host: Host)
    ensures var r := Derive(o, user, cluster, host);
      && r.options.url == o.url && r.options.httpMethod == o.httpMethod && r.options.qs == o.qs
      && r.options.body == o.body && r.options.json == o.json
      && (r.error.None? <==> Derivable(user, cluster, host))
      && (cluster.None? ==> r == Applied(o, Some(UNDEFINED_CLUSTER)))
      && ((cluster.Some? && user.None? &&
           !MissingFile(cluster.value.spec.certificateAuthorityData, cluster.value.spec.certificateAuthority, host))
          ==> r.error == Some(UNDEFINED_USER))
      && (r.error.Some? ==>
            r.options.headers == o.headers && r.options.rejectUnauthorized == o.rejectUnauthorized && r.options.auth == o.auth)
    ensures var r := Derive(o, user, cluster, host);
      r.error.None? ==>
        var c := cluster.value.spec;
        var u := user.value.spec;
        && DataOverFile(c.certificateAuthorityData, c.certificateAuthority, host, o.ca, r.options.ca)
        && DataOverFile(u.clientCertificateData, u.clientCertificate, host, o.cert, r.options.cert)
        && DataOverFile(u.clientKeyData, u.clientKey, host, o.key, r.options.key)
        && (Truthy(u.token) ==> r.options.headers == Some(WithHeader(o.headers, "Authorization", "Bearer " + u.token.value)))
        && (!Truthy(u.token) ==> r.options.headers == o.headers)
        && (TruthyBool(c.insecureSkipTlsVerify) ==> r.options.rejectUnauthorized == Some(false))
        && (!TruthyBool(c.insecureSkipTlsVerify) ==> r.options.rejectUnauthorized == o.rejectUnauthorized)
        && (r.options.auth != o.auth ==> Truthy(u.username) && Truthy(u.password))
        && (Truthy(u.username) && Truthy(u.password) ==> r.options.auth == Some(Credentials(u.username.value, u.password.value)))
  {
  }

  /** Derivation keeps what the request itself says: its URL, method, query, body, JSON mode and any content type. */
  lemma DeriveKeepsRequest(o: OptionsValue, user: Option<KubeConfigUser>, cluster: Option<KubeConfigCluster>, host: Host)
    ensures var r := Derive(o, user, cluster, host).options;
      && r.url == o.url && r.httpMethod == o.httpMethod && r.qs == o.qs && r.body == o.body && r.json == o.json
      && (o.headers.Some? && "content-type" in o.headers.value ==>
            r.headers.Some? && "content-type" in r.headers.value && r.headers.value["content-type"] == o.headers.value["content-type"])
  {
    DeriveFollowsPrecedence(o, user, cluster, host);
  }

  /** Whether and how derivation fails depends on the configuration and the files alone, not on the options. */
  lemma DeriveErrorIgnoresOptions(o1: OptionsValue, o2: OptionsValue, user: Option<KubeConfigUser>, cluster: Option<KubeConfigCluster>, host: Host)
    ensures Derive(o1, user, cluster, host).error == Derive(o2, user, cluster, host).error
  {
  }

  /** Material already taken from a pair is taken again unchanged. */
  lemma MaterialIsStable(data: Option<string>, file: Option<string>, host: Host, before: Option<Pem>, current: Option<Pem>)
    requires Material(data, file, host, before).Success? && current == Material(data, file, host, before).value
    ensures Material(data, file, host, current) == Success(current)
  {
  }

  /** The TLS steps leave options alone whose TLS fields they already derived. */
  lemma TlsStepIsStable(before: OptionsValue, o: OptionsValue, user: Option<KubeConfigUser>, cluster: Option<KubeConfigCluster>, host: Host)
    requires Derivable(user, cluster, host)
    requires var t := TlsStep(before, user, cluster, host).options; o.ca == t.ca && o.cert == t.cert && o.key == t.key
    ensures TlsStep(o, user, cluster, host) == Applied(o, None)
  {
    var c := cluster.value.spec;
    var u := user.value.spec;
    var a1 := PemStep(before, CaField, c.certificateAuthorityData, c.certificateAuthority, host);
    var a2 := PemStep(a1.options, CertField, u.clientCertificateData, u.clientCertificate, host);
    MaterialIsStable(c.certificateAuthorityData, c.certificateAuthority, host, before.ca, o.ca);
    MaterialIsStable(u.clientCertificateData, u.clientCertificate, host, a1.options.cert, o.cert);
    MaterialIsStable(u.clientKeyData, u.clientKey, host, a2.options.key, o.key);
  }

  lemma CredentialStepIsIdempotent(o: OptionsValue, u: UserSpec, c: ClusterSpec)
    ensures CredentialStep(CredentialStep(o, u, c), u, c) == CredentialStep(o, u, c)
  {
    if Truthy(u.token) {
      var h := WithHeader(o.headers, "Authorization", "Bearer " + u.token.value);
      assert WithHeader(Some(h), "Authorization", "Bearer " + u.token.value) == h;
    }
  }

  /** Deriving a second time from the same configuration changes nothing more. */
  lemma DeriveIsIdempotent(o: OptionsValue, user: Option<KubeConfigUser>, cluster: Option<KubeConfigCluster>, host: Host)
    requires Derive(o, user, cluster, host).error.None?
    ensures Derive(Derive(o, user, cluster, host).options, user, cluster, host) == Derive(o, user, cluster, host)
  {
    var t := TlsStep(o, user, cluster, host).options;
    var once := CredentialStep(t, user.value.spec, cluster.value.spec);
    TlsStepIsStable(o, once, user, cluster, host);
    CredentialStepIsIdempotent(t, user.value.spec, cluster.value.spec);
  }

  /** A bearer token and basic-auth credentials are not exclusive: a user with both gets both. */
  lemma BearerAndBasicAuthTogether(o: OptionsValue, user: KubeConfigUser, cluster: KubeConfigCluster, host: Host)
    requires Derivable(Some(user), Some(cluster), host)
    requires Truthy(user.spec.token) && Truthy(user.spec.username) && Truthy(user.spec.password)
    ensures var r := Derive(o, Some(user), Some(cluster), host).options;
      && r.headers.Some? && "Authorization" in r.headers.value
      && r.headers.value["Authorization"] == "Bearer " + user.spec.token.value
      && r.auth == Some(Credentials(user.spec.username.value, user.spec.password.value))
  {
  }

  /** A configuration whose cluster was never assigned makes every request fail with a TypeError. */
  lemma UnsetClusterRejects(o: OptionsValue, user: Option<KubeConfigUser>, host: Host)
    ensures Derive(o, user, None, host) == Applied(o, Some(UNDEFINED_CLUSTER))
  {
  }

  /** The `user` and `cluster` fields of a loaded configuration. */
  datatype Loaded = Loaded(user: Option<KubeConfigUser>, cluster: Option<KubeConfigCluster>)

  /** What `loadConfig` yields: the cached configuration when one is set, else a fresh load. */
  function Configuration(cached: Option<Loaded>, host: Host): (r: Result<Loaded, Error>)
    ensures cached.Some? ==> r == Success(cached.value)
    ensures cached.None? ==> (r.Success? <==> LoadSelection(host).Success?)
    ensures cached.None? && r.Success? ==>
      r.value == Loaded(Some(LoadSelection(host).value.user), Some(LoadSelection(host).value.cluster))
    ensures cached.None? && r.Failure? ==> r.error == LoadSelection(host).error
  {
    if cached.Some? then Success(cached.value)
    else match LoadSelection(host)
      case Success(s) => Success(Loaded(Some(s.user), Some(s.cluster)))
      case Failure(e) => Failure(e)
  }

  /** A configuration once loaded is cached: loading again yields the same one. */
  lemma ConfigurationIsCached(cached: Option<Loaded>, host: Host)
    requires Configuration(cached, host).Success?
    ensures Configuration(Some(Configuration(cached, host).value), host) == Configuration(cached, host)
  {
  }

  /** The cache after `loadConfig`: the loaded configuration, or still empty when loading failed. */
  function CachedAfter(cached: Option<Loaded>, host: Host): (r: Option<Loaded>)
    ensures cached.Some? ==> r == cached
    ensures Configuration(cached, host).Success? ==> r == Some(Configuration(cached, host).value)
    ensures Configuration(cached, host).Failure? ==> r.None?
  {
    match Configuration(cached, host)
    case Success(l) => Some(l)
    case Failure(_) => None
  }

  /** `updateRequestOptions` as a whole: load the configuration, then derive. */
  function Update(cfg: Result<Loaded, Error>, o: OptionsValue, host: Host): (r: Applied)
    ensures cfg.Failure? ==> r == Applied(o, Some(cfg.error))
    ensures cfg.Success? ==> r == Derive(o, cfg.value.user, cfg.value.cluster, host)
  {
    match cfg
    case Failure(e) => Applied(o, Some(e))
    case Success(l) => Derive(o, l.user, l.cluster, host)
  }

  /** `kc.cluster.cluster.server + path`, which throws when the cluster was never assigned. */
  function ServerUrl(l: Loaded, path: string): (r: Result<string, Error>)
    ensures r.Failure? <==> l.cluster.None?
    ensures r.Failure? ==> r.error == UNDEFINED_CLUSTER
    ensures r.Success? ==> r.value == l.cluster.value.spec.server + path
  {
    if l.cluster.None? then Failure(UNDEFINED_CLUSTER) else Success(l.cluster.value.spec.server + path)
  }

  /** The processor state shared by all request kinds: the cached configuration. */
  class BaseRequestProcessor {
    var kubeConfig: KubeConfig?

    constructor()
      ensures kubeConfig == null
    {
      kubeConfig := null;
    }

    /** `updateConfig`: replace the cached configuration. */
    method UpdateConfig(kubeConfig: KubeConfig)
      modifies this
      ensures this.kubeConfig == kubeConfig
    {
      this.kubeConfig := kubeConfig;
    }

    /** The cached configuration's fields, if one is cached. */
    function Cached(): Option<Loaded>
      reads this, kubeConfig
    {
      if kubeConfig == null then None else Some(Loaded(kubeConfig.user, kubeConfig.cluster))
    }

    /**
     * `loadConfig`: the cached configuration object itself when there is
     * one; otherwise a fresh configuration is loaded and cached, unless
     * loading fails.
     */
    method LoadConfig(host: Host) returns (r: Result<KubeConfig, Error>)
      modifies this
      ensures old(kubeConfig) != null ==> r == Success(old(kubeConfig)) && kubeConfig == old(kubeConfig)
      ensures old(kubeConfig) == null && r.Success? ==> fresh(r.value) && kubeConfig == r.value
      ensures Cached() == CachedAfter(old(Cached()), host)
      ensures var cfg := Configuration(old(Cached()), host);
        && (r.Success? <==> cfg.Success?)
        && (r.Success? ==> Loaded(r.value.user, r.value.cluster) == cfg.value)
        && (r.Failure? ==> r.error == cfg.error)
    {
      if kubeConfig != null {
        return Success(kubeConfig);
      }
      var kc := new KubeConfig();
      var err := kc.Load(host);
      if err.Some? {
        return Failure(err.value);
      }
      kubeConfig := kc;
      return Success(kc);
    }

    /**
     * `updateRequestOptions`: loads the configuration (from the cache when
     * set), then updates `options` in place field by field as `Derive` says.
     */
    method UpdateRequestOptions(options: RequestOptions, host: Host) returns (err: Option<Error>)
      modifies this, options
      ensures old(kubeConfig) != null ==> kubeConfig == old(kubeConfig)
      ensures old(kubeConfig) == null && kubeConfig != null ==> fresh(kubeConfig)
      ensures Cached() == CachedAfter(old(Cached()), host)
      ensures Applied(options.Value(), err) == Update(Configuration(old(Cached()), host), old(options.Value()), host)
    {
      var loaded := LoadConfig(host);
      if loaded.Failure? {
        return Some(loaded.error);
      }
      err := ApplyConfig(options, loaded.value, host);
    }

    /** One `*-data` / file pair: set the field from inline data or the file, or report the unreadable file. */
    method ApplyPem(options: RequestOptions, f: TlsField, data: Option<string>, file: Option<string>, host: Host)
      returns (err: Option<Error>)
      modifies options
      ensures var a := PemStep(old(options.Value()), f, data, file, host);
        options.Value() == a.options && err == a.error
    {
      if Truthy(data) {
        SetPem(options, f, Some(Base64Decoded(data.value)));
      } else if Truthy(file) {
        var contents := ReadFile(host, file.value);
        if contents.Failure? {
          return Some(contents.error);
        }
        SetPem(options, f, Some(FileContents(contents.value)));
      }
      return None;
    }

    method SetPem(options: RequestOptions, f: TlsField, v: Option<Pem>)
      modifies options
      ensures options.Value() == WithPem(old(options.Value()), f, v)
    {
      match f
      case CaField => options.ca := v;
      case CertField => options.cert := v;
      case KeyField => options.key := v;
    }

    /** The field-by-field part of `updateRequestOptions`, once the configuration is loaded. */
    method ApplyConfig(options: RequestOptions, kc: KubeConfig, host: Host) returns (err: Option<Error>)
      modifies options
      ensures var d := Derive(old(options.Value()), kc.user, kc.cluster, host);
        options.Value() == d.options && err == d.error
    {
      ghost var o := options.Value();
      if kc.cluster.None? {
        return Some(UNDEFINED_CLUSTER);
      }
      var cluster := kc.cluster.value.spec;
      err := ApplyPem(options, CaField, cluster.certificateAuthorityData, cluster.certificateAuthority, host);
      if err.Some? {
        return;
      }
      if kc.user.None? {
        return Some(UNDEFINED_USER);
      }
      var user := kc.user.value.spec;
      err := ApplyPem(options, CertField, user.clientCertificateData, user.clientCertificate, host);
      if err.Some? {
        return;
      }
      err := ApplyPem(options, KeyField, user.clientKeyData, user.clientKey, host);
      if err.Some? {
        return;
      }
      ghost var o3 := options.Value();

      if Truthy(user.token) {
        var headers := if options.headers.None? then map[] else options.headers.value;
        options.headers := Some(headers["Authorization" := "Bearer " + user.token.value]);
      }

      if TruthyBool(cluster.insecureSkipTlsVerify) {
        options.rejectUnauthorized := Some(false);
      }

      if Truthy(user.username) && Truthy(user.password) {
        options.auth := Some(Credentials(user.username.value, user.password.value));
      }
      assert options.Value() == CredentialStep(o3, user, cluster);
      return None;
    }
  }
}
