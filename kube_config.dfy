/**
 * KubeConfig: where the client finds its cluster and credentials.
 *
 * A kubeconfig file is read from `$KUBECONFIG`, else from `~/.kube/config`;
 * inside a pod the service-account token is used instead. After the YAML is
 * parsed the file is validated (apiVersion, current-context, the three
 * sections) and the current context selects a user and a cluster, each by
 * the first entry with the wanted name.
 *
 * The host (environment variables, home directory, file contents and the
 * YAML parser) is an input of the model.
 */
module KubeConfigs {
  import opened Wrappers
  import opened JsValues
  import opened Interfaces

  const SA_ROOT: string := "/var/run/secrets/kubernetes.io/serviceaccount"
  const SA_CA_PATH: string := SA_ROOT + "/ca.crt"
  const SA_TOKEN_PATH: string := SA_ROOT + "/token"

  /** The fields of a parsed kubeconfig file that loading looks at (`undefined` is None). */
  datatype ConfigDocument = ConfigDocument(
    apiVersion: Option<string>,
    currentContext: Option<string>,
    clusters: Option<seq<KubeConfigCluster>>,
    contexts: Option<seq<KubeConfigContext>>,
    users: Option<seq<KubeConfigUser>>)

  /**
   * What the process sees of its host: `process.env`, `homedir()`, the
   * files that exist with their contents, and `safeLoad` (which either
   * throws or yields a document).
   */
  datatype Host = Host(
    env: map<string, string>,
    homeDir: string,
    files: map<string, string>,
    parseYaml: string -> Result<ConfigDocument, Error>)

  /** The user and the cluster a loaded configuration holds. */
  datatype Selection = Selection(user: KubeConfigUser, cluster: KubeConfigCluster)

  function EnvValue(host: Host, name: string): (r: Option<string>)
    ensures r.Some? <==> name in host.env
    ensures r.Some? ==> r.value == host.env[name]
  {
    if name in host.env then Some(host.env[name]) else None
  }

  /** `readFile(path, 'utf8')`: rejects when the file does not exist. */
  function ReadFile(host: Host, path: string): (r: Result<string, Error>)
    ensures r.Success? <==> path in host.files
    ensures r.Success? ==> r.value == host.files[path]
    ensures r.Failure? ==> r.error == FileNotFound(path)
  {
    if path in host.files then Success(host.files[path]) else Failure(FileNotFound(path))
  }

  /** Read and parse the kubeconfig file at `path`. */
  function ReadDocument(host: Host, path: string): (r: Result<ConfigDocument, Error>)
    ensures path !in host.files ==> r == Failure(FileNotFound(path))
    ensures path in host.files ==> r == host.parseYaml(host.files[path])
  {
    match ReadFile(host, path)
    case Failure(e) => Failure(e)
    case Success(text) => host.parseYaml(text)
  }

  /** `e` is the first of `entries` whose name is `name`. */
  ghost predicate FirstNamed<T>(entries: seq<Named<T>>, name: string, e: Named<T>) {
    exists i :: 0 <= i < |entries| && entries[i] == e && e.name == name &&
      forall j :: 0 <= j < i ==> entries[j].name != name
  }

  predicate NoneNamed<T>(entries: seq<Named<T>>, name: string) {
    forall i :: 0 <= i < |entries| ==> entries[i].name != name
  }

  /** `entries.find(e => e.name === name)`. */
  function FindByName<T>(entries: seq<Named<T>>, name: string): (r: Option<Named<T>>)
    ensures r.None? <==> NoneNamed(entries, name)
    ensures r.Some? ==> FirstNamed(entries, name, r.value)
  {
    if entries == [] then None
    else if entries[0].name == name then
      assert FirstNamed(entries, name, entries[0]) by { assert entries[0] == entries[0]; }
      Some(entries[0])
    else
      var r := FindByName(entries[1..], name);
      assert r.Some? ==> FirstNamed(entries, name, r.value) by {
        if r.Some? {
          var i :| 0 <= i < |entries[1..]| && entries[1..][i] == r.value && r.value.name == name &&
            forall j :: 0 <= j < i ==> entries[1..][j].name != name;
          assert entries[i + 1] == r.value;
          assert forall j :: 0 <= j < i + 1 ==> entries[j].name != name by {
            forall j | 0 <= j < i + 1 ensures entries[j].name != name {
              if j > 0 { assert entries[j] == entries[1..][j - 1]; }
            }
          }
        }
      }
      assert r.None? ==> NoneNamed(entries, name) by {
        if r.None? {
          forall i | 0 <= i < |entries| ensures entries[i].name != name {
            if i > 0 { assert entries[i] == entries[1..][i - 1]; }
          }
        }
      }
      r
  }

  /** The text of every loading error: `Unable to load config at path: <path>; <detail>.` */
  function Unable(path: string, detail: string): string {
    "Unable to load config at path: " + path + "; " + detail + "."
  }

  /** `currentContext || obj['current-context']`: a non-empty argument wins over the file's value. */
  function EffectiveContext(currentContext: Option<string>, doc: ConfigDocument): (r: Option<string>)
    ensures Truthy(currentContext) ==> r == currentContext
    ensures !Truthy(currentContext) ==> r == doc.currentContext
  {
    if Truthy(currentContext) then currentContext else doc.currentContext
  }

  /** Every section a valid document needs is present. */
  predicate HasSections(doc: ConfigDocument) {
    doc.clusters.Some? && doc.contexts.Some? && doc.users.Some?
  }

  /**
   * The validation and context lookup of `loadFromFile`: the apiVersion
   * check, then the current context, then the clusters, contexts and users
   * sections, then the first context with the current context's name.
   */
  function SelectContext(doc: ConfigDocument, path: string, currentContext: Option<string>): (r: Result<KubeConfigContext, Error>)
    ensures r.Success? <==>
      doc.apiVersion == Some("v1") && Truthy(EffectiveContext(currentContext, doc)) && HasSections(doc) &&
      !NoneNamed(doc.contexts.value, EffectiveContext(currentContext, doc).value)
    ensures r.Success? ==> FirstNamed(doc.contexts.value, EffectiveContext(currentContext, doc).value, r.value)
    ensures doc.apiVersion != Some("v1") ==>
      r == Failure(TypeError(Unable(path, "unknown api version specified: " + Show(doc.apiVersion))))
    ensures doc.apiVersion == Some("v1") && !Truthy(EffectiveContext(currentContext, doc)) ==>
      r == Failure(PlainError(Unable(path, "no current-context field specified")))
    ensures doc.apiVersion == Some("v1") && Truthy(EffectiveContext(currentContext, doc)) ==>
      && (doc.clusters.None? ==> r == Failure(PlainError(Unable(path, "no clusters field specified"))))
      && (doc.clusters.Some? && doc.contexts.None? ==> r == Failure(PlainError(Unable(path, "no contexts field specified"))))
      && (doc.clusters.Some? && doc.contexts.Some? && doc.users.None? ==>
            r == Failure(PlainError(Unable(path, "no users field specified"))))
    ensures (doc.apiVersion == Some("v1") && Truthy(EffectiveContext(currentContext, doc)) && HasSections(doc) &&
             NoneNamed(doc.contexts.value, EffectiveContext(currentContext, doc).value)) ==>
      r == Failure(PlainError(Unable(path, "no matching context for name: " + EffectiveContext(currentContext, doc).value)))
  {
    if doc.apiVersion != Some("v1") then
      Failure(TypeError(Unable(path, "unknown api version specified: " + Show(doc.apiVersion))))
    else
      var current := EffectiveContext(currentContext, doc);
      if !Truthy(current) then Failure(PlainError(Unable(path, "no current-context field specified")))
      else if doc.clusters.None? then Failure(PlainError(Unable(path, "no clusters field specified")))
      else if doc.contexts.None? then Failure(PlainError(Unable(path, "no contexts field specified")))
      else if doc.users.None? then Failure(PlainError(Unable(path, "no users field specified")))
      else match FindByName(doc.contexts.value, current.value)
        case None => Failure(PlainError(Unable(path, "no matching context for name: " + current.value)))
        case Some(context) => Success(context)
  }

  /** The whole of `loadFromFile` once the document is parsed: context, then user, then cluster. */
  function Resolve(doc: ConfigDocument, path: string, currentContext: Option<string>): (r: Result<Selection, Error>)
    ensures SelectContext(doc, path, currentContext).Failure? ==> r == Failure(SelectContext(doc, path, currentContext).error)
    ensures SelectContext(doc, path, currentContext).Success? ==>
      var context := SelectContext(doc, path, currentContext).value.spec;
      && (r.Success? <==> !NoneNamed(doc.users.value, context.user) && !NoneNamed(doc.clusters.value, context.cluster))
      && (r.Success? ==> FirstNamed(doc.users.value, context.user, r.value.user) &&
                         FirstNamed(doc.clusters.value, context.cluster, r.value.cluster))
      && (NoneNamed(doc.users.value, context.user) ==>
            r == Failure(PlainError(Unable(path, "no matching user for name: " + context.user))))
      && (!NoneNamed(doc.users.value, context.user) && NoneNamed(doc.clusters.value, context.cluster) ==>
            r == Failure(PlainError(Unable(path, "no matching cluster for name: " + context.cluster))))
  {
    match SelectContext(doc, path, currentContext)
    case Failure(e) => Failure(e)
    case Success(context) =>
      match FindByName(doc.users.value, context.spec.user)
      case None => Failure(PlainError(Unable(path, "no matching user for name: " + context.spec.user)))
      case Some(user) =>
        match FindByName(doc.clusters.value, context.spec.cluster)
        case None => Failure(PlainError(Unable(path, "no matching cluster for name: " + context.spec.cluster)))
        case Some(cluster) => Success(Selection(user, cluster))
  }

  /** Read, parse and resolve the kubeconfig file at `path`. */
  function FileSelection(host: Host, path: string, currentContext: Option<string>): (r: Result<Selection, Error>)
    ensures path !in host.files ==> r == Failure(FileNotFound(path))
    ensures path in host.files && host.parseYaml(host.files[path]).Failure? ==> r == Failure(host.parseYaml(host.files[path]).error)
    ensures r.Success? ==>
      && path in host.files && host.parseYaml(host.files[path]).Success?
      && var doc := host.parseYaml(host.files[path]).value;
      && SelectContext(doc, path, currentContext).Success?
      && var context := SelectContext(doc, path, currentContext).value.spec;
      && FirstNamed(doc.users.value, context.user, r.value.user)
      && FirstNamed(doc.clusters.value, context.cluster, r.value.cluster)
  {
    match ReadDocument(host, path)
    case Failure(e) => Failure(e)
    case Success(doc) => Resolve(doc, path, currentContext)
  }

  /** The service-account scheme: plain http exactly on the ports 80, 8080 and 8001. */
  function SchemeFor(port: Option<string>): (scheme: string)
    ensures scheme == "http" <==> port == Some("80") || port == Some("8080") || port == Some("8001")
    ensures scheme == "https" <==> !(port == Some("80") || port == Some("8080") || port == Some("8001"))
  {
    if port == Some("80") || port == Some("8080") || port == Some("8001") then "http" else "https"
  }

  /** A user entry that carries only a bearer token. */
  function TokenUser(token: string): UserSpec {
    UserSpec(None, None, None, None, None, Some(token), None, None, None)
  }

  /** `loadFromServiceAccountToken`: the in-pod configuration. */
  function ServiceAccountSelection(host: Host): (r: Result<Selection, Error>)
    ensures r.Success? <==> SA_TOKEN_PATH in host.files
    ensures r.Failure? ==> r.error == FileNotFound(SA_TOKEN_PATH)
    ensures r.Success? ==>
      var port := EnvValue(host, "KUBERNETES_SERVICE_PORT");
      && r.value.user == Named("", TokenUser(host.files[SA_TOKEN_PATH]))
      && r.value.cluster.name == ""
      && r.value.cluster.spec.server ==
           SchemeFor(port) + "://" + Show(EnvValue(host, "KUBERNETES_SERVICE_HOST")) + ":" + Show(port)
      && r.value.cluster.spec.certificateAuthority == Some(SA_CA_PATH)
      && r.value.cluster.spec.certificateAuthorityData.None?
      && r.value.cluster.spec.insecureSkipTlsVerify.None?
  {
    var port := EnvValue(host, "KUBERNETES_SERVICE_PORT");
    var server := SchemeFor(port) + "://" + Show(EnvValue(host, "KUBERNETES_SERVICE_HOST")) + ":" + Show(port);
    match ReadFile(host, SA_TOKEN_PATH)
    case Failure(e) => Failure(e)
    case Success(token) =>
      Success(Selection(Named("", TokenUser(token)), Named("", ClusterSpec(server, None, Some(SA_CA_PATH), None))))
  }

  /** The configuration sources `load` tries, in its order. */
  datatype Source = EnvFile(path: string) | DefaultFile(path: string) | ServiceAccount | NoSource

  /** The default kubeconfig path: the home directory followed by `/.kube/config`, by plain concatenation. */
  function DefaultConfigPath(host: Host): string {
    host.homeDir + "/.kube/config"
  }

  /**
   * The source `load` picks: a non-empty KUBECONFIG, else the default file
   * when it exists, else the service-account token when it exists.
   */
  function ChooseSource(host: Host): (s: Source)
    ensures s.EnvFile? <==> Truthy(EnvValue(host, "KUBECONFIG"))
    ensures s.EnvFile? ==> s.path == host.env["KUBECONFIG"]
    ensures s.DefaultFile? <==> !Truthy(EnvValue(host, "KUBECONFIG")) && DefaultConfigPath(host) in host.files
    ensures s.DefaultFile? ==> s.path == DefaultConfigPath(host)
    ensures s.ServiceAccount? <==>
      !Truthy(EnvValue(host, "KUBECONFIG")) && DefaultConfigPath(host) !in host.files && SA_TOKEN_PATH in host.files
    ensures s.NoSource? <==>
      !Truthy(EnvValue(host, "KUBECONFIG")) && DefaultConfigPath(host) !in host.files && SA_TOKEN_PATH !in host.files
  {
    var kubeconfig := EnvValue(host, "KUBECONFIG");
    if Truthy(kubeconfig) then EnvFile(kubeconfig.value)
    else if DefaultConfigPath(host) in host.files then DefaultFile(DefaultConfigPath(host))
    else if SA_TOKEN_PATH in host.files then ServiceAccount
    else NoSource
  }

  /** The configuration `load` produces when every loader it starts is awaited. */
  function LoadSelection(host: Host): (r: Result<Selection, Error>)
    ensures ChooseSource(host).NoSource? ==> r == Failure(PlainError("Unable to load kube config"))
  {
    match ChooseSource(host)
    case EnvFile(path) => FileSelection(host, path, None)
    case DefaultFile(path) => FileSelection(host, path, None)
    case ServiceAccount => ServiceAccountSelection(host)
    case NoSource => Failure(PlainError("Unable to load kube config"))
  }

  /**
   * `load` as written: only the KUBECONFIG branch awaits its loader. The
   * default-file and service-account branches start theirs and return, so
   * `load` resolves while user and cluster are still unset (Success(None))
   * and any error of those loaders never reaches the caller.
   */
  function LoadAsWritten(host: Host): (r: Result<Option<Selection>, Error>)
    ensures r.Success? && r.value.Some? <==> ChooseSource(host).EnvFile? && LoadSelection(host).Success?
    ensures r.Failure? <==> (ChooseSource(host).EnvFile? && LoadSelection(host).Failure?) || ChooseSource(host).NoSource?
  {
    match ChooseSource(host)
    case EnvFile(path) =>
      (match FileSelection(host, path, None)
       case Success(s) => Success(Some(s))
       case Failure(e) => Failure(e))
    case DefaultFile(_) => Success(None)
    case ServiceAccount => Success(None)
    case NoSource => Failure(PlainError("Unable to load kube config"))
  }

  /** Source priority: the configuration `load` ends up with comes from the first available source. */
  lemma LoadFollowsSourcePriority(host: Host)
    ensures Truthy(EnvValue(host, "KUBECONFIG")) ==>
      LoadSelection(host) == FileSelection(host, host.env["KUBECONFIG"], None)
    ensures !Truthy(EnvValue(host, "KUBECONFIG")) && DefaultConfigPath(host) in host.files ==>
      LoadSelection(host) == FileSelection(host, DefaultConfigPath(host), None)
    ensures !Truthy(EnvValue(host, "KUBECONFIG")) && DefaultConfigPath(host) !in host.files && SA_TOKEN_PATH in host.files ==>
      LoadSelection(host) == ServiceAccountSelection(host)
    ensures LoadSelection(host).Failure? <==>
      (ChooseSource(host).NoSource? ||
       (ChooseSource(host).ServiceAccount? && SA_TOKEN_PATH !in host.files) ||
       ((ChooseSource(host).EnvFile? || ChooseSource(host).DefaultFile?) &&
        FileSelection(host, ChooseSource(host).path, None).Failure?))
  {
  }

  /**
   * As written, `load` resolves for every host whose source is the default
   * file or the service account, before anything is assigned, even when the
   * loader it started fails.
   */
  lemma UnawaitedLoadResolvesUnset(host: Host)
    requires ChooseSource(host).DefaultFile? || ChooseSource(host).ServiceAccount?
    ensures LoadAsWritten(host) == Success(None)
  {
  }

  /** A concrete host: `~/.kube/config` is valid, but `load` as written resolves with nothing loaded. */
  lemma UnawaitedDefaultFileExample()
    ensures
      var doc := ConfigDocument(Some("v1"), Some("dev"),
        Some([Named("local", ClusterSpec("https://127.0.0.1:6443", None, None, None))]),
        Some([Named("dev", ContextSpec("local", "admin"))]),
        Some([Named("admin", TokenUser("secret"))]));
      var host := Host(map[], "/home/dev", map["/home/dev/.kube/config" := "apiVersion: v1"], _ => Success(doc));
      && LoadAsWritten(host) == Success(None)
      && LoadSelection(host) == Success(Selection(doc.users.value[0], doc.clusters.value[0]))
  {
    var doc := ConfigDocument(Some("v1"), Some("dev"),
      Some([Named("local", ClusterSpec("https://127.0.0.1:6443", None, None, None))]),
      Some([Named("dev", ContextSpec("local", "admin"))]),
      Some([Named("admin", TokenUser("secret"))]));
    var host := Host(map[], "/home/dev", map["/home/dev/.kube/config" := "apiVersion: v1"], _ => Success(doc));
    assert DefaultConfigPath(host) == "/home/dev/.kube/config";
    assert ChooseSource(host) == DefaultFile("/home/dev/.kube/config");
    assert ReadDocument(host, "/home/dev/.kube/config") == Success(doc);
  }

  /** The loaded configuration: the `user` and `cluster` fields that loading assigns. */
  class KubeConfig {
    var user: Option<KubeConfigUser>
    var cluster: Option<KubeConfigCluster>

    constructor()
      ensures user.None? && cluster.None?
    {
      user := None;
      cluster := None;
    }

    /**
     * `loadFromFile`: validation errors leave the fields as they were; a
     * missing user clears `user`; a missing cluster leaves `user` assigned
     * and clears `cluster`.
     */
    method LoadFromFile(path: string, currentContext: Option<string>, host: Host) returns (err: Option<Error>)
      modifies this
      ensures ReadDocument(host, path).Failure? ==>
        err == Some(ReadDocument(host, path).error) && user == old(user) && cluster == old(cluster)
      ensures ReadDocument(host, path).Success? ==>
        var doc := ReadDocument(host, path).value;
        var r := Resolve(doc, path, currentContext);
        && (r.Success? ==> err.None? && user == Some(r.value.user) && cluster == Some(r.value.cluster))
        && (r.Failure? ==> err == Some(r.error))
        && (SelectContext(doc, path, currentContext).Failure? ==> user == old(user) && cluster == old(cluster))
        && (SelectContext(doc, path, currentContext).Success? ==>
              var context := SelectContext(doc, path, currentContext).value.spec;
              && (NoneNamed(doc.users.value, context.user) ==> user.None? && cluster == old(cluster))
              && (!NoneNamed(doc.users.value, context.user) && NoneNamed(doc.clusters.value, context.cluster) ==>
                    user.Some? && cluster.None?))
    {
      var read := ReadDocument(host, path);
      if read.Failure? {
        return Some(read.error);
      }
      var doc := read.value;
      var selected := SelectContext(doc, path, currentContext);
      if selected.Failure? {
        return Some(selected.error);
      }
      var context := selected.value;
      user := FindByName(doc.users.value, context.spec.user);
      if user.None? {
        return Some(PlainError(Unable(path, "no matching user for name: " + context.spec.user)));
      }
      cluster := FindByName(doc.clusters.value, context.spec.cluster);
      if cluster.None? {
        return Some(PlainError(Unable(path, "no matching cluster for name: " + context.spec.cluster)));
      }
      return None;
    }

    /** `loadFromServiceAccountToken`: the scheme follows the port; the token is the token file's contents. */
    method LoadFromServiceAccountToken(host: Host) returns (err: Option<Error>)
      modifies this
      ensures var r := ServiceAccountSelection(host);
        && (r.Success? ==> err.None? && user == Some(r.value.user) && cluster == Some(r.value.cluster))
        && (r.Failure? ==> err == Some(r.error) && user == old(user) && cluster == old(cluster))
    {
      var serviceHost := EnvValue(host, "KUBERNETES_SERVICE_HOST");
      var port := EnvValue(host, "KUBERNETES_SERVICE_PORT");
      var scheme := "https";
      if port == Some("80") || port == Some("8080") || port == Some("8001") {
        scheme := "http";
      }
      var token := ReadFile(host, SA_TOKEN_PATH);
      if token.Failure? {
        return Some(token.error);
      }
      user := Some(Named("", TokenUser(token.value)));
      cluster := Some(Named("", ClusterSpec(scheme + "://" + Show(serviceHost) + ":" + Show(port), None, Some(SA_CA_PATH), None)));
      return None;
    }

    /**
     * `load`, with every loader awaited: on success both fields are assigned
     * from the first available source.
     */
    method Load(host: Host) returns (err: Option<Error>)
      modifies this
      ensures err.None? <==> LoadSelection(host).Success?
      ensures err.None? ==> user == Some(LoadSelection(host).value.user) && cluster == Some(LoadSelection(host).value.cluster)
      ensures err.Some? ==> err.value == LoadSelection(host).error
    {
      var kubeconfig := EnvValue(host, "KUBECONFIG");
      if Truthy(kubeconfig) {
        err := LoadFromFile(kubeconfig.value, None, host);
        return;
      }
      var defaultKubeConfig := DefaultConfigPath(host);
      if defaultKubeConfig in host.files {
        err := LoadFromFile(defaultKubeConfig, None, host);
        return;
      }
      if SA_TOKEN_PATH in host.files {
        err := LoadFromServiceAccountToken(host);
        return;
      }
      err := Some(PlainError("Unable to load kube config"));
    }
  }
}
