/**
 * The data shapes of the client: the kubeconfig entries (IKubeConfigUser,
 * IKubeConfigCluster, IKubeConfigContext), JSON Patch operations
 * (IPatchBodyItem), the object carried by a watch record (IWatchRecord),
 * decoded response bodies, and the errors the client rejects with
 * (RequestError among them). They carry no behaviour.
 */
module Interfaces {
  import opened Wrappers

  /** JSON text that the client passes through without looking inside. */
  type Json = string

  /**
   * A named kubeconfig entry: `{ name, user }`, `{ name, cluster }` or
   * `{ name, context }`. The entry's own section is `spec`.
   */
  datatype Named<T> = Named(name: string, spec: T)

  /** The `user` section of an IKubeConfigUser. */
  datatype UserSpec = UserSpec(
    authProvider: Option<string>,
    clientCertificateData: Option<string>,
    clientCertificate: Option<string>,
    clientKeyData: Option<string>,
    clientKey: Option<string>,
    token: Option<string>,
    tokenFile: Option<string>,
    password: Option<string>,
    username: Option<string>)

  /** The `cluster` section of an IKubeConfigCluster. */
  datatype ClusterSpec = ClusterSpec(
    server: string,
    certificateAuthorityData: Option<string>,
    certificateAuthority: Option<string>,
    insecureSkipTlsVerify: Option<bool>)

  /** The `context` section of an IKubeConfigContext. */
  datatype ContextSpec = ContextSpec(cluster: string, user: string)

  type KubeConfigUser = Named<UserSpec>
  type KubeConfigCluster = Named<ClusterSpec>
  type KubeConfigContext = Named<ContextSpec>

  /** IPatchBodyItem: one RFC 6902 operation. */
  datatype PatchBodyOpType = Add | Remove | Replace | Copy | Move | Test
  datatype PatchBodyItem = PatchBodyItem(op: PatchBodyOpType, path: string, from: Option<string>, value: Option<Json>)

  /** The `object` of a watch record: its `metadata` (if any) and the rest of it. */
  datatype ObjectMeta = ObjectMeta(resourceVersion: Option<string>)
  datatype WatchObject = WatchObject(metadata: Option<ObjectMeta>, content: Json)

  /** The `metadata` of a list response. */
  datatype ListMeta = ListMeta(resourceVersion: Option<string>, continueToken: Option<string>)

  /** A response body after `json: true` decoding. */
  datatype Body =
    | Text(text: string)                          // not JSON: stays a string
    | Document(json: Json)                        // a JSON object that is not a list
    | List(items: seq<Json>, metadata: ListMeta)  // a list object: `{ items, metadata }`

  /** What a promise of the client rejects with. */
  datatype Error =
    | PlainError(message: string)                                 // `new Error(message)`
    | TypeError(message: string)                                  // `new TypeError(...)` or a runtime TypeError
    | RequestError(message: string, statusCode: Option<int>, body: Option<Body>)  // RequestError(message, response, body)
    | FileNotFound(path: string)                                  // `readFile` of a path that does not exist
    | TransportError(description: string)                         // the transport's own error
    | Thrown(value: Option<string>)                               // a bare value given to `reject`
    | HandlerError(description: string)                           // whatever a caller's watch handler rejected with
}
