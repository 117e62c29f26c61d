/**
 * pkg/config/config.go: the plugin configuration, and the library calls that read it
 * (YAML parsing, commoncfg source references, client certificates).
 */
module Configuration {
  import opened Wrappers
  import opened Text
  import opened Errors
  import opened Http

  /** A commoncfg.SourceRef: where a value is read from; only a loader looks inside. */
  datatype SourceRef = SourceRef(source: string, value: string)

  /** A commoncfg MTLS reference: where the client certificate and key are read from. */
  datatype MtlsRef = MtlsRef(certificate: SourceRef, key: SourceRef)

  /** The client credentials: the id is always given, the secret is optional. */
  datatype Credentials = Credentials(clientID: SourceRef, clientSecret: Option<SourceRef>)

  /** The auth section: credentials, and an optional MTLS reference. */
  datatype Auth = Auth(credentials: Credentials, mtls: Option<MtlsRef>)

  /** The params section: where the group and user filter attributes are read from. */
  datatype Params = Params(groupAttribute: SourceRef, userAttribute: SourceRef)

  /** config.Config; the host is the base URL that request paths are appended to. */
  datatype Config = Config(host: string, auth: Auth, params: Params)

  /**
   * The library calls that read configuration: yaml.Unmarshal into a Config,
   * commoncfg.LoadValueFromSourceRef, json.Unmarshal into a string, and
   * commoncfg.LoadMTLSClientCertificate. Each succeeds or fails.
   */
  datatype Loader = Loader(
    parseYaml: string -> Result<Config, Error>,
    loadValue: SourceRef -> Result<Bytes, Error>,
    unmarshalString: Bytes -> Result<string, Error>,
    loadCertificate: MtlsRef -> Result<Certificate, Error>)
}
