/**
 * Go errors as the model sees them: sentinel values made by errors.New, errors from code
 * outside the model, and the wrappers that fmt.Errorf's %w and errs.Wrap build around them.
 */
module Errors {

  /** The sentinel errors of the modelled packages. */
  datatype Sentinel =
    // pkg/clients/scim/helpers.go
    | ErrNoFilter | ErrMarshallFail
    // pkg/clients/scim/connect.go
    | ErrGetUser | ErrListUsers | ErrGetGroup | ErrListGroups | ErrAuthParams | ErrHttpCreation
    | ErrClientID | ErrClientSecret | ErrParsingClientCertificate
    // pkg/utils/httpclient/httpclient.go
    | ErrUnexpectedStatusCode
    // internal/plugin/scim/plugin.go
    | ErrNoScimClient | ErrPluginCreation | ErrGetGroupsForUser | ErrGetUsersForGroup | ErrNoID

  /** The text errors.New gives each sentinel. */
  function SentinelText(s: Sentinel): string
  {
    match s
    case ErrNoFilter => "filter not provided"
    case ErrMarshallFail => "failed to marshal search request"
    case ErrGetUser => "error getting SCIM user"
    case ErrListUsers => "error listing SCIM users"
    case ErrGetGroup => "error getting SCIM group"
    case ErrListGroups => "error listing SCIM groups"
    case ErrAuthParams => "must provide client secret or TLS config"
    case ErrHttpCreation => "failed to create the http client"
    case ErrClientID => "failed to load the client id"
    case ErrClientSecret => "failed to load the client secret"
    case ErrParsingClientCertificate => "failed to parse client certificate x509 pair"
    case ErrUnexpectedStatusCode => "unexpected status code"
    case ErrNoScimClient => "no scim client exists"
    case ErrPluginCreation => "failed to create plugin"
    case ErrGetGroupsForUser => "failed to get groups for user"
    case ErrGetUsersForGroup => "failed to get users for group"
    case ErrNoID => "no filter id provided"
  }

  datatype Error =
    /** A sentinel value. */
    | Sentinel(kind: Sentinel)
    /** An error made by code outside the model (transport, JSON, YAML, secret loading). */
    | Foreign(text: string)
    /** errs.Wrap(base, ext): fmt.Errorf("%w: %w", base, ext); both are in the chain. */
    | Wrap(base: Error, ext: Error)
    /** fmt.Errorf("%w" + sep + "%s", base, detail): the base followed by plain text. */
    | Detail(base: Error, sep: string, detail: string)
    /** fmt.Errorf(prefix + ": %w", cause), and oops' Wrapf with the same message shape. */
    | Prefixed(prefix: string, cause: Error)

  /** errors.Is: `target` is somewhere in the chain of `e`. */
  predicate Is(e: Error, target: Sentinel)
  {
    match e
    case Sentinel(k) => k == target
    case Foreign(_) => false
    case Wrap(base, ext) => Is(base, target) || Is(ext, target)
    case Detail(base, _, _) => Is(base, target)
    case Prefixed(_, cause) => Is(cause, target)
  }

  /** The text err.Error() returns. */
  function Message(e: Error): string
  {
    match e
    case Sentinel(k) => SentinelText(k)
    case Foreign(t) => t
    case Wrap(base, ext) => Message(base) + ": " + Message(ext)
    case Detail(base, sep, d) => Message(base) + sep + d
    case Prefixed(p, cause) => p + ": " + Message(cause)
  }

  /** errs.Wrap keeps both errors in the chain, and its text starts with the base's text. */
  lemma WrapKeepsChain(base: Error, ext: Error, target: Sentinel)
    ensures Is(Wrap(base, ext), target) <==> Is(base, target) || Is(ext, target)
    ensures Message(base) <= Message(Wrap(base, ext))
  {
  }
}
