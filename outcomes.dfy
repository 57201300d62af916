/** Option and Result wrappers, and the errors the modelled code returns. */
module Outcomes {

  datatype Option<+T> = None | Some(value: T)

  datatype Result<+T, +E> = Success(value: T) | Failure(error: E)

  /** The error values of the resolver and the client. */
  datatype Error =
      /** A *url.Error from url.Parse: operation, the URL text parsed, and the reason. */
    | UrlError(op: string, url: string, reason: string)
      /** "discoverer.GetService <target> err: <cause>", returned by Build. */
    | GetServiceError(target: string, cause: Error)
      /** "getResolver <target> notfound", returned by NewRequest. */
    | ResolverNotFound(target: string)
      /** The *errors.Error value that Do returns for a status outside 2xx. */
    | StatusError(code: int)
      /** An error raised by a collaborator outside the model (registry, network,
          body reader, codec) and passed on unchanged. */
    | External(message: string)
}
