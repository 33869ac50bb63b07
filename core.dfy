/**
 * Shared vocabulary of the deployment layer: Go's nil-able values, errors
 * as the providers build them, the outcome of a deployment run together with
 * the platform calls it issued, and the cancellation oracle standing for a
 * Go `context.Context`.
 */
module Core {

  /** A Go pointer or slice that may be nil. */
  datatype Option<T> = None | Some(value: T)

  /**
   * What a call into code outside the model (an SDK client, the upload
   * manager, the access repository, a PEM parser) answers: a value or the
   * error it returned.
   */
  datatype Result<T> = Success(value: T) | Failure(error: Error)

  /** The error values the modelled code constructs. */
  datatype Error =
    | Message(text: string)               // errors.New, or fmt.Errorf without %w
    | Wrapped(text: string, cause: Error) // fmt.Errorf("<text>: %w", cause)
    | Joined(errors: seq<Error>)          // errors.Join of non-nil errors
    | Canceled                            // ctx.Err() once ctx.Done() was observed
    | External(detail: string)            // produced by code outside the model

  /**
   * How a modelled Go function ends: it returns a value, returns an error,
   * panics (a nil pointer dereference), or is still looping when the fuel
   * given to the model runs out (the Go loops have no bound of their own).
   */
  datatype Outcome<T> = Ok(value: T) | Err(error: Error) | Panicked | OutOfFuel

  /** An outcome together with the platform calls issued, in order. */
  datatype Run<T, C> = Run(outcome: Outcome<T>, calls: seq<C>)

  /** `core.SSLDeployResult{}`: a successful deployment carries no data. */
  datatype DeployResult = DeployResult

  /** The reply of the upload manager: the id of the uploaded certificate. */
  datatype UploadResult = UploadResult(certId: string)

  /**
   * `ctx.Done()` as an oracle: `ctx(n)` is whether the n-th observation of
   * the channel (counting from 0 within one deployment) finds it closed.
   */
  type Cancellation = nat -> bool

  /** The error a constructor returns for a nil configuration pointer. */
  const ConfigNil := "the configuration of the ssl deployer provider is nil"
  const CouldNotCreateSdkClient := "could not create sdk client"
  const CouldNotCreateSslManager := "could not create ssl manager"
  const UploadFailed := "failed to upload certificate file"

  /** The text that wraps an error returned by the SDK request `op`. */
  function SdkRequestFailed(op: string): string
  {
    "failed to execute sdk request '" + op + "'"
  }

}
