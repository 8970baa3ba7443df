/** Error values and the Option/Result wrappers shared by every module.
    A Go `error` that may be nil is modelled as `Option<Error>`. */
module Outcomes {

  datatype Option<+T> = None | Some(value: T)

  /** The error kinds the modelled code distinguishes. */
  datatype Error =
    | NotFound                              // apierr.IsNotFound / errdefs.IsNotFound
    | AlreadyExists                         // apierr.IsAlreadyExists / errdefs.IsAlreadyExists
    | Conflict                              // apierr.IsConflict (optimistic concurrency)
    | Canceled                              // context.Canceled
    | DeadlineExceeded                      // context.DeadlineExceeded
    | Message(text: string)                 // errors.New / errors.Errorf
    | Wrapped(context: string, cause: Error)  // errors.Wrap(cause, context)
    | Panic(reason: string)                 // a Go runtime panic, such as a write to a nil map
    | External(code: nat)                   // any other failure of a collaborator

  datatype Result<+T> = Ok(value: T) | Err(error: Error)

  /** The reason Go gives for reading through a nil pointer. */
  const NilDereference: string := "invalid memory address or nil pointer dereference"

  /** Labels and annotations of cluster objects. */
  type Labels = map<string, string>

  /** `app.kubernetes.io/managed-by`, the label every object kim creates carries. */
  const ManagedByKey: string := "app.kubernetes.io/managed-by"
  const ManagedByValue: string := "kim"
}
