/** Shapes shared by both components: the `{ error, message, data }` record every
    API call resolves to, and the snackbar notifications the components enqueue. */
module Api {

  datatype Option<+T> = None | Some(value: T) {
    function GetOr(default: T): T
    {
      if Some? then value else default
    }
  }

  /** The `variant` option passed to `enqueueSnackbar`. */
  datatype Variant = Success | Error | Info

  /** One notification handed to the snackbar queue. */
  datatype Notice = Notice(message: string, variant: Variant)

  /** What an API call resolves to. `data` is only read when `error` is false;
      calls whose data the component never reads use `()`. */
  datatype ApiResult<+T> = ApiResult(error: bool, message: string, data: T)

  /** The notice a handler enqueues to report a result with the server's message. */
  function Report<T>(result: ApiResult<T>): (n: Notice)
    ensures n.message == result.message
    ensures n.variant == Error <==> result.error
    ensures n.variant == Success <==> !result.error
  {
    Notice(result.message, if result.error then Error else Success)
  }
}
