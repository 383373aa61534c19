/**
 The part of the Terraform Plugin Framework that the data sources' Read
 callbacks touch: attribute values that may be null, diagnostics, and the
 response a Read fills in (its diagnostics and, when `State.Set` is reached,
 the saved model).
 */
module Framework {

  /** An attribute value that may be null (`types.String`, `types.Bool`, ...). */
  datatype Option<+T> = None | Some(value: T) {
    /** The value, or `default` when null. */
    function GetOr(default: T): T {
      match this
      case Some(v) => v
      case None => default
    }
  }

  datatype Severity = Error | Warning

  /** One entry of `resp.Diagnostics`, as added by `AddError` or `AddWarning`. */
  datatype Diagnostic = Diagnostic(severity: Severity, summary: string, detail: string)

  /** The fields of a `datasource.ReadResponse` that a Read changes. */
  datatype Response<M> = Response(diagnostics: seq<Diagnostic>, state: Option<M>) {

    function AddError(summary: string, detail: string): Response<M> {
      this.(diagnostics := diagnostics + [Diagnostic(Error, summary, detail)])
    }

    function AddWarning(summary: string, detail: string): Response<M> {
      this.(diagnostics := diagnostics + [Diagnostic(Warning, summary, detail)])
    }

    /** `resp.State.Set(ctx, &data)`: the model is saved. */
    function SetState(data: M): Response<M> {
      this.(state := Some(data))
    }
  }

  /** The response a Read starts from. */
  function Empty<M>(): Response<M> {
    Response([], None)
  }

  /** `resp.Diagnostics.HasError()`. */
  predicate HasError(diags: seq<Diagnostic>) {
    exists d :: d in diags && d.severity == Error
  }
}
