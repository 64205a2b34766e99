/** The part of the Terraform plugin framework a lifecycle callback touches: the response
    it fills in, with the state to record and the diagnostics to report. */
module Framework {
  import opened Wrappers

  /** `resp.Diagnostics.AddError(summary, detail)`. */
  datatype Diagnostic = ErrorDiagnostic(summary: string, detail: string)

  /** A callback's response: `state` is None once the resource has been removed (or was
      never set), and diagnostics only ever grow. */
  class Response<S> {
    var state: Option<S>
    var diagnostics: seq<Diagnostic>

    constructor (state: Option<S>)
      ensures this.state == state && diagnostics == []
    {
      this.state := state;
      diagnostics := [];
    }

    method AddError(summary: string, detail: string)
      modifies this
      ensures diagnostics == old(diagnostics) + [ErrorDiagnostic(summary, detail)]
      ensures state == old(state)
    {
      diagnostics := diagnostics + [ErrorDiagnostic(summary, detail)];
    }

    /** `resp.State.Set(ctx, s)`, a conversion that cannot fail for these models. */
    method Set(s: S)
      modifies this
      ensures state == Some(s) && diagnostics == old(diagnostics)
    {
      state := Some(s);
    }

    /** `resp.State.RemoveResource(ctx)`. */
    method RemoveResource()
      modifies this
      ensures state == None && diagnostics == old(diagnostics)
    {
      state := None;
    }
  }
}
