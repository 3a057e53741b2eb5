/**
 * The pieces of the Terraform plugin framework that the provider code touches:
 * nullable/unknown attribute values (types.String, types.Int64), diagnostics,
 * Go pointers (as Option) and the possibility that a handler panics.
 */
module Framework {
  import opened Messages

  /** A Go pointer: nil or the address of a value. */
  datatype Option<T> = None | Some(value: T)

  /** How a handler ends: it returns normally, or a nil dereference panics. */
  datatype Outcome<T> = Returned(value: T) | Panicked

  const MinInt64: int := -0x8000_0000_0000_0000
  const MaxInt64: int := 0x7fff_ffff_ffff_ffff

  /** Go's int64. */
  type Int64 = x: int | -0x8000_0000_0000_0000 <= x <= 0x7fff_ffff_ffff_ffff

  /** types.String: null, unknown (not yet computed) or a known string. */
  datatype StringValue = NullString | UnknownString | KnownString(s: string) {

    predicate IsNull() { NullString? }

    predicate IsUnknown() { UnknownString? }

    /** The framework returns "" for a null or unknown value. */
    function ValueString(): string {
      if KnownString? then s else ""
    }

    /** Only a null value yields nil; an unknown one points at "". */
    function ValueStringPointer(): Option<string> {
      if IsNull() then None else Some(ValueString())
    }
  }

  /** types.Int64: null, unknown or a known 64-bit integer. */
  datatype Int64Value = NullInt64 | UnknownInt64 | KnownInt64(n: Int64) {

    predicate IsNull() { NullInt64? }

    predicate IsUnknown() { UnknownInt64? }

    /** The framework returns 0 for a null or unknown value. */
    function ValueInt64(): Int64 {
      if KnownInt64? then n else 0
    }

    /** Only a null value yields nil; an unknown one points at 0. */
    function ValueInt64Pointer(): Option<Int64> {
      if IsNull() then None else Some(ValueInt64())
    }
  }

  datatype Severity = Error | Warning

  /** A diagnostic; its detail text is Messages.Text(detail), and `attribute` is the attribute path of AddAttributeError, if any. */
  datatype Diagnostic = Diagnostic(severity: Severity, summary: string, detail: Detail, attribute: Option<string>)

  /** diag.Diagnostics.AddError appends one of these. */
  function ErrorDiagnostic(summary: string, detail: Detail): Diagnostic {
    Diagnostic(Error, summary, detail, None)
  }

  /** diag.Diagnostics.AddAttributeError appends one of these. */
  function AttributeErrorDiagnostic(attribute: string, summary: string, detail: Detail): Diagnostic {
    Diagnostic(Error, summary, detail, Some(attribute))
  }

  /** diag.Diagnostics.HasError. */
  predicate HasError(diags: seq<Diagnostic>) {
    exists i :: 0 <= i < |diags| && diags[i].severity == Error
  }

  /** Appending an error makes HasError true, whatever came before. */
  lemma AppendedErrorIsSeen(diags: seq<Diagnostic>, d: Diagnostic)
    requires d.severity == Error
    ensures HasError(diags + [d])
  {
    assert (diags + [d])[|diags|] == d;
  }
}
