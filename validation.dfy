/** The v4.4 pre-flight gate: a fixed list of checks run in source order; the
    first one that fails is reported with its message and field path, and
    nothing after it is looked at. */
module Validation {
  import opened Wrappers
  import opened Text
  import opened Models

  /** The messages the gate raises, one per check; `Text` is the wording it uses. */
  datatype Message =
    | ClaveInvalida | ConsecutivoInvalido | FechaEmisionInvalida
    | TipoIdentificacionInvalido | NumeroIdentificacionInvalido
    | CondicionVentaInvalida | SinMedioPago
    | NumeroLineaNoPositivo | CantidadNegativa | PrecioUnitarioNegativo | MontoTotalNegativo
    | SubTotalNegativo | BaseImponibleNegativa | MontoImpuestoInvalido | TarifaImpuestoInvalida
    | NumeroLineaDuplicado | TotalComprobanteInvalido | TipoCambioInvalido
  {
    function Text(): string
    {
      match this
      case ClaveInvalida => "La clave debe tener 50 dígitos"
      case ConsecutivoInvalido => "El consecutivo debe tener 20 dígitos"
      case FechaEmisionInvalida => "Fecha de emisión inválida"
      case TipoIdentificacionInvalido => "Tipo de identificación inválido"
      case NumeroIdentificacionInvalido => "Número de identificación inválido"
      case CondicionVentaInvalida => "Condición de venta inválida"
      case SinMedioPago => "Debe indicar al menos un medio de pago"
      case NumeroLineaNoPositivo => "El número de línea debe ser positivo"
      case CantidadNegativa => "La cantidad debe ser mayor o igual a cero"
      case PrecioUnitarioNegativo => "El precio unitario debe ser mayor o igual a cero"
      case MontoTotalNegativo => "El monto total debe ser mayor o igual a cero"
      case SubTotalNegativo => "El subtotal debe ser mayor o igual a cero"
      case BaseImponibleNegativa => "La base imponible debe ser mayor o igual a cero"
      case MontoImpuestoInvalido => "Monto de impuesto inválido"
      case TarifaImpuestoInvalida => "Tarifa de impuesto inválida"
      case NumeroLineaDuplicado => "Numero de línea duplicado"
      case TotalComprobanteInvalido => "Total del comprobante inválido"
      case TipoCambioInvalido => "Tipo de cambio debe ser mayor a cero"
    }
  }

  /** The field paths errors point at; `Path` is the `field=` string. */
  datatype Field =
    | Clave | NumeroConsecutivo | FechaEmision | EmisorIdentificacion | ReceptorIdentificacion
    | CondicionVenta | MedioPago | NumeroLinea | Cantidad | PrecioUnitario | MontoTotal | SubTotal
    | BaseImponible | ImpuestoMonto | ImpuestoTarifa | ResumenTotalComprobante | ResumenTipoCambio
  {
    function Path(): string
    {
      match this
      case Clave => "Clave"
      case NumeroConsecutivo => "NumeroConsecutivo"
      case FechaEmision => "FechaEmision"
      case EmisorIdentificacion => "Emisor/Identificacion"
      case ReceptorIdentificacion => "Receptor/Identificacion"
      case CondicionVenta => "CondicionVenta"
      case MedioPago => "MedioPago"
      case NumeroLinea => "NumeroLinea"
      case Cantidad => "Cantidad"
      case PrecioUnitario => "PrecioUnitario"
      case MontoTotal => "MontoTotal"
      case SubTotal => "SubTotal"
      case BaseImponible => "BaseImponible"
      case ImpuestoMonto => "Impuesto/Monto"
      case ImpuestoTarifa => "Impuesto/Tarifa"
      case ResumenTotalComprobante => "ResumenFactura/TotalComprobante"
      case ResumenTipoCambio => "ResumenFactura/TipoCambio"
    }
  }

  /** `ValidationError(message, field=...)` */
  datatype ValidationError = ValidationError(message: Message, field: Field)

  /** The outcome of one check or of a sequence of checks. */
  datatype Outcome = Pass | Fail(error: ValidationError)

  /** `_ensure(predicate, message, field=field)` */
  function Ensure(ok: bool, message: Message, field: Field): (r: Outcome)
    ensures r == Pass <==> ok
    ensures r.Fail? ==> r.error == ValidationError(message, field)
  {
    if ok then Pass else Fail(ValidationError(message, field))
  }

  /** Running `a` and then `b`: the first failure wins. */
  function Then(a: Outcome, b: Outcome): Outcome
  {
    if a.Fail? then a else b
  }

  // ---------------------------------------------------------------------------
  // Identification and payment methods
  // ---------------------------------------------------------------------------

  const IdentificationTypes: set<string> := {"01", "02", "03", "04"}

  /** `^[0-9A-Za-z]{9,20}$` under `fullmatch`. */
  predicate IdentificationNumberOk(numero: string)
  {
    9 <= |numero| <= 20 && forall i :: 0 <= i < |numero| ==> IsAlnum(numero[i])
  }

  /** `validate_identification(identificacion, field=field)` */
  function ValidateIdentification(id: Identification, field: Field): Outcome
  {
    Then(Ensure(id.tipo in IdentificationTypes, TipoIdentificacionInvalido, field),
         Ensure(IdentificationNumberOk(id.numero), NumeroIdentificacionInvalido, field))
  }

  /** An identification passes exactly when its type is 01–04 and its number is 9 to 20
      ASCII letters or digits; a failure always names the field the caller gave. */
  lemma ValidateIdentificationIff(id: Identification, field: Field)
    ensures ValidateIdentification(id, field) == Pass <==>
      (id.tipo in {"01", "02", "03", "04"} && 9 <= |id.numero| <= 20
       && forall i :: 0 <= i < |id.numero| ==> IsAlnum(id.numero[i]))
    ensures ValidateIdentification(id, field).Fail? ==> ValidateIdentification(id, field).error.field == field
    ensures id.tipo == "05" ==>
      ValidateIdentification(id, field) == Fail(ValidationError(TipoIdentificacionInvalido, field))
  {
  }

  /** `validate_medios_pago(medios_pago)` */
  function ValidateMediosPago(ms: seq<PaymentMethod>): (r: Outcome)
    ensures r == Pass <==> |ms| > 0
    ensures r.Fail? ==> r.error.field == MedioPago
  {
    Ensure(|ms| > 0, SinMedioPago, MedioPago)
  }

  // ---------------------------------------------------------------------------
  // Lines
  // ---------------------------------------------------------------------------

  /** The line rules stated directly. */
  predicate LineOk(l: InvoiceLine)
  {
    && l.numeroLinea > 0
    && l.cantidad >= 0.0 && l.precioUnitario >= 0.0 && l.montoTotal >= 0.0 && l.subTotal >= 0.0
    && (l.baseImponible.Some? ==> l.baseImponible.value >= 0.0)
    && (l.impuesto.Some? ==> l.impuesto.value.monto >= 0.0 && 0.0 <= l.impuesto.value.tarifa <= 100.0)
  }

  /** The optional base check: only a line that carries a base is checked. */
  function BaseImponibleCheck(base: Option<real>): Outcome
  {
    if base.Some? then
      Ensure(base.value >= 0.0, BaseImponibleNegativa, BaseImponible)
    else Pass
  }

  /** The optional tax checks: amount first, then rate. */
  function ImpuestoCheck(impuesto: Option<Tax>): Outcome
  {
    if impuesto.Some? then
      Then(Ensure(impuesto.value.monto >= 0.0, MontoImpuestoInvalido, ImpuestoMonto),
           Ensure(0.0 <= impuesto.value.tarifa <= 100.0, TarifaImpuestoInvalida, ImpuestoTarifa))
    else Pass
  }

  /** `validate_invoice_line(linea)`: its checks in source order, the first failure
      reported. A line passes exactly when every line rule holds. */
  function ValidateInvoiceLine(l: InvoiceLine): (r: Outcome)
    ensures r == Pass <==> LineOk(l)
  {
    Then(Ensure(l.numeroLinea > 0, NumeroLineaNoPositivo, NumeroLinea),
    Then(Ensure(l.cantidad >= 0.0, CantidadNegativa, Cantidad),
    Then(Ensure(l.precioUnitario >= 0.0, PrecioUnitarioNegativo, PrecioUnitario),
    Then(Ensure(l.montoTotal >= 0.0, MontoTotalNegativo, MontoTotal),
    Then(Ensure(l.subTotal >= 0.0, SubTotalNegativo, SubTotal),
    Then(BaseImponibleCheck(l.baseImponible),
         ImpuestoCheck(l.impuesto)))))))
  }

  /** A line whose number is not positive is rejected on NumeroLinea before anything
      else about it is looked at. */
  lemma NonPositiveLineNumberFirst(l: InvoiceLine)
    requires l.numeroLinea <= 0
    ensures ValidateInvoiceLine(l) == Fail(ValidationError(NumeroLineaNoPositivo, NumeroLinea))
  {
  }

  /** A tax rate outside 0–100 is reported on ImpuestoTarifa once everything checked
      before it holds. */
  lemma TarifaOutOfRangeFails(l: InvoiceLine)
    requires l.numeroLinea > 0 && l.cantidad >= 0.0 && l.precioUnitario >= 0.0
    requires l.montoTotal >= 0.0 && l.subTotal >= 0.0
    requires l.baseImponible.Some? ==> l.baseImponible.value >= 0.0
    requires l.impuesto.Some? && l.impuesto.value.monto >= 0.0 && l.impuesto.value.tarifa > 100.0
    ensures ValidateInvoiceLine(l) == Fail(ValidationError(TarifaImpuestoInvalida, ImpuestoTarifa))
  {
  }

  function LineNumbers(lines: seq<InvoiceLine>): set<int>
  {
    set i | 0 <= i < |lines| :: lines[i].numeroLinea
  }

  const DuplicateLine := ValidationError(NumeroLineaDuplicado, NumeroLinea)

  /** One pass of the line loop: validate the line, then reject a number already seen. */
  function LineStep(l: InvoiceLine, seen: set<int>): Outcome
  {
    Then(ValidateInvoiceLine(l), Ensure(l.numeroLinea !in seen, DuplicateLine.message, DuplicateLine.field))
  }

  /** The line loop over `lines`, as the first failing step. */
  function LinesOutcome(lines: seq<InvoiceLine>): Outcome
  {
    if lines == [] then Pass
    else
      var init := lines[..|lines| - 1];
      Then(LinesOutcome(init), LineStep(lines[|lines| - 1], LineNumbers(init)))
  }

  lemma LineNumbersSnoc(init: seq<InvoiceLine>, l: InvoiceLine)
    ensures LineNumbers(init + [l]) == LineNumbers(init) + {l.numeroLinea}
  {
    var s := init + [l];
    forall x | x in LineNumbers(s) ensures x in LineNumbers(init) + {l.numeroLinea} {
      var i :| 0 <= i < |s| && s[i].numeroLinea == x;
      if i < |init| { assert init[i] == s[i]; }
    }
    forall x | x in LineNumbers(init) ensures x in LineNumbers(s) {
      var i :| 0 <= i < |init| && init[i].numeroLinea == x;
      assert s[i] == init[i];
    }
    assert s[|init|] == l;
  }

  /** Lines with pairwise distinct numbers. */
  predicate DistinctLineNumbers(lines: seq<InvoiceLine>)
  {
    forall i, j :: 0 <= i < j < |lines| ==> lines[i].numeroLinea != lines[j].numeroLinea
  }

  /** The line loop passes exactly when every line is valid and no number repeats. */
  lemma {:induction false} LinesOutcomeIff(lines: seq<InvoiceLine>)
    ensures LinesOutcome(lines) == Pass <==>
      (forall k :: 0 <= k < |lines| ==> LineOk(lines[k])) && DistinctLineNumbers(lines)
  {
    if lines != [] {
      var init := lines[..|lines| - 1];
      var last := lines[|lines| - 1];
      LinesOutcomeIff(init);
      assert lines == init + [last];
      if LinesOutcome(lines) == Pass {
        assert last.numeroLinea !in LineNumbers(init);
        forall i, j | 0 <= i < j < |lines| ensures lines[i].numeroLinea != lines[j].numeroLinea {
          if j == |lines| - 1 {
            assert lines[i].numeroLinea in LineNumbers(init) by { assert init[i] == lines[i]; }
          } else {
            assert init[i] == lines[i] && init[j] == lines[j];
          }
        }
        forall k | 0 <= k < |lines| ensures LineOk(lines[k]) {
          if k < |lines| - 1 { assert init[k] == lines[k]; }
        }
      }
      if (forall k :: 0 <= k < |lines| ==> LineOk(lines[k])) && DistinctLineNumbers(lines) {
        assert forall k :: 0 <= k < |init| ==> LineOk(init[k]) by {
          forall k | 0 <= k < |init| ensures LineOk(init[k]) { assert init[k] == lines[k]; }
        }
        assert DistinctLineNumbers(init) by {
          forall i, j | 0 <= i < j < |init| ensures init[i].numeroLinea != init[j].numeroLinea {
            assert init[i] == lines[i] && init[j] == lines[j];
          }
        }
        forall x | x in LineNumbers(init) ensures x != last.numeroLinea {
          var i :| 0 <= i < |init| && init[i].numeroLinea == x;
          assert lines[i] == init[i];
        }
      }
    }
  }

  /** Once the line loop has failed on a prefix, the whole loop fails with that error. */
  lemma {:induction false} LinesOutcomeKeepsFirstFailure(lines: seq<InvoiceLine>, n: nat)
    requires n <= |lines|
    requires LinesOutcome(lines[..n]).Fail?
    ensures LinesOutcome(lines) == LinesOutcome(lines[..n])
    decreases |lines| - n
  {
    if n < |lines| {
      assert lines[..n + 1][..n] == lines[..n];
      LinesOutcomeKeepsFirstFailure(lines, n + 1);
    } else {
      assert lines[..n] == lines;
    }
  }

  /** Every line is valid but two carry the same number: the loop fails with NumeroLinea
      at the first repeat. */
  lemma DuplicateNumberFails(lines: seq<InvoiceLine>, i: nat, j: nat)
    requires i < j < |lines| && lines[i].numeroLinea == lines[j].numeroLinea
    requires forall k :: 0 <= k < |lines| ==> LineOk(lines[k])
    ensures LinesOutcome(lines) == Fail(DuplicateLine)
  {
    LinesOutcomeIff(lines);
    AllValidLinesFailOnlyOnRepeat(lines);
  }

  lemma {:induction false} AllValidLinesFailOnlyOnRepeat(lines: seq<InvoiceLine>)
    requires forall k :: 0 <= k < |lines| ==> LineOk(lines[k])
    ensures LinesOutcome(lines) == Pass || LinesOutcome(lines) == Fail(DuplicateLine)
  {
    if lines != [] {
      var init := lines[..|lines| - 1];
      assert forall k :: 0 <= k < |init| ==> LineOk(init[k]) by {
        forall k | 0 <= k < |init| ensures LineOk(init[k]) { assert init[k] == lines[k]; }
      }
      AllValidLinesFailOnlyOnRepeat(init);
    }
  }

  // ---------------------------------------------------------------------------
  // The invoice
  // ---------------------------------------------------------------------------

  const ClaveError := ValidationError(ClaveInvalida, Clave)
  const ConsecutivoError := ValidationError(ConsecutivoInvalido, NumeroConsecutivo)
  const FechaError := ValidationError(FechaEmisionInvalida, FechaEmision)
  const CondicionError := ValidationError(CondicionVentaInvalida, CondicionVenta)

  function ClaveRule(inv: ElectronicInvoice): Outcome
  {
    Ensure(IsDigitString(inv.clave, 50), ClaveError.message, ClaveError.field)
  }

  function ConsecutivoRule(inv: ElectronicInvoice): Outcome
  {
    Ensure(IsDigitString(inv.numeroConsecutivo, 20), ConsecutivoError.message, ConsecutivoError.field)
  }

  /** Only a date-and-time is accepted as the issue moment. */
  function FechaRule(inv: ElectronicInvoice): Outcome
  {
    Ensure(inv.fechaEmision.AtDateTime?, FechaError.message, FechaError.field)
  }

  function EmisorRule(inv: ElectronicInvoice): Outcome
  {
    ValidateIdentification(inv.emisor.identificacion, EmisorIdentificacion)
  }

  /** Receptor identification is checked only when there is a receptor carrying one. */
  function ReceptorRule(inv: ElectronicInvoice): Outcome
  {
    if inv.receptor.Some? && inv.receptor.value.identificacion.Some? then
      ValidateIdentification(inv.receptor.value.identificacion.value, ReceptorIdentificacion)
    else Pass
  }

  /** Only a catalogued sale condition is accepted. */
  function CondicionRule(inv: ElectronicInvoice): Outcome
  {
    Ensure(inv.condicionVenta.Catalogued?, CondicionError.message, CondicionError.field)
  }

  function MediosPagoRule(inv: ElectronicInvoice): Outcome
  {
    ValidateMediosPago(inv.mediosPago)
  }

  function LinesRule(inv: ElectronicInvoice): Outcome
  {
    LinesOutcome(IterDetalle(inv))
  }

  function TotalRule(inv: ElectronicInvoice): Outcome
  {
    Ensure(inv.resumen.totalComprobante >= 0.0, TotalComprobanteInvalido,
           ResumenTotalComprobante)
  }

  /** The exchange rate is checked only when one is given. */
  function TipoCambioRule(inv: ElectronicInvoice): Outcome
  {
    if inv.resumen.tipoCambio.Some? then
      Ensure(inv.resumen.tipoCambio.value > 0.0, TipoCambioInvalido,
             ResumenTipoCambio)
    else Pass
  }

  /** What `validate_invoice` decides: its rules run in source order, the first
      failure reported, Pass when none fails. */
  function InvoiceCheck(inv: ElectronicInvoice): Outcome
  {
    Then(ClaveRule(inv), Then(ConsecutivoRule(inv), Then(FechaRule(inv), Then(EmisorRule(inv),
    Then(ReceptorRule(inv), Then(CondicionRule(inv), Then(MediosPagoRule(inv), Then(LinesRule(inv),
    Then(TotalRule(inv), TipoCambioRule(inv))))))))))
  }

  /** The rules of `validate_invoice` by position, in source order. */
  function Rule(inv: ElectronicInvoice, k: nat): Outcome
    requires k < 10
  {
    if k == 0 then ClaveRule(inv)
    else if k == 1 then ConsecutivoRule(inv)
    else if k == 2 then FechaRule(inv)
    else if k == 3 then EmisorRule(inv)
    else if k == 4 then ReceptorRule(inv)
    else if k == 5 then CondicionRule(inv)
    else if k == 6 then MediosPagoRule(inv)
    else if k == 7 then LinesRule(inv)
    else if k == 8 then TotalRule(inv)
    else TipoCambioRule(inv)
  }

  /** The invoice rules stated directly. */
  predicate InvoiceOk(inv: ElectronicInvoice)
  {
    && IsDigitString(inv.clave, 50)
    && IsDigitString(inv.numeroConsecutivo, 20)
    && inv.fechaEmision.AtDateTime?
    && ValidateIdentification(inv.emisor.identificacion, EmisorIdentificacion) == Pass
    && (inv.receptor.Some? && inv.receptor.value.identificacion.Some? ==>
          ValidateIdentification(inv.receptor.value.identificacion.value, ReceptorIdentificacion) == Pass)
    && inv.condicionVenta.Catalogued?
    && |inv.mediosPago| > 0
    && (forall k :: 0 <= k < |inv.detalleServicio| ==> LineOk(inv.detalleServicio[k]))
    && DistinctLineNumbers(inv.detalleServicio)
    && inv.resumen.totalComprobante >= 0.0
    && (inv.resumen.tipoCambio.Some? ==> inv.resumen.tipoCambio.value > 0.0)
  }

  /** `validate_invoice` succeeds exactly when every rule holds. */
  lemma InvoiceCheckIff(inv: ElectronicInvoice)
    ensures InvoiceCheck(inv) == Pass <==> InvoiceOk(inv)
  {
    LinesOutcomeIff(inv.detalleServicio);
  }

  /** A failing invoice is reported on its earliest failing rule, every rule before it
      having passed; a passing invoice passed every rule. */
  lemma InvoiceCheckEarliest(inv: ElectronicInvoice)
    ensures InvoiceCheck(inv) == Pass <==> forall k :: 0 <= k < 10 ==> Rule(inv, k) == Pass
    ensures InvoiceCheck(inv).Fail? ==>
      exists k :: 0 <= k < 10 && Rule(inv, k) == InvoiceCheck(inv)
                  && forall j :: 0 <= j < k ==> Rule(inv, j) == Pass
  {
    var k: nat :=
      if ClaveRule(inv).Fail? then 0
      else if ConsecutivoRule(inv).Fail? then 1
      else if FechaRule(inv).Fail? then 2
      else if EmisorRule(inv).Fail? then 3
      else if ReceptorRule(inv).Fail? then 4
      else if CondicionRule(inv).Fail? then 5
      else if MediosPagoRule(inv).Fail? then 6
      else if LinesRule(inv).Fail? then 7
      else if TotalRule(inv).Fail? then 8
      else 9;
    assert forall j :: 0 <= j < k ==> Rule(inv, j) == Pass;
    if InvoiceCheck(inv).Fail? {
      assert Rule(inv, k) == InvoiceCheck(inv);
    } else {
      assert Rule(inv, 9) == Pass;
    }
  }

  /** A clave that is not exactly 50 ASCII digits is the first thing reported. */
  lemma ClaveCheckedFirst(inv: ElectronicInvoice)
    requires !IsDigitString(inv.clave, 50)
    ensures InvoiceCheck(inv) == Fail(ClaveError) && InvoiceCheck(inv).error.field.Path() == "Clave"
  {
  }

  /** With a valid clave, a consecutive that is not exactly 20 digits is reported next. */
  lemma ConsecutivoCheckedSecond(inv: ElectronicInvoice)
    requires IsDigitString(inv.clave, 50) && !IsDigitString(inv.numeroConsecutivo, 20)
    ensures InvoiceCheck(inv) == Fail(ConsecutivoError)
  {
  }

  /** A receptor without an identification is checked exactly like no receptor at all. */
  lemma ReceptorWithoutIdentificationNeverFails(inv: ElectronicInvoice)
    requires inv.receptor.Some? && inv.receptor.value.identificacion.None?
    ensures InvoiceCheck(inv) == InvoiceCheck(inv.(receptor := None))
  {
  }

  /** No payment method: once the checks before it pass, the gate fails on MedioPago. */
  lemma EmptyMediosPagoFails(inv: ElectronicInvoice)
    requires |inv.mediosPago| == 0
    requires IsDigitString(inv.clave, 50) && IsDigitString(inv.numeroConsecutivo, 20)
    requires inv.fechaEmision.AtDateTime? && inv.condicionVenta.Catalogued?
    requires EmisorRule(inv) == Pass && ReceptorRule(inv) == Pass
    ensures InvoiceCheck(inv) == Fail(ValidationError(SinMedioPago, MedioPago))
  {
  }

  /** The line loop of `validate_invoice`: each line is validated, then its number is
      looked up in the set of numbers seen so far. */
  method ValidateLines(lines: seq<InvoiceLine>) returns (r: Outcome)
    ensures r == LinesOutcome(lines)
  {
    var seen: set<int> := {};
    var i := 0;
    while i < |lines|
      invariant 0 <= i <= |lines|
      invariant LinesOutcome(lines[..i]) == Pass
      invariant seen == LineNumbers(lines[..i])
    {
      assert lines[..i + 1][..i] == lines[..i];
      var lineCheck := ValidateInvoiceLine(lines[i]);
      if lineCheck.Fail? {
        LinesOutcomeKeepsFirstFailure(lines, i + 1);
        return lineCheck;
      }
      if lines[i].numeroLinea in seen {
        LinesOutcomeKeepsFirstFailure(lines, i + 1);
        return Fail(DuplicateLine);
      }
      assert lines[..i + 1] == lines[..i] + [lines[i]];
      LineNumbersSnoc(lines[..i], lines[i]);
      seen := seen + {lines[i].numeroLinea};
      i := i + 1;
    }
    assert lines[..i] == lines;
    return Pass;
  }

  /** `validate_invoice`: the checks in source order, the first failure returned at once. */
  method ValidateInvoice(inv: ElectronicInvoice) returns (r: Outcome)
    ensures r == InvoiceCheck(inv)
  {
    if !IsDigitString(inv.clave, 50) { return Fail(ClaveError); }
    if !IsDigitString(inv.numeroConsecutivo, 20) { return Fail(ConsecutivoError); }
    if !inv.fechaEmision.AtDateTime? { return Fail(FechaError); }
    r := ValidateIdentification(inv.emisor.identificacion, EmisorIdentificacion);
    if r.Fail? { return; }
    if inv.receptor.Some? && inv.receptor.value.identificacion.Some? {
      r := ValidateIdentification(inv.receptor.value.identificacion.value, ReceptorIdentificacion);
      if r.Fail? { return; }
    }
    if !inv.condicionVenta.Catalogued? { return Fail(CondicionError); }
    r := ValidateMediosPago(inv.mediosPago);
    if r.Fail? { return; }
    r := ValidateLines(IterDetalle(inv));
    if r.Fail? { return; }
    if inv.resumen.totalComprobante < 0.0 {
      return Fail(ValidationError(TotalComprobanteInvalido, ResumenTotalComprobante));
    }
    if inv.resumen.tipoCambio.Some? && inv.resumen.tipoCambio.value <= 0.0 {
      return Fail(ValidationError(TipoCambioInvalido, ResumenTipoCambio));
    }
    return Pass;
  }
}
