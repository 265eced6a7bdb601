/** The v4.4 invoice data model: the two closed code catalogs, the value records
    an invoice is made of, and the two derived views of an invoice the builder
    reads (`sorted_medios_pago`, `iter_detalle`). */
module Models {
  import opened Wrappers
  import opened Text

  // ---------------------------------------------------------------------------
  // Catalogs
  // ---------------------------------------------------------------------------

  /** Sale condition catalog; each variant is identified on the wire by its code. */
  datatype SaleCondition = Contado | Credito | Consignacion | Apartado | Arrendamiento | Otro
  {
    function Code(): string
    {
      match this
      case Contado => "01"
      case Credito => "02"
      case Consignacion => "03"
      case Apartado => "04"
      case Arrendamiento => "05"
      case Otro => "99"
    }
  }

  /** Payment method catalog. */
  datatype PaymentMethod = Efectivo | Tarjeta | Cheque | TransferenciaDeposito | RecaudadoPorTerceros | Sinpe | Otros
  {
    function Code(): string
    {
      match this
      case Efectivo => "01"
      case Tarjeta => "02"
      case Cheque => "03"
      case TransferenciaDeposito => "04"
      case RecaudadoPorTerceros => "05"
      case Sinpe => "06"
      case Otros => "99"
    }
  }

  /** `SaleCondition(code)`: lookup by value; `None` where Python raises ValueError. */
  function SaleConditionFromCode(code: string): (r: Option<SaleCondition>)
    ensures r.Some? ==> r.value.Code() == code
    ensures r.None? ==> code !in {"01", "02", "03", "04", "05", "99"}
  {
    if code == "01" then Some(Contado)
    else if code == "02" then Some(Credito)
    else if code == "03" then Some(Consignacion)
    else if code == "04" then Some(Apartado)
    else if code == "05" then Some(Arrendamiento)
    else if code == "99" then Some(Otro)
    else None
  }

  /** `PaymentMethod(code)`: lookup by value; `None` where Python raises ValueError. */
  function PaymentMethodFromCode(code: string): (r: Option<PaymentMethod>)
    ensures r.Some? ==> r.value.Code() == code
    ensures r.None? ==> code !in {"01", "02", "03", "04", "05", "06", "99"}
  {
    if code == "01" then Some(Efectivo)
    else if code == "02" then Some(Tarjeta)
    else if code == "03" then Some(Cheque)
    else if code == "04" then Some(TransferenciaDeposito)
    else if code == "05" then Some(RecaudadoPorTerceros)
    else if code == "06" then Some(Sinpe)
    else if code == "99" then Some(Otros)
    else None
  }

  /** Every sale condition code is a two-digit string, and the code determines the variant. */
  lemma SaleConditionCodes(a: SaleCondition, b: SaleCondition)
    ensures IsDigitString(a.Code(), 2)
    ensures SaleConditionFromCode(a.Code()) == Some(a)
    ensures a.Code() == b.Code() ==> a == b
  {
  }

  /** Every payment method code is a two-digit string, and the code determines the variant. */
  lemma PaymentMethodCodes(a: PaymentMethod, b: PaymentMethod)
    ensures IsDigitString(a.Code(), 2)
    ensures PaymentMethodFromCode(a.Code()) == Some(a)
    ensures a.Code() == b.Code() ==> a == b
  {
  }

  /** Python's `<` on `str`: lexicographic by code point. */
  predicate StrLess(a: string, b: string)
  {
    if b == [] then false
    else if a == [] then true
    else if a[0] != b[0] then a[0] < b[0]
    else StrLess(a[1..], b[1..])
  }

  /** The payment catalog listed in ascending code order. */
  const PaymentCatalog: seq<PaymentMethod> :=
    [Efectivo, Tarjeta, Cheque, TransferenciaDeposito, RecaudadoPorTerceros, Sinpe, Otros]

  predicate StrictlyIncreasingByCode(ms: seq<PaymentMethod>)
  {
    forall i, j :: 0 <= i < j < |ms| ==> StrLess(ms[i].Code(), ms[j].Code())
  }

  lemma {:induction false} StrLessIrreflexive(a: string)
    ensures !StrLess(a, a)
  {
    if a != [] { StrLessIrreflexive(a[1..]); }
  }

  /** The catalog lists every payment method, in rank order. */
  lemma PaymentCatalogSorted()
    ensures forall m: PaymentMethod :: m in PaymentCatalog
    ensures forall i, j :: 0 <= i < j < |PaymentCatalog| ==> Rank(PaymentCatalog[i]) < Rank(PaymentCatalog[j])
  {
    forall m: PaymentMethod ensures m in PaymentCatalog {
      assert PaymentCatalog[Rank(m)] == m;
    }
  }

  // ---------------------------------------------------------------------------
  // Dates and times (only their calendar fields; formatting lives with its users)
  // ---------------------------------------------------------------------------

  type Year = y: int | 1 <= y <= 9999 witness 1
  type Month = m: int | 1 <= m <= 12 witness 1
  type Day = d: int | 1 <= d <= 31 witness 1
  type Hour = h: int | 0 <= h < 24
  type Minute = m: int | 0 <= m < 60
  type Second = s: int | 0 <= s < 60

  /** A `datetime.date`. */
  datatype CalendarDate = CalendarDate(year: Year, month: Month, day: Day)

  /** A `datetime.datetime` at second precision; `utcOffset` is the offset in minutes
      of an aware value, `None` for a naive one. */
  datatype DateTime = DateTime(date: CalendarDate, hour: Hour, minute: Minute, second: Second,
                               utcOffset: Option<int>)

  /** What can reach `ElectronicInvoice.fecha_emision` at run time: a `datetime`, or a
      plain `date` (which is not an instance of `datetime`). */
  datatype IssueMoment = AtDateTime(dateTime: DateTime) | OnDate(date: CalendarDate)

  /** What can reach `ElectronicInvoice.condicion_venta`: a catalog member, or a bare
      code string (which is not an instance of `SaleCondition`). */
  datatype SaleConditionValue = Catalogued(condition: SaleCondition) | BareCode(code: string)

  /** What can reach `ElectronicInvoice.plazo_credito` at run time: a string, or an
      `int` day count (which is not an instance of `str`). */
  datatype CreditTermValue = TermText(text: string) | TermDays(days: int)

  // ---------------------------------------------------------------------------
  // Records (all amounts are exact decimals, modelled as reals)
  // ---------------------------------------------------------------------------

  datatype Phone = Phone(codigoPais: string, numero: string)

  datatype Identification = Identification(tipo: string, numero: string)

  datatype Location = Location(provincia: string, canton: string, distrito: string,
                               barrio: Option<string>, otrasSenas: Option<string>)

  datatype Emisor = Emisor(nombre: string, identificacion: Identification,
                           nombreComercial: Option<string>, ubicacion: Option<Location>,
                           telefono: Option<Phone>, fax: Option<Phone>,
                           correoElectronico: Option<string>)

  datatype Receptor = Receptor(nombre: string, identificacion: Option<Identification>,
                               identificacionExtranjero: Option<string>,
                               nombreComercial: Option<string>, ubicacion: Option<Location>,
                               telefono: Option<Phone>, fax: Option<Phone>,
                               correoElectronico: Option<string>)

  datatype TaxExoneration = TaxExoneration(tipoDocumento: string, numeroDocumento: string,
                                           nombreInstitucion: string, fechaEmision: DateTime,
                                           porcentajeExoneracion: real, montoExoneracion: real)

  datatype Tax = Tax(codigo: string, tarifa: real, monto: real, codigoTarifa: Option<string>,
                     factorIva: Option<real>, exoneracion: Option<TaxExoneration>)

  datatype OtherCharge = OtherCharge(tipoDocumento: string, numeroDocumento: string,
                                     nombreInstitucion: string, fechaEmision: DateTime,
                                     montoCargo: real)

  datatype Discount = Discount(monto: real, naturaleza: string)

  datatype InvoiceLine = InvoiceLine(
    numeroLinea: int, codigo: Option<string>, cantidad: real, unidadMedida: string,
    detalle: string, precioUnitario: real, montoTotal: real, subTotal: real,
    baseImponible: Option<real>, impuesto: Option<Tax>, impuestoNeto: Option<real>,
    descuento: Option<Discount>, otrosCargos: seq<OtherCharge>)

  /** The totals of `InvoiceSummary`, one name per field. */
  datatype SummaryTotal =
    | TotalServGravados | TotalServExentos | TotalServExonerado | TotalServNoSujeto | TotalServOtros
    | TotalMercanciasGravadas | TotalMercanciasExentas | TotalMercanciasExoneradas
    | TotalMercanciasNoSujeto | TotalMercanciasOtros
    | TotalGravado | TotalExento | TotalExonerado | TotalNoSujeto | TotalOtros
    | TotalVenta | TotalDescuentos | TotalVentaNeta | TotalImpuestos | TotalIvaDevuelto
    | TotalOtrosCargos | TotalComprobante

  datatype InvoiceSummary = InvoiceSummary(
    moneda: string, tipoCambio: Option<real>,
    totalServGravados: real, totalServExentos: real, totalServExonerado: real,
    totalServNoSujeto: real, totalServOtros: real,
    totalMercanciasGravadas: real, totalMercanciasExentas: real, totalMercanciasExoneradas: real,
    totalMercanciasNoSujeto: real, totalMercanciasOtros: real,
    totalGravado: real, totalExento: real, totalExonerado: real, totalNoSujeto: real,
    totalOtros: real, totalVenta: real, totalDescuentos: real, totalVentaNeta: real,
    totalImpuestos: real, totalIvaDevuelto: real, totalOtrosCargos: real,
    totalComprobante: real)
  {
    /** The value of one named total. */
    function Total(t: SummaryTotal): real
    {
      match t
      case TotalServGravados => totalServGravados
      case TotalServExentos => totalServExentos
      case TotalServExonerado => totalServExonerado
      case TotalServNoSujeto => totalServNoSujeto
      case TotalServOtros => totalServOtros
      case TotalMercanciasGravadas => totalMercanciasGravadas
      case TotalMercanciasExentas => totalMercanciasExentas
      case TotalMercanciasExoneradas => totalMercanciasExoneradas
      case TotalMercanciasNoSujeto => totalMercanciasNoSujeto
      case TotalMercanciasOtros => totalMercanciasOtros
      case TotalGravado => totalGravado
      case TotalExento => totalExento
      case TotalExonerado => totalExonerado
      case TotalNoSujeto => totalNoSujeto
      case TotalOtros => totalOtros
      case TotalVenta => totalVenta
      case TotalDescuentos => totalDescuentos
      case TotalVentaNeta => totalVentaNeta
      case TotalImpuestos => totalImpuestos
      case TotalIvaDevuelto => totalIvaDevuelto
      case TotalOtrosCargos => totalOtrosCargos
      case TotalComprobante => totalComprobante
    }
  }

  function Given(supplied: map<SummaryTotal, real>, t: SummaryTotal): real
  {
    if t in supplied then supplied[t] else 0.0
  }

  /** `InvoiceSummary(moneda, tipo_cambio, **supplied)`: every total passed by keyword
      keeps its value, every other total takes its declared default `Decimal("0")`. */
  function MakeSummary(moneda: string, tipoCambio: Option<real>, supplied: map<SummaryTotal, real>)
    : (s: InvoiceSummary)
    ensures s.moneda == moneda && s.tipoCambio == tipoCambio
    ensures forall t :: s.Total(t) == (if t in supplied then supplied[t] else 0.0)
  {
    InvoiceSummary(moneda, tipoCambio,
      Given(supplied, TotalServGravados), Given(supplied, TotalServExentos),
      Given(supplied, TotalServExonerado), Given(supplied, TotalServNoSujeto),
      Given(supplied, TotalServOtros),
      Given(supplied, TotalMercanciasGravadas), Given(supplied, TotalMercanciasExentas),
      Given(supplied, TotalMercanciasExoneradas), Given(supplied, TotalMercanciasNoSujeto),
      Given(supplied, TotalMercanciasOtros),
      Given(supplied, TotalGravado), Given(supplied, TotalExento), Given(supplied, TotalExonerado),
      Given(supplied, TotalNoSujeto), Given(supplied, TotalOtros), Given(supplied, TotalVenta),
      Given(supplied, TotalDescuentos), Given(supplied, TotalVentaNeta),
      Given(supplied, TotalImpuestos), Given(supplied, TotalIvaDevuelto),
      Given(supplied, TotalOtrosCargos), Given(supplied, TotalComprobante))
  }

  datatype ReferenceInformation = ReferenceInformation(tipoDocumento: string, numeroDocumento: string,
                                                       fechaEmision: DateTime, codigo: string,
                                                       razon: string)

  datatype ElectronicInvoice = ElectronicInvoice(
    clave: string, codigoActividad: string, numeroConsecutivo: string,
    fechaEmision: IssueMoment, emisor: Emisor, receptor: Option<Receptor>,
    condicionVenta: SaleConditionValue, plazoCredito: Option<CreditTermValue>,
    mediosPago: seq<PaymentMethod>, detalleServicio: seq<InvoiceLine>,
    resumen: InvoiceSummary, informacionReferencia: seq<ReferenceInformation>,
    otrosCargos: seq<OtherCharge>)

  /** Python truthiness of an optional string: present and non-empty. */
  predicate Truthy(o: Option<string>) { o.Some? && o.value != "" }

  /** Python truthiness of an optional credit term: a non-empty string or a non-zero
      day count. */
  predicate CreditTruthy(o: Option<CreditTermValue>)
  {
    o.Some? && (if o.value.TermText? then o.value.text != "" else o.value.days != 0)
  }

  // ---------------------------------------------------------------------------
  // Derived views
  // ---------------------------------------------------------------------------

  /** Position of a payment method in the catalog. */
  function Rank(m: PaymentMethod): nat
  {
    match m
    case Efectivo => 0
    case Tarjeta => 1
    case Cheque => 2
    case TransferenciaDeposito => 3
    case RecaudadoPorTerceros => 4
    case Sinpe => 5
    case Otros => 6
  }

  /** Catalog position order is code order. */
  lemma RankIsCodeOrder(a: PaymentMethod, b: PaymentMethod)
    ensures Rank(a) < Rank(b) ==> StrLess(a.Code(), b.Code())
  {
  }

  /** The catalog entries of `catalog` that occur in `ms`, in catalog order. */
  function PresentIn(catalog: seq<PaymentMethod>, ms: seq<PaymentMethod>): (r: seq<PaymentMethod>)
    ensures forall m :: m in r <==> m in catalog && m in ms
  {
    if catalog == [] then []
    else
      var rest := PresentIn(catalog[1..], ms);
      if catalog[0] in ms then [catalog[0]] + rest else rest
  }

  predicate RankIncreasing(s: seq<PaymentMethod>)
  {
    forall i, j :: 0 <= i < j < |s| ==> Rank(s[i]) < Rank(s[j])
  }

  /** Filtering a rank-increasing catalog keeps the ranks increasing. */
  lemma {:induction false} PresentInIncreasing(catalog: seq<PaymentMethod>, ms: seq<PaymentMethod>)
    requires RankIncreasing(catalog)
    ensures RankIncreasing(PresentIn(catalog, ms))
  {
    if catalog != [] {
      var tail := catalog[1..];
      var rest := PresentIn(tail, ms);
      PresentInIncreasing(tail, ms);
      if catalog[0] in ms {
        var r := [catalog[0]] + rest;
        assert PresentIn(catalog, ms) == r;
        forall i, j | 0 <= i < j < |r| ensures Rank(r[i]) < Rank(r[j]) {
          assert r[j] == rest[j - 1];
          if i == 0 {
            assert rest[j - 1] in rest;
            assert rest[j - 1] in tail;
            var k :| 0 <= k < |tail| && tail[k] == rest[j - 1];
            assert tail[k] == catalog[k + 1];
            assert r[i] == catalog[0];
            assert Rank(catalog[0]) < Rank(catalog[k + 1]);
          } else {
            assert r[i] == rest[i - 1];
            assert Rank(rest[i - 1]) < Rank(rest[j - 1]);
          }
        }
      }
    }
  }

  /** `ElectronicInvoice.sorted_medios_pago`: `sorted(set(medios_pago), key=value)`.
      The catalog is finite and already in code order, so the sorted set is the
      catalog filtered by membership. */
  function SortedMediosPago(ms: seq<PaymentMethod>): (r: seq<PaymentMethod>)
    ensures forall m :: m in r <==> m in ms
    ensures StrictlyIncreasingByCode(r)
    ensures forall i, j :: 0 <= i < j < |r| ==> r[i] != r[j]
    ensures |r| == 0 <==> |ms| == 0
    ensures |r| <= |ms|
  {
    PaymentCatalogSorted();
    var r := PresentIn(PaymentCatalog, ms);
    PresentInIncreasing(PaymentCatalog, ms);
    assert StrictlyIncreasingByCode(r) by {
      forall i, j | 0 <= i < j < |r| ensures StrLess(r[i].Code(), r[j].Code()) {
        RankIsCodeOrder(r[i], r[j]);
      }
    }
    assert |ms| > 0 ==> ms[0] in r;
    DistinctLength(r, ms);
    r
  }

  /** A duplicate-free sequence whose elements all occur in `ms` is no longer than `ms`. */
  lemma DistinctLength(r: seq<PaymentMethod>, ms: seq<PaymentMethod>)
    requires forall i, j :: 0 <= i < j < |r| ==> r[i] != r[j]
    requires forall m :: m in r ==> m in ms
    ensures |r| <= |ms|
  {
    var sr := set m | m in r;
    var sm := set m | m in ms;
    DistinctCard(r);
    SeqSetCard(ms);
    assert sr <= sm;
    assert sm == sr + (sm - sr);
    assert |sm| == |sr| + |sm - sr|;
  }

  lemma {:induction false} DistinctCard(r: seq<PaymentMethod>)
    requires forall i, j :: 0 <= i < j < |r| ==> r[i] != r[j]
    ensures |set m | m in r| == |r|
  {
    if r != [] {
      DistinctCard(r[1..]);
      assert (set m | m in r) == {r[0]} + (set m | m in r[1..]);
      assert r[0] !in r[1..];
    }
  }

  lemma {:induction false} SeqSetCard(ms: seq<PaymentMethod>)
    ensures |set m | m in ms| <= |ms|
  {
    if ms != [] {
      SeqSetCard(ms[1..]);
      assert (set m | m in ms) == {ms[0]} + (set m | m in ms[1..]);
    }
  }

  /** `ElectronicInvoice.iter_detalle`: yields the lines of `detalle_servicio` in order. */
  function IterDetalle(inv: ElectronicInvoice): seq<InvoiceLine>
  {
    inv.detalleServicio
  }
}
