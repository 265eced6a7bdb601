/** `fe_cr/xml_builder.py`: the v4.4 `FacturaElectronica` element tree built from
    an `ElectronicInvoice`. Each `_append_*` helper is a method that grows its
    parent element in place; each is proved to append exactly the node that a
    specification function describes, and the layout, payment, detail, summary
    and total properties are proved about those functions. */
module XmlBuilder {
  import opened Wrappers
  import opened Text
  import opened Models
  import opened DecimalText
  import V = Validation
  import X = Xml

  const NamespaceUri := "https://cdn.comprobanteselectronicos.go.cr/xml-schemas/v4.4/facturaElectronica"
  const SchemaLocationUri := "https://cdn.comprobanteselectronicos.go.cr/xml-schemas/v4.4/facturaElectronica.xsd"
  const XsiUri := "http://www.w3.org/2001/XMLSchema-instance"

  /** The root's attributes: the default namespace, the `xsi` prefix, and the
      namespace/schema pair of `xsi:schemaLocation`. */
  function RootAttrs(): seq<X.Attr>
  {
    [X.Attr(X.Xmlns, NamespaceUri), X.Attr(X.XmlnsXsi, XsiUri),
     X.Attr(X.XsiSchemaLocation, NamespaceUri + " " + SchemaLocationUri)]
  }

  /** The characters of an element's text: `_decimal_to_text(value)` (five places,
      the default every call of the builder uses), `_datetime_to_text(value)`, or
      `str(value)`. An unconverted `int` is never written, since the serialiser
      refuses it (`RenderInvoice`); its `str` stands in here. */
  function Render(c: X.Content): string
  {
    match c
    case Str(s) => s
    case Amount(v) => DecimalToText(v, 5)
    case Timestamp(d) => DateTimeToText(d)
    case Integer(i) => IntToString(i)
    case Unconverted(n) => IntToString(n)
  }

  /** A leaf written only when the optional string is truthy. */
  function OptLeaf(tag: X.Tag, o: Option<string>): seq<X.Node>
  {
    if Truthy(o) then [X.Leaf(tag, X.Str(o.value))] else []
  }

  /** The text `_text` stores for a credit term: a string as is, an `int` as itself. */
  function CreditContent(t: CreditTermValue): X.Content
  {
    if t.TermText? then X.Str(t.text) else X.Unconverted(t.days)
  }

  /** `PlazoCredito`, written only when the credit term is truthy. */
  function CreditLeaf(o: Option<CreditTermValue>): seq<X.Node>
  {
    if CreditTruthy(o) then [X.Leaf(X.PlazoCredito, CreditContent(o.value))] else []
  }

  /** A leaf written only when the optional amount is not `None`. */
  function OptAmount(tag: X.Tag, o: Option<real>): seq<X.Node>
  {
    if o.Some? then [X.Leaf(tag, X.Amount(o.value))] else []
  }

  /** `if value: _text(parent, tag, value)` */
  method AppendOptLeaf(parent: X.Element, tag: X.Tag, o: Option<string>)
    modifies parent
    ensures parent.children == old(parent.children) + OptLeaf(tag, o)
    ensures parent.text == old(parent.text)
  {
    if Truthy(o) {
      parent.SubText(tag, X.Str(o.value));
    }
  }

  /** `if invoice.plazo_credito: _text(root, "PlazoCredito", invoice.plazo_credito)` */
  method AppendCreditTerm(parent: X.Element, o: Option<CreditTermValue>)
    modifies parent
    ensures parent.children == old(parent.children) + CreditLeaf(o)
    ensures parent.text == old(parent.text)
  {
    if CreditTruthy(o) {
      parent.SubText(X.PlazoCredito, CreditContent(o.value));
    }
  }

  /** `if value is not None: _text(parent, tag, _decimal_to_text(value))` */
  method AppendOptAmount(parent: X.Element, tag: X.Tag, o: Option<real>)
    modifies parent
    ensures parent.children == old(parent.children) + OptAmount(tag, o)
    ensures parent.text == old(parent.text)
  {
    if o.Some? {
      parent.SubText(tag, X.Amount(o.value));
    }
  }

  // ---------------------------------------------------------------------------
  // Phones, locations, identifications
  // ---------------------------------------------------------------------------

  function PhoneNode(tag: X.Tag, p: Phone): X.Node
  {
    X.Container(tag, [X.Leaf(X.CodigoPais, X.Str(p.codigoPais)), X.Leaf(X.NumTelefono, X.Str(p.numero))])
  }

  /** `_append_phone(parent, tag, phone)` */
  method AppendPhone(parent: X.Element, tag: X.Tag, phone: Phone)
    modifies parent
    ensures parent.children == old(parent.children) + [PhoneNode(tag, phone)]
    ensures parent.text == old(parent.text)
  {
    var node := new X.Element(X.Unqualified, tag, []);
    node.SubText(X.CodigoPais, X.Str(phone.codigoPais));
    node.SubText(X.NumTelefono, X.Str(phone.numero));
    assert node.children == [X.Leaf(X.CodigoPais, X.Str(phone.codigoPais)), X.Leaf(X.NumTelefono, X.Str(phone.numero))];
    assert node.ToNode() == PhoneNode(tag, phone);
    parent.Append(node.ToNode());
  }

  function LocationNode(loc: Location): X.Node
  {
    X.Container(X.Ubicacion,
      [X.Leaf(X.Provincia, X.Str(loc.provincia)), X.Leaf(X.Canton, X.Str(loc.canton)), X.Leaf(X.Distrito, X.Str(loc.distrito))]
      + OptLeaf(X.Barrio, loc.barrio) + OptLeaf(X.OtrasSenas, loc.otrasSenas))
  }

  /** `_append_location(parent, location)` */
  method AppendLocation(parent: X.Element, loc: Location)
    modifies parent
    ensures parent.children == old(parent.children) + [LocationNode(loc)]
    ensures parent.text == old(parent.text)
  {
    var node := new X.Element(X.Unqualified, X.Ubicacion, []);
    node.SubText(X.Provincia, X.Str(loc.provincia));
    node.SubText(X.Canton, X.Str(loc.canton));
    node.SubText(X.Distrito, X.Str(loc.distrito));
    ghost var want := [X.Leaf(X.Provincia, X.Str(loc.provincia)), X.Leaf(X.Canton, X.Str(loc.canton)),
                       X.Leaf(X.Distrito, X.Str(loc.distrito))];
    assert node.children == want;
    if Truthy(loc.barrio) {
      node.SubText(X.Barrio, X.Str(loc.barrio.value));
    }
    want := want + OptLeaf(X.Barrio, loc.barrio);
    assert node.children == want;
    if Truthy(loc.otrasSenas) {
      node.SubText(X.OtrasSenas, X.Str(loc.otrasSenas.value));
    }
    want := want + OptLeaf(X.OtrasSenas, loc.otrasSenas);
    assert node.children == want;
    parent.Append(node.ToNode());
  }

  function IdentificationNode(id: Identification): X.Node
  {
    X.Container(X.Identificacion, [X.Leaf(X.Tipo, X.Str(id.tipo)), X.Leaf(X.Numero, X.Str(id.numero))])
  }

  method AppendIdentification(parent: X.Element, id: Identification)
    modifies parent
    ensures parent.children == old(parent.children) + [IdentificationNode(id)]
    ensures parent.text == old(parent.text)
  {
    var node := new X.Element(X.Unqualified, X.Identificacion, []);
    node.SubText(X.Tipo, X.Str(id.tipo));
    node.SubText(X.Numero, X.Str(id.numero));
    assert node.children == [X.Leaf(X.Tipo, X.Str(id.tipo)), X.Leaf(X.Numero, X.Str(id.numero))];
    parent.Append(node.ToNode());
  }

  // ---------------------------------------------------------------------------
  // Other charges and taxes
  // ---------------------------------------------------------------------------

  function OtherChargeNode(tag: X.Tag, c: OtherCharge): X.Node
  {
    X.Container(tag,
      [X.Leaf(X.TipoDocumento, X.Str(c.tipoDocumento)), X.Leaf(X.NumeroDocumento, X.Str(c.numeroDocumento)),
       X.Leaf(X.NombreInstitucion, X.Str(c.nombreInstitucion)), X.Leaf(X.FechaEmision, X.Timestamp(c.fechaEmision)),
       X.Leaf(X.MontoCargo, X.Amount(c.montoCargo))])
  }

  /** `_append_other_charge(parent, tag, cargo)` */
  method AppendOtherCharge(parent: X.Element, tag: X.Tag, c: OtherCharge)
    modifies parent
    ensures parent.children == old(parent.children) + [OtherChargeNode(tag, c)]
    ensures parent.text == old(parent.text)
  {
    var node := new X.Element(X.Unqualified, tag, []);
    node.SubText(X.TipoDocumento, X.Str(c.tipoDocumento));
    node.SubText(X.NumeroDocumento, X.Str(c.numeroDocumento));
    node.SubText(X.NombreInstitucion, X.Str(c.nombreInstitucion));
    node.SubText(X.FechaEmision, X.Timestamp(c.fechaEmision));
    node.SubText(X.MontoCargo, X.Amount(c.montoCargo));
    assert node.children == OtherChargeNode(tag, c).children;
    parent.Append(node.ToNode());
  }

  /** One `OtroCargo` per charge, in order. */
  function ChargeNodes(cs: seq<OtherCharge>): (r: seq<X.Node>)
    ensures |r| == |cs| && forall i :: 0 <= i < |cs| ==> r[i] == OtherChargeNode(X.OtroCargo, cs[i])
  {
    if cs == [] then [] else ChargeNodes(cs[..|cs| - 1]) + [OtherChargeNode(X.OtroCargo, cs[|cs| - 1])]
  }

  function ExonerationNode(e: TaxExoneration): X.Node
  {
    X.Container(X.Exoneracion,
      [X.Leaf(X.TipoDocumento, X.Str(e.tipoDocumento)), X.Leaf(X.NumeroDocumento, X.Str(e.numeroDocumento)),
       X.Leaf(X.NombreInstitucion, X.Str(e.nombreInstitucion)), X.Leaf(X.FechaEmision, X.Timestamp(e.fechaEmision)),
       X.Leaf(X.PorcentajeExoneracion, X.Amount(e.porcentajeExoneracion)),
       X.Leaf(X.MontoExoneracion, X.Amount(e.montoExoneracion))])
  }

  /** The `Exoneracion` block of `_append_tax`. */
  method AppendExoneration(parent: X.Element, e: TaxExoneration)
    modifies parent
    ensures parent.children == old(parent.children) + [ExonerationNode(e)]
    ensures parent.text == old(parent.text)
  {
    var exo := new X.Element(X.Unqualified, X.Exoneracion, []);
    exo.SubText(X.TipoDocumento, X.Str(e.tipoDocumento));
    exo.SubText(X.NumeroDocumento, X.Str(e.numeroDocumento));
    exo.SubText(X.NombreInstitucion, X.Str(e.nombreInstitucion));
    exo.SubText(X.FechaEmision, X.Timestamp(e.fechaEmision));
    exo.SubText(X.PorcentajeExoneracion, X.Amount(e.porcentajeExoneracion));
    exo.SubText(X.MontoExoneracion, X.Amount(e.montoExoneracion));
    assert exo.children == ExonerationNode(e).children;
    parent.Append(exo.ToNode());
  }

  function TaxNode(t: Tax): X.Node
  {
    X.Container(X.Impuesto,
      [X.Leaf(X.Codigo, X.Str(t.codigo))] + OptLeaf(X.CodigoTarifa, t.codigoTarifa)
      + [X.Leaf(X.Tarifa, X.Amount(t.tarifa)), X.Leaf(X.Monto, X.Amount(t.monto))]
      + OptAmount(X.FactorIVA, t.factorIva)
      + (if t.exoneracion.Some? then [ExonerationNode(t.exoneracion.value)] else []))
  }

  /** `_append_tax(parent, tax)` */
  method AppendTax(parent: X.Element, t: Tax)
    modifies parent
    ensures parent.children == old(parent.children) + [TaxNode(t)]
    ensures parent.text == old(parent.text)
  {
    var node := new X.Element(X.Unqualified, X.Impuesto, []);
    node.SubText(X.Codigo, X.Str(t.codigo));
    ghost var want := [X.Leaf(X.Codigo, X.Str(t.codigo))];
    assert node.children == want;
    if Truthy(t.codigoTarifa) {
      node.SubText(X.CodigoTarifa, X.Str(t.codigoTarifa.value));
    }
    want := want + OptLeaf(X.CodigoTarifa, t.codigoTarifa);
    assert node.children == want;
    node.SubText(X.Tarifa, X.Amount(t.tarifa));
    node.SubText(X.Monto, X.Amount(t.monto));
    want := want + [X.Leaf(X.Tarifa, X.Amount(t.tarifa)), X.Leaf(X.Monto, X.Amount(t.monto))];
    assert node.children == want;
    if t.factorIva.Some? {
      node.SubText(X.FactorIVA, X.Amount(t.factorIva.value));
    }
    want := want + OptAmount(X.FactorIVA, t.factorIva);
    assert node.children == want;
    if t.exoneracion.Some? {
      AppendExoneration(node, t.exoneracion.value);
    }
    want := want + (if t.exoneracion.Some? then [ExonerationNode(t.exoneracion.value)] else []);
    assert node.children == want;
    parent.Append(node.ToNode());
  }

  // ---------------------------------------------------------------------------
  // ---------------------------------------------------------------------------
  // Detail lines
  // ---------------------------------------------------------------------------

  /** The sum of the charges' amounts. */
  function ChargesSum(cs: seq<OtherCharge>): real
  {
    if cs == [] then 0.0 else ChargesSum(cs[..|cs| - 1]) + cs[|cs| - 1].montoCargo
  }

  /** The tax a line adds: `impuesto_neto` when given, otherwise the tax's amount. */
  function TaxAmount(l: InvoiceLine): real
  {
    if l.impuestoNeto.Some? then l.impuestoNeto.value
    else if l.impuesto.Some? then l.impuesto.value.monto
    else 0.0
  }

  function DiscountAmount(l: InvoiceLine): real
  {
    if l.descuento.Some? then l.descuento.value.monto else 0.0
  }

  /** `MontoTotalLinea`: recomputed from the line's parts, never read from it. */
  function LineTotal(l: InvoiceLine): real
  {
    l.subTotal + TaxAmount(l) - DiscountAmount(l) + ChargesSum(l.otrosCargos)
  }

  /** The running total of `_append_line`: the subtotal, plus the net tax or else the
      tax amount, minus the discount, plus each charge in turn. */
  method ComputeLineTotal(line: InvoiceLine) returns (total: real)
    ensures total == LineTotal(line)
  {
    total := line.subTotal;
    if line.impuestoNeto.Some? {
      total := total + line.impuestoNeto.value;
    } else if line.impuesto.Some? {
      total := total + line.impuesto.value.monto;
    }
    if line.descuento.Some? {
      total := total - line.descuento.value.monto;
    }
    var cargos := line.otrosCargos;
    var i := 0;
    while i < |cargos|
      invariant 0 <= i <= |cargos|
      invariant total == line.subTotal + TaxAmount(line) - DiscountAmount(line) + ChargesSum(cargos[..i])
    {
      assert cargos[..i + 1][..i] == cargos[..i];
      total := total + cargos[i].montoCargo;
      i := i + 1;
    }
    assert cargos[..i] == cargos;
  }

  /** The product code block: always of type "01". */
  function CodigoNode(codigo: string): X.Node
  {
    X.Container(X.Codigo, [X.Leaf(X.Tipo, X.Str("01")), X.Leaf(X.Codigo, X.Str(codigo))])
  }

  method AppendCodigo(parent: X.Element, codigo: string)
    modifies parent
    ensures parent.children == old(parent.children) + [CodigoNode(codigo)]
    ensures parent.text == old(parent.text)
  {
    var node := new X.Element(X.Unqualified, X.Codigo, []);
    node.SubText(X.Tipo, X.Str("01"));
    node.SubText(X.Codigo, X.Str(codigo));
    assert node.children == CodigoNode(codigo).children;
    parent.Append(node.ToNode());
  }

  function DiscountNode(d: Discount): X.Node
  {
    X.Container(X.Descuento, [X.Leaf(X.MontoDescuento, X.Amount(d.monto)), X.Leaf(X.NaturalezaDescuento, X.Str(d.naturaleza))])
  }

  method AppendDiscount(parent: X.Element, d: Discount)
    modifies parent
    ensures parent.children == old(parent.children) + [DiscountNode(d)]
    ensures parent.text == old(parent.text)
  {
    var node := new X.Element(X.Unqualified, X.Descuento, []);
    node.SubText(X.MontoDescuento, X.Amount(d.monto));
    node.SubText(X.NaturalezaDescuento, X.Str(d.naturaleza));
    assert node.children == DiscountNode(d).children;
    parent.Append(node.ToNode());
  }

  /** The children of `LineaDetalle` that describe the item. */
  function LineItem(l: InvoiceLine): seq<X.Node>
  {
    [X.Leaf(X.NumeroLinea, X.Integer(l.numeroLinea))]
    + (if Truthy(l.codigo) then [CodigoNode(l.codigo.value)] else [])
    + [X.Leaf(X.Cantidad, X.Amount(l.cantidad)), X.Leaf(X.UnidadMedida, X.Str(l.unidadMedida)),
       X.Leaf(X.Detalle, X.Str(l.detalle)), X.Leaf(X.PrecioUnitario, X.Amount(l.precioUnitario)),
       X.Leaf(X.MontoTotal, X.Amount(l.montoTotal))]
  }

  /** The discount, if any, and the subtotal. */
  function LineSubTotal(l: InvoiceLine): seq<X.Node>
  {
    (if l.descuento.Some? then [DiscountNode(l.descuento.value)] else [])
    + [X.Leaf(X.SubTotal, X.Amount(l.subTotal))]
  }

  /** The tax children of `LineaDetalle`. */
  function LineTaxes(l: InvoiceLine): seq<X.Node>
  {
    OptAmount(X.BaseImponible, l.baseImponible)
    + (if l.impuesto.Some? then [TaxNode(l.impuesto.value)] else [])
    + OptAmount(X.ImpuestoNeto, l.impuestoNeto)
  }

  function LineChildren(l: InvoiceLine): seq<X.Node>
  {
    LineItem(l) + LineSubTotal(l) + LineTaxes(l) + ChargeNodes(l.otrosCargos)
    + [X.Leaf(X.MontoTotalLinea, X.Amount(LineTotal(l)))]
  }

  function LineNode(l: InvoiceLine): X.Node
  {
    X.Container(X.LineaDetalle, LineChildren(l))
  }

  method AppendLineItem(node: X.Element, line: InvoiceLine)
    modifies node
    ensures node.children == old(node.children) + LineItem(line)
    ensures node.text == old(node.text)
  {
    ghost var start := node.children;
    node.SubText(X.NumeroLinea, X.Integer(line.numeroLinea));
    ghost var want := start + [X.Leaf(X.NumeroLinea, X.Integer(line.numeroLinea))];
    assert node.children == want;
    if Truthy(line.codigo) {
      AppendCodigo(node, line.codigo.value);
    }
    want := want + (if Truthy(line.codigo) then [CodigoNode(line.codigo.value)] else []);
    assert node.children == want;
    node.SubText(X.Cantidad, X.Amount(line.cantidad));
    node.SubText(X.UnidadMedida, X.Str(line.unidadMedida));
    node.SubText(X.Detalle, X.Str(line.detalle));
    node.SubText(X.PrecioUnitario, X.Amount(line.precioUnitario));
    node.SubText(X.MontoTotal, X.Amount(line.montoTotal));
    want := want + [X.Leaf(X.Cantidad, X.Amount(line.cantidad)), X.Leaf(X.UnidadMedida, X.Str(line.unidadMedida)),
       X.Leaf(X.Detalle, X.Str(line.detalle)), X.Leaf(X.PrecioUnitario, X.Amount(line.precioUnitario)),
       X.Leaf(X.MontoTotal, X.Amount(line.montoTotal))];
    assert node.children == want;
  }

  method AppendLineSubTotal(node: X.Element, line: InvoiceLine)
    modifies node
    ensures node.children == old(node.children) + LineSubTotal(line)
    ensures node.text == old(node.text)
  {
    ghost var start := node.children;
    if line.descuento.Some? {
      AppendDiscount(node, line.descuento.value);
    }
    ghost var want := start + (if line.descuento.Some? then [DiscountNode(line.descuento.value)] else []);
    assert node.children == want;
    node.SubText(X.SubTotal, X.Amount(line.subTotal));
  }

  method AppendLineTaxes(node: X.Element, line: InvoiceLine)
    modifies node
    ensures node.children == old(node.children) + LineTaxes(line)
    ensures node.text == old(node.text)
  {
    ghost var start := node.children;
    if line.baseImponible.Some? {
      node.SubText(X.BaseImponible, X.Amount(line.baseImponible.value));
    }
    ghost var want := start + OptAmount(X.BaseImponible, line.baseImponible);
    assert node.children == want;
    if line.impuesto.Some? {
      AppendTax(node, line.impuesto.value);
    }
    want := want + (if line.impuesto.Some? then [TaxNode(line.impuesto.value)] else []);
    assert node.children == want;
    if line.impuestoNeto.Some? {
      node.SubText(X.ImpuestoNeto, X.Amount(line.impuestoNeto.value));
    }
  }

  /** `for cargo in cargos: _append_other_charge(parent, "OtroCargo", cargo)` */
  method AppendCharges(parent: X.Element, cargos: seq<OtherCharge>)
    modifies parent
    ensures parent.children == old(parent.children) + ChargeNodes(cargos)
    ensures parent.text == old(parent.text)
  {
    ghost var start := parent.children;
    var i := 0;
    while i < |cargos|
      invariant 0 <= i <= |cargos|
      invariant parent.children == start + ChargeNodes(cargos[..i])
      invariant parent.text == old(parent.text)
    {
      assert cargos[..i + 1][..i] == cargos[..i];
      AppendOtherCharge(parent, X.OtroCargo, cargos[i]);
      i := i + 1;
    }
    assert cargos[..i] == cargos;
  }

  /** `_append_line(parent, line)`: the children in schema order, one `OtroCargo`
      per charge, and `MontoTotalLinea` accumulated over the line's parts. */
  method AppendLine(parent: X.Element, line: InvoiceLine)
    modifies parent
    ensures parent.children == old(parent.children) + [LineNode(line)]
    ensures parent.text == old(parent.text)
  {
    var node := new X.Element(X.Unqualified, X.LineaDetalle, []);
    AppendLineItem(node, line);
    AppendLineSubTotal(node, line);
    AppendLineTaxes(node, line);
    AppendCharges(node, line.otrosCargos);
    var total := ComputeLineTotal(line);
    node.SubText(X.MontoTotalLinea, X.Amount(total));
    assert node.children == LineChildren(line);
    parent.Append(node.ToNode());
  }

  /** One `LineaDetalle` per line, in order. */
  function LineNodes(ls: seq<InvoiceLine>): (r: seq<X.Node>)
    ensures |r| == |ls| && forall i :: 0 <= i < |ls| ==> r[i] == LineNode(ls[i])
  {
    if ls == [] then [] else LineNodes(ls[..|ls| - 1]) + [LineNode(ls[|ls| - 1])]
  }

  /** `for linea in lines: _append_line(parent, linea)` */
  method AppendLines(parent: X.Element, lines: seq<InvoiceLine>)
    modifies parent
    ensures parent.children == old(parent.children) + LineNodes(lines)
    ensures parent.text == old(parent.text)
  {
    ghost var start := parent.children;
    var i := 0;
    while i < |lines|
      invariant 0 <= i <= |lines|
      invariant parent.children == start + LineNodes(lines[..i])
      invariant parent.text == old(parent.text)
    {
      assert lines[..i + 1][..i] == lines[..i];
      AppendLine(parent, lines[i]);
      i := i + 1;
    }
    assert lines[..i] == lines;
  }

  // ---------------------------------------------------------------------------
  // Payment methods
  // ---------------------------------------------------------------------------

  /** One `MedioPago` per method, carrying its code. */
  function PaymentNodes(ms: seq<PaymentMethod>): (r: seq<X.Node>)
    ensures |r| == |ms| && forall i :: 0 <= i < |ms| ==> r[i] == X.Leaf(X.MedioPago, X.Str(ms[i].Code()))
  {
    if ms == [] then [] else PaymentNodes(ms[..|ms| - 1]) + [X.Leaf(X.MedioPago, X.Str(ms[|ms| - 1].Code()))]
  }

  /** `_append_payment(parent, medios)` */
  method AppendPayment(parent: X.Element, medios: seq<PaymentMethod>)
    modifies parent
    ensures parent.children == old(parent.children) + PaymentNodes(medios)
    ensures parent.text == old(parent.text)
  {
    ghost var start := parent.children;
    var i := 0;
    while i < |medios|
      invariant 0 <= i <= |medios|
      invariant parent.children == start + PaymentNodes(medios[..i])
      invariant parent.text == old(parent.text)
    {
      assert medios[..i + 1][..i] == medios[..i];
      parent.SubText(X.MedioPago, X.Str(medios[i].Code()));
      i := i + 1;
    }
    assert medios[..i] == medios;
  }

  // ---------------------------------------------------------------------------
  // Parties
  // ---------------------------------------------------------------------------

  /** A phone block written only when the phone is present. */
  function OptPhone(tag: X.Tag, p: Option<Phone>): seq<X.Node>
  {
    if p.Some? then [PhoneNode(tag, p.value)] else []
  }

  method AppendOptPhone(parent: X.Element, tag: X.Tag, p: Option<Phone>)
    modifies parent
    ensures parent.children == old(parent.children) + OptPhone(tag, p)
    ensures parent.text == old(parent.text)
  {
    if p.Some? {
      AppendPhone(parent, tag, p.value);
    }
  }

  /** A location block written only when the location is present. */
  function OptLocation(loc: Option<Location>): seq<X.Node>
  {
    if loc.Some? then [LocationNode(loc.value)] else []
  }

  method AppendOptLocation(parent: X.Element, loc: Option<Location>)
    modifies parent
    ensures parent.children == old(parent.children) + OptLocation(loc)
    ensures parent.text == old(parent.text)
  {
    if loc.Some? {
      AppendLocation(parent, loc.value);
    }
  }

  /** The trailing children `Emisor` and `Receptor` share: trade name, location,
      phone, fax and e-mail, each only when present. */
  function ContactNodes(nombreComercial: Option<string>, ubicacion: Option<Location>, telefono: Option<Phone>,
                        fax: Option<Phone>, correo: Option<string>): seq<X.Node>
  {
    OptLeaf(X.NombreComercial, nombreComercial) + OptLocation(ubicacion)
    + (OptPhone(X.Telefono, telefono) + OptPhone(X.Fax, fax) + OptLeaf(X.CorreoElectronico, correo))
  }

  /** Phone, fax and e-mail, each only when present. */
  method AppendPhonesAndEmail(node: X.Element, telefono: Option<Phone>, fax: Option<Phone>, correo: Option<string>)
    modifies node
    ensures node.children == old(node.children) + (OptPhone(X.Telefono, telefono) + OptPhone(X.Fax, fax)
                                                   + OptLeaf(X.CorreoElectronico, correo))
    ensures node.text == old(node.text)
  {
    ghost var start := node.children;
    AppendOptPhone(node, X.Telefono, telefono);
    AppendOptPhone(node, X.Fax, fax);
    assert node.children == start + OptPhone(X.Telefono, telefono) + OptPhone(X.Fax, fax);
    AppendOptLeaf(node, X.CorreoElectronico, correo);
  }

  method AppendContact(node: X.Element, nombreComercial: Option<string>, ubicacion: Option<Location>,
                       telefono: Option<Phone>, fax: Option<Phone>, correo: Option<string>)
    modifies node
    ensures node.children == old(node.children) + ContactNodes(nombreComercial, ubicacion, telefono, fax, correo)
    ensures node.text == old(node.text)
  {
    ghost var start := node.children;
    AppendOptLeaf(node, X.NombreComercial, nombreComercial);
    AppendOptLocation(node, ubicacion);
    assert node.children == start + OptLeaf(X.NombreComercial, nombreComercial) + OptLocation(ubicacion);
    AppendPhonesAndEmail(node, telefono, fax, correo);
  }

  function EmisorNode(e: Emisor): X.Node
  {
    X.Container(X.Emisor,
      [X.Leaf(X.Nombre, X.Str(e.nombre)), IdentificationNode(e.identificacion)]
      + ContactNodes(e.nombreComercial, e.ubicacion, e.telefono, e.fax, e.correoElectronico))
  }

  /** The `Emisor` block of `invoice_to_xml`. */
  method AppendEmisor(parent: X.Element, e: Emisor)
    modifies parent
    ensures parent.children == old(parent.children) + [EmisorNode(e)]
    ensures parent.text == old(parent.text)
  {
    var node := new X.Element(X.Unqualified, X.Emisor, []);
    node.SubText(X.Nombre, X.Str(e.nombre));
    AppendIdentification(node, e.identificacion);
    assert node.children == [X.Leaf(X.Nombre, X.Str(e.nombre)), IdentificationNode(e.identificacion)];
    AppendContact(node, e.nombreComercial, e.ubicacion, e.telefono, e.fax, e.correoElectronico);
    parent.Append(node.ToNode());
  }

  function ReceptorNode(r: Receptor): X.Node
  {
    X.Container(X.Receptor,
      [X.Leaf(X.Nombre, X.Str(r.nombre))]
      + (if r.identificacion.Some? then [IdentificationNode(r.identificacion.value)] else [])
      + OptLeaf(X.IdentificacionExtranjero, r.identificacionExtranjero)
      + ContactNodes(r.nombreComercial, r.ubicacion, r.telefono, r.fax, r.correoElectronico))
  }

  /** The `Receptor` block of `invoice_to_xml`. */
  method AppendReceptor(parent: X.Element, r: Receptor)
    modifies parent
    ensures parent.children == old(parent.children) + [ReceptorNode(r)]
    ensures parent.text == old(parent.text)
  {
    var node := new X.Element(X.Unqualified, X.Receptor, []);
    node.SubText(X.Nombre, X.Str(r.nombre));
    ghost var want := [X.Leaf(X.Nombre, X.Str(r.nombre))];
    assert node.children == want;
    if r.identificacion.Some? {
      AppendIdentification(node, r.identificacion.value);
    }
    want := want + (if r.identificacion.Some? then [IdentificationNode(r.identificacion.value)] else []);
    assert node.children == want;
    if Truthy(r.identificacionExtranjero) {
      node.SubText(X.IdentificacionExtranjero, X.Str(r.identificacionExtranjero.value));
    }
    want := want + OptLeaf(X.IdentificacionExtranjero, r.identificacionExtranjero);
    assert node.children == want;
    AppendContact(node, r.nombreComercial, r.ubicacion, r.telefono, r.fax, r.correoElectronico);
    parent.Append(node.ToNode());
  }

  // ---------------------------------------------------------------------------
  // Summary
  // ---------------------------------------------------------------------------

  /** The totals `ResumenFactura` writes, in document order (13 of the summary's 22). */
  const EmittedTotals: seq<SummaryTotal> := [
    SummaryTotal.TotalServGravados, SummaryTotal.TotalServExentos,
    SummaryTotal.TotalMercanciasGravadas, SummaryTotal.TotalMercanciasExentas,
    SummaryTotal.TotalGravado, SummaryTotal.TotalExento, SummaryTotal.TotalExonerado,
    SummaryTotal.TotalVenta, SummaryTotal.TotalDescuentos, SummaryTotal.TotalVentaNeta,
    SummaryTotal.TotalImpuestos, SummaryTotal.TotalOtrosCargos, SummaryTotal.TotalComprobante]
  /** The element each written total goes to (`total_impuestos` is written as `TotalImpuesto`). */
  function TotalTag(t: SummaryTotal): X.Tag
    requires t in EmittedTotals
  {
    match t
    case TotalServGravados => X.TotalServGravados
    case TotalServExentos => X.TotalServExentos
    case TotalMercanciasGravadas => X.TotalMercanciasGravadas
    case TotalMercanciasExentas => X.TotalMercanciasExentas
    case TotalGravado => X.TotalGravado
    case TotalExento => X.TotalExento
    case TotalExonerado => X.TotalExonerado
    case TotalVenta => X.TotalVenta
    case TotalDescuentos => X.TotalDescuentos
    case TotalVentaNeta => X.TotalVentaNeta
    case TotalImpuestos => X.TotalImpuesto
    case TotalOtrosCargos => X.TotalOtrosCargos
    case TotalComprobante => X.TotalComprobante
    case _ => X.ResumenFactura
  }

  /** The taxed, exempt and exonerated totals. */
  function TaxTotalsNodes(s: InvoiceSummary): seq<X.Node>
  {
    [X.Leaf(X.TotalServGravados, X.Amount(s.totalServGravados)),
     X.Leaf(X.TotalServExentos, X.Amount(s.totalServExentos)),
     X.Leaf(X.TotalMercanciasGravadas, X.Amount(s.totalMercanciasGravadas)),
     X.Leaf(X.TotalMercanciasExentas, X.Amount(s.totalMercanciasExentas)),
     X.Leaf(X.TotalGravado, X.Amount(s.totalGravado)),
     X.Leaf(X.TotalExento, X.Amount(s.totalExento)),
     X.Leaf(X.TotalExonerado, X.Amount(s.totalExonerado))]
  }

  /** The sale totals, from the gross sale to the document total. */
  function SaleTotalsNodes(s: InvoiceSummary): seq<X.Node>
  {
    [X.Leaf(X.TotalVenta, X.Amount(s.totalVenta)),
     X.Leaf(X.TotalDescuentos, X.Amount(s.totalDescuentos)),
     X.Leaf(X.TotalVentaNeta, X.Amount(s.totalVentaNeta)),
     X.Leaf(X.TotalImpuesto, X.Amount(s.totalImpuestos)),
     X.Leaf(X.TotalOtrosCargos, X.Amount(s.totalOtrosCargos)),
     X.Leaf(X.TotalComprobante, X.Amount(s.totalComprobante))]
  }

  /** The thirteen totals `ResumenFactura` writes, in document order. */
  function TotalsNodes(s: InvoiceSummary): seq<X.Node>
  {
    TaxTotalsNodes(s) + SaleTotalsNodes(s)
  }

  function SummaryChildren(s: InvoiceSummary): seq<X.Node>
  {
    [X.Leaf(X.CodigoMoneda, X.Str(s.moneda))] + OptAmount(X.TipoCambio, s.tipoCambio) + TotalsNodes(s)
  }

  function SummaryNode(s: InvoiceSummary): X.Node
  {
    X.Container(X.ResumenFactura, SummaryChildren(s))
  }

  method AppendTaxTotals(node: X.Element, s: InvoiceSummary)
    modifies node
    ensures node.children == old(node.children) + TaxTotalsNodes(s)
    ensures node.text == old(node.text)
  {
    ghost var start := node.children;
    node.SubText(X.TotalServGravados, X.Amount(s.totalServGravados));
    node.SubText(X.TotalServExentos, X.Amount(s.totalServExentos));
    node.SubText(X.TotalMercanciasGravadas, X.Amount(s.totalMercanciasGravadas));
    node.SubText(X.TotalMercanciasExentas, X.Amount(s.totalMercanciasExentas));
    node.SubText(X.TotalGravado, X.Amount(s.totalGravado));
    node.SubText(X.TotalExento, X.Amount(s.totalExento));
    node.SubText(X.TotalExonerado, X.Amount(s.totalExonerado));
    assert node.children == start + TaxTotalsNodes(s);
  }

  method AppendSaleTotals(node: X.Element, s: InvoiceSummary)
    modifies node
    ensures node.children == old(node.children) + SaleTotalsNodes(s)
    ensures node.text == old(node.text)
  {
    ghost var start := node.children;
    node.SubText(X.TotalVenta, X.Amount(s.totalVenta));
    node.SubText(X.TotalDescuentos, X.Amount(s.totalDescuentos));
    node.SubText(X.TotalVentaNeta, X.Amount(s.totalVentaNeta));
    node.SubText(X.TotalImpuesto, X.Amount(s.totalImpuestos));
    node.SubText(X.TotalOtrosCargos, X.Amount(s.totalOtrosCargos));
    node.SubText(X.TotalComprobante, X.Amount(s.totalComprobante));
    assert node.children == start + SaleTotalsNodes(s);
  }

  /** The `ResumenFactura` block of `invoice_to_xml`. */
  method AppendSummary(parent: X.Element, s: InvoiceSummary)
    modifies parent
    ensures parent.children == old(parent.children) + [SummaryNode(s)]
    ensures parent.text == old(parent.text)
  {
    var node := new X.Element(X.Unqualified, X.ResumenFactura, []);
    node.SubText(X.CodigoMoneda, X.Str(s.moneda));
    if s.tipoCambio.Some? {
      node.SubText(X.TipoCambio, X.Amount(s.tipoCambio.value));
    }
    ghost var head := [X.Leaf(X.CodigoMoneda, X.Str(s.moneda))] + OptAmount(X.TipoCambio, s.tipoCambio);
    assert node.children == head;
    AppendTaxTotals(node, s);
    AppendSaleTotals(node, s);
    assert node.children == head + TotalsNodes(s);
    parent.Append(node.ToNode());
  }

  // ---------------------------------------------------------------------------
  // References
  // ---------------------------------------------------------------------------

  /** A `Referencia`: the referenced document's number is written under `Numero`. */
  function ReferenceNode(ref: ReferenceInformation): X.Node
  {
    X.Container(X.Referencia,
      [X.Leaf(X.TipoDocumento, X.Str(ref.tipoDocumento)), X.Leaf(X.Numero, X.Str(ref.numeroDocumento)),
       X.Leaf(X.FechaEmision, X.Timestamp(ref.fechaEmision)), X.Leaf(X.Codigo, X.Str(ref.codigo)),
       X.Leaf(X.Razon, X.Str(ref.razon))])
  }

  method AppendReference(parent: X.Element, ref: ReferenceInformation)
    modifies parent
    ensures parent.children == old(parent.children) + [ReferenceNode(ref)]
    ensures parent.text == old(parent.text)
  {
    var node := new X.Element(X.Unqualified, X.Referencia, []);
    node.SubText(X.TipoDocumento, X.Str(ref.tipoDocumento));
    node.SubText(X.Numero, X.Str(ref.numeroDocumento));
    node.SubText(X.FechaEmision, X.Timestamp(ref.fechaEmision));
    node.SubText(X.Codigo, X.Str(ref.codigo));
    node.SubText(X.Razon, X.Str(ref.razon));
    assert node.children == ReferenceNode(ref).children;
    parent.Append(node.ToNode());
  }

  /** One `Referencia` per reference, in order. */
  function ReferenceNodes(rs: seq<ReferenceInformation>): (r: seq<X.Node>)
    ensures |r| == |rs| && forall i :: 0 <= i < |rs| ==> r[i] == ReferenceNode(rs[i])
  {
    if rs == [] then [] else ReferenceNodes(rs[..|rs| - 1]) + [ReferenceNode(rs[|rs| - 1])]
  }

  method AppendReferences(parent: X.Element, rs: seq<ReferenceInformation>)
    modifies parent
    ensures parent.children == old(parent.children) + ReferenceNodes(rs)
    ensures parent.text == old(parent.text)
  {
    ghost var start := parent.children;
    var i := 0;
    while i < |rs|
      invariant 0 <= i <= |rs|
      invariant parent.children == start + ReferenceNodes(rs[..i])
      invariant parent.text == old(parent.text)
    {
      assert rs[..i + 1][..i] == rs[..i];
      AppendReference(parent, rs[i]);
      i := i + 1;
    }
    assert rs[..i] == rs;
  }

  // ---------------------------------------------------------------------------
  // The document
  // ---------------------------------------------------------------------------

  /** Key, activity code, consecutive number and issue timestamp. */
  function HeaderNodes(inv: ElectronicInvoice, fecha: DateTime): seq<X.Node>
  {
    [X.Leaf(X.Clave, X.Str(inv.clave)), X.Leaf(X.CodigoActividad, X.Str(inv.codigoActividad)),
     X.Leaf(X.NumeroConsecutivo, X.Str(inv.numeroConsecutivo)), X.Leaf(X.FechaEmision, X.Timestamp(fecha))]
  }

  /** The issuer, then the receiver when there is one. */
  function PartyNodes(inv: ElectronicInvoice): seq<X.Node>
  {
    [EmisorNode(inv.emisor)] + (if inv.receptor.Some? then [ReceptorNode(inv.receptor.value)] else [])
  }

  function DetailNode(inv: ElectronicInvoice): X.Node
  {
    X.Container(X.DetalleServicio, LineNodes(IterDetalle(inv)))
  }

  /** The document-level charges, only when there are some. */
  function OtherChargesBlock(inv: ElectronicInvoice): seq<X.Node>
  {
    if |inv.otrosCargos| > 0 then [X.Container(X.OtrosCargos, ChargeNodes(inv.otrosCargos))] else []
  }

  /** The references, only when there are some. */
  function ReferencesBlock(inv: ElectronicInvoice): seq<X.Node>
  {
    if |inv.informacionReferencia| > 0
    then [X.Container(X.InformacionReferencia, ReferenceNodes(inv.informacionReferencia))] else []
  }

  /** The children of `FacturaElectronica`, in document order, for an invoice whose
      issue moment is the timestamp `fecha` and whose sale condition is `condicion`:
      header, parties, sale condition, credit term when truthy, payment methods in
      catalog order, detail, summary, then the optional charge and reference blocks. */
  function RootChildren(inv: ElectronicInvoice, fecha: DateTime, condicion: SaleCondition): seq<X.Node>
  {
    HeaderNodes(inv, fecha) + PartyNodes(inv) + [X.Leaf(X.CondicionVenta, X.Str(condicion.Code()))]
    + CreditLeaf(inv.plazoCredito) + PaymentNodes(SortedMediosPago(inv.mediosPago))
    + [DetailNode(inv)] + [SummaryNode(inv.resumen)] + OtherChargesBlock(inv) + ReferencesBlock(inv)
  }

  /** Why `invoice_to_xml` raises: the validator's error, an issue moment that is a
      date without a time (`isoformat` rejects `timespec`), or a sale condition given
      as a bare string (it has no `.value`); and why `render_invoice` raises besides:
      `tostring`'s `TypeError` on a text that is an `int` (`cannot serialize`). */
  datatype BuildError = Invalid(error: V.ValidationError) | FechaNotDateTime | CondicionWithoutValue
                      | CannotSerialise(value: int)

  /** What `invoice_to_xml(invoice, validate=validate)` returns or raises. */
  function BuildXml(inv: ElectronicInvoice, validate: bool): Result<X.Node, BuildError>
  {
    if validate && V.InvoiceCheck(inv).Fail? then Err(Invalid(V.InvoiceCheck(inv).error))
    else if !inv.fechaEmision.AtDateTime? then Err(FechaNotDateTime)
    else if !inv.condicionVenta.Catalogued? then Err(CondicionWithoutValue)
    else Ok(X.Node(X.Unqualified, X.FacturaElectronica, RootAttrs(), X.Str(""),
                   RootChildren(inv, inv.fechaEmision.dateTime, inv.condicionVenta.condition)))
  }

  method AppendHeader(root: X.Element, inv: ElectronicInvoice, fecha: DateTime)
    modifies root
    ensures root.children == old(root.children) + HeaderNodes(inv, fecha)
    ensures root.text == old(root.text)
  {
    ghost var start := root.children;
    root.SubText(X.Clave, X.Str(inv.clave));
    root.SubText(X.CodigoActividad, X.Str(inv.codigoActividad));
    root.SubText(X.NumeroConsecutivo, X.Str(inv.numeroConsecutivo));
    root.SubText(X.FechaEmision, X.Timestamp(fecha));
    assert root.children == start + HeaderNodes(inv, fecha);
  }

  method AppendParties(root: X.Element, inv: ElectronicInvoice)
    modifies root
    ensures root.children == old(root.children) + PartyNodes(inv)
    ensures root.text == old(root.text)
  {
    ghost var start := root.children;
    AppendEmisor(root, inv.emisor);
    if inv.receptor.Some? {
      AppendReceptor(root, inv.receptor.value);
    }
    assert root.children == start + PartyNodes(inv);
  }

  method AppendDetail(root: X.Element, inv: ElectronicInvoice)
    modifies root
    ensures root.children == old(root.children) + [DetailNode(inv)]
    ensures root.text == old(root.text)
  {
    var detalle := new X.Element(X.Unqualified, X.DetalleServicio, []);
    AppendLines(detalle, IterDetalle(inv));
    assert detalle.children == LineNodes(IterDetalle(inv));
    root.Append(detalle.ToNode());
  }

  method AppendOtherChargesBlock(root: X.Element, inv: ElectronicInvoice)
    modifies root
    ensures root.children == old(root.children) + OtherChargesBlock(inv)
    ensures root.text == old(root.text)
  {
    if |inv.otrosCargos| > 0 {
      var otros := new X.Element(X.Unqualified, X.OtrosCargos, []);
      AppendCharges(otros, inv.otrosCargos);
      assert otros.children == ChargeNodes(inv.otrosCargos);
      root.Append(otros.ToNode());
    }
  }

  method AppendReferencesBlock(root: X.Element, inv: ElectronicInvoice)
    modifies root
    ensures root.children == old(root.children) + ReferencesBlock(inv)
    ensures root.text == old(root.text)
  {
    if |inv.informacionReferencia| > 0 {
      var info := new X.Element(X.Unqualified, X.InformacionReferencia, []);
      AppendReferences(info, inv.informacionReferencia);
      assert info.children == ReferenceNodes(inv.informacionReferencia);
      root.Append(info.ToNode());
    }
  }

  /** Header, parties, sale condition, credit term and payment methods. */
  method AppendFront(root: X.Element, inv: ElectronicInvoice, fecha: DateTime, condicion: SaleCondition)
    modifies root
    ensures root.children == old(root.children) + HeaderNodes(inv, fecha) + PartyNodes(inv)
      + [X.Leaf(X.CondicionVenta, X.Str(condicion.Code()))] + CreditLeaf(inv.plazoCredito)
      + PaymentNodes(SortedMediosPago(inv.mediosPago))
    ensures root.text == old(root.text)
  {
    AppendHeader(root, inv, fecha);
    AppendParties(root, inv);
    root.SubText(X.CondicionVenta, X.Str(condicion.Code()));
    AppendCreditTerm(root, inv.plazoCredito);
    AppendPayment(root, SortedMediosPago(inv.mediosPago));
  }

  /** Detail, summary, and the optional charge and reference blocks. */
  method AppendBack(root: X.Element, inv: ElectronicInvoice)
    modifies root
    ensures root.children == old(root.children) + [DetailNode(inv)] + [SummaryNode(inv.resumen)]
      + OtherChargesBlock(inv) + ReferencesBlock(inv)
    ensures root.text == old(root.text)
  {
    AppendDetail(root, inv);
    AppendSummary(root, inv.resumen);
    AppendOtherChargesBlock(root, inv);
    AppendReferencesBlock(root, inv);
  }

  /** `invoice_to_xml(invoice, validate=validate)`: validates when asked, then grows
      a fresh root in document order. An error leaves no document. */
  method InvoiceToXml(inv: ElectronicInvoice, validate: bool) returns (r: Result<X.Element, BuildError>)
    ensures r.Ok? <==> BuildXml(inv, validate).Ok?
    ensures r.Ok? ==> fresh(r.value) && r.value.ToNode() == BuildXml(inv, validate).value
    ensures r.Err? ==> r.error == BuildXml(inv, validate).error
  {
    if validate {
      var outcome := V.ValidateInvoice(inv);
      if outcome.Fail? {
        return Err(Invalid(outcome.error));
      }
    }
    if !inv.fechaEmision.AtDateTime? {
      return Err(FechaNotDateTime);
    }
    if !inv.condicionVenta.Catalogued? {
      return Err(CondicionWithoutValue);
    }
    var fecha, condicion := inv.fechaEmision.dateTime, inv.condicionVenta.condition;
    var root := new X.Element(X.Unqualified, X.FacturaElectronica, RootAttrs());
    assert [] + HeaderNodes(inv, fecha) == HeaderNodes(inv, fecha);
    AppendFront(root, inv, fecha, condicion);
    AppendBack(root, inv);
    return Ok(root);
  }

  /** `render_invoice`: the serialised document. `tostring` raises on the first text
      in document order that is an `int`; the characters it writes otherwise (and the
      decode) are a parameter of the model. */
  function RenderInvoice(inv: ElectronicInvoice, validate: bool, serialize: X.Node -> string): (r: Result<string, BuildError>)
    ensures r.Ok? <==> BuildXml(inv, validate).Ok? && X.UnconvertedIn(BuildXml(inv, validate).value) == []
    ensures r.Ok? ==> r.value == serialize(BuildXml(inv, validate).value)
    ensures BuildXml(inv, validate).Err? ==> r == Err(BuildXml(inv, validate).error)
    ensures BuildXml(inv, validate).Ok? && r.Err? ==>
      r.error == CannotSerialise(X.UnconvertedIn(BuildXml(inv, validate).value)[0])
  {
    match BuildXml(inv, validate)
    case Err(e) => Err(e)
    case Ok(root) =>
      var refused := X.UnconvertedIn(root);
      if refused != [] then Err(CannotSerialise(refused[0])) else Ok(serialize(root))
  }
}
