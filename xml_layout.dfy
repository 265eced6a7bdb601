/** What a consumer of the document built by `invoice_to_xml` can rely on: when it
    is built at all, the order of the root's children, the payment methods, the
    detail lines and their totals, the summary, and the header fields read back. */
module XmlLayout {
  import opened Wrappers
  import opened Text
  import opened Models
  import opened DecimalText
  import opened XmlBuilder
  import V = Validation
  import X = Xml

  // ---------------------------------------------------------------------------
  // When a document is built
  // ---------------------------------------------------------------------------

  /** With validation, the validator's first error is what `invoice_to_xml` raises,
      and a document is built exactly when the invoice passes. Without validation, a
      document is built exactly when the issue moment is a timestamp and the sale
      condition is a catalogued member. */
  lemma BuildXmlGate(inv: ElectronicInvoice, validate: bool)
    ensures validate && V.InvoiceCheck(inv).Fail? ==>
      BuildXml(inv, validate) == Err(Invalid(V.InvoiceCheck(inv).error))
    ensures validate ==> (BuildXml(inv, validate).Ok? <==> V.InvoiceCheck(inv) == V.Pass)
    ensures !validate ==>
      (BuildXml(inv, validate).Ok? <==> inv.fechaEmision.AtDateTime? && inv.condicionVenta.Catalogued?)
  {
    V.InvoiceCheckIff(inv);
  }

  // ---------------------------------------------------------------------------
  // Reading children back
  // ---------------------------------------------------------------------------

  lemma {:induction false} TextOfAppendSkip(a: seq<X.Node>, b: seq<X.Node>, tag: X.Tag)
    requires tag !in X.Tags(a)
    ensures X.TextOf(a + b, tag) == X.TextOf(b, tag)
  {
    if a != [] {
      assert X.Tags(a) == [a[0].tag] + X.Tags(a[1..]);
      assert (a + b)[1..] == a[1..] + b;
      TextOfAppendSkip(a[1..], b, tag);
    } else {
      assert a + b == b;
    }
  }

  lemma {:induction false} TextOfAppendFirst(a: seq<X.Node>, b: seq<X.Node>, tag: X.Tag)
    requires tag in X.Tags(a)
    ensures X.TextOf(a + b, tag) == X.TextOf(a, tag)
  {
    assert X.Tags(a) == [a[0].tag] + X.Tags(a[1..]);
    if a[0].tag != tag {
      assert (a + b)[1..] == a[1..] + b;
      TextOfAppendFirst(a[1..], b, tag);
    }
  }

  /** A selection by tag finds the first child carrying it. */
  lemma {:induction false} TextOfAt(ns: seq<X.Node>, k: nat, tag: X.Tag)
    requires k < |ns| && ns[k].tag == tag
    requires forall i :: 0 <= i < k ==> ns[i].tag != tag
    ensures X.TextOf(ns, tag) == Some(ns[k].text)
  {
    if k > 0 {
      TextOfAt(ns[1..], k - 1, tag);
    }
  }

  lemma {:induction false} TextOfAbsent(ns: seq<X.Node>, tag: X.Tag)
    requires forall i :: 0 <= i < |ns| ==> ns[i].tag != tag
    ensures X.TextOf(ns, tag) == None
  {
    if ns != [] {
      TextOfAbsent(ns[1..], tag);
    }
  }

  /** Children none of which carries `tag` contribute nothing to a selection by it. */
  lemma WithTagSkip(a: seq<X.Node>, b: seq<X.Node>, tag: X.Tag)
    requires forall i :: 0 <= i < |b| ==> b[i].tag != tag
    ensures X.WithTag(a + b, tag) == X.WithTag(a, tag)
  {
    X.WithTagAppend(a, b, tag);
    X.WithTagNone(b, tag);
    assert X.WithTag(a, tag) + [] == X.WithTag(a, tag);
  }

  // ---------------------------------------------------------------------------
  // The root's children
  // ---------------------------------------------------------------------------

  /** The tags of the root's children in document order: the header, `Emisor`,
      `Receptor` when there is a receiver, `CondicionVenta`, `PlazoCredito` when the
      term is truthy, one `MedioPago` per distinct payment method, `DetalleServicio`,
      `ResumenFactura`, then `OtrosCargos` and `InformacionReferencia` when their
      lists are non-empty. */
  function RootTags(inv: ElectronicInvoice): seq<X.Tag>
  {
    FrontTags(inv)
    + X.Many(X.MedioPago, |SortedMediosPago(inv.mediosPago)|)
    + [X.DetalleServicio] + [X.ResumenFactura]
    + X.Opt(|inv.otrosCargos| > 0, X.OtrosCargos)
    + X.Opt(|inv.informacionReferencia| > 0, X.InformacionReferencia)
  }

  /** The tags before the payment methods. */
  function FrontTags(inv: ElectronicInvoice): seq<X.Tag>
  {
    [X.Clave, X.CodigoActividad, X.NumeroConsecutivo, X.FechaEmision, X.Emisor]
    + X.Opt(inv.receptor.Some?, X.Receptor) + [X.CondicionVenta]
    + X.Opt(CreditTruthy(inv.plazoCredito), X.PlazoCredito)
  }

  /** The children before the payment methods. */
  function FrontNodes(inv: ElectronicInvoice, fecha: DateTime, condicion: SaleCondition): seq<X.Node>
  {
    HeaderNodes(inv, fecha) + PartyNodes(inv) + [X.Leaf(X.CondicionVenta, X.Str(condicion.Code()))]
    + CreditLeaf(inv.plazoCredito)
  }

  lemma TagsOfFrontNodes(inv: ElectronicInvoice, fecha: DateTime, condicion: SaleCondition)
    ensures X.Tags(FrontNodes(inv, fecha, condicion)) == FrontTags(inv)
  {
    var front := HeaderNodes(inv, fecha) + PartyNodes(inv);
    var cond := [X.Leaf(X.CondicionVenta, X.Str(condicion.Code()))];
    TagsOfFront(inv, fecha);
    TagsOfCreditLeaf(inv.plazoCredito);
    TagsOfOne(cond[0]);
    X.TagsAppend(front, cond);
    X.TagsAppend(front + cond, CreditLeaf(inv.plazoCredito));
  }

  /** Every tag before the payment methods is numbered below `MedioPago`. */
  lemma FrontTagsBelowPayments(inv: ElectronicInvoice)
    ensures forall k :: k in FrontTags(inv) ==> k < X.MedioPago
  {
    var a := [X.Clave, X.CodigoActividad, X.NumeroConsecutivo, X.FechaEmision, X.Emisor];
    var b, c := X.Opt(inv.receptor.Some?, X.Receptor), X.Opt(CreditTruthy(inv.plazoCredito), X.PlazoCredito);
    assert forall k :: k in a ==> k < X.MedioPago;
    assert forall k :: k in b ==> k < X.MedioPago;
    assert forall k :: k in c ==> k < X.MedioPago;
    assert FrontTags(inv) == a + b + [X.CondicionVenta] + c;
  }

  /** The payment methods and everything before them are numbered at most `MedioPago`. */
  lemma HeadTagsBelowDetail(inv: ElectronicInvoice, fecha: DateTime, condicion: SaleCondition)
    ensures var ns := FrontNodes(inv, fecha, condicion) + PaymentNodes(SortedMediosPago(inv.mediosPago));
      forall i :: 0 <= i < |ns| ==> ns[i].tag <= X.MedioPago
  {
    var head: seq<X.Node> := FrontNodes(inv, fecha, condicion);
    var pay: seq<X.Node> := PaymentNodes(SortedMediosPago(inv.mediosPago));
    TagsOfFrontNodes(inv, fecha, condicion);
    FrontTagsBelowPayments(inv);
    TagsAtMost(head, X.MedioPago);
    AppendAtMost(head, pay, X.MedioPago);
  }

  lemma TagsAtMost(ns: seq<X.Node>, bound: X.Tag)
    requires forall k :: k in X.Tags(ns) ==> k <= bound
    ensures forall i :: 0 <= i < |ns| ==> ns[i].tag <= bound
  {
    forall i | 0 <= i < |ns| ensures ns[i].tag <= bound {
      assert X.Tags(ns)[i] in X.Tags(ns);
    }
  }

  lemma AppendAtMost(a: seq<X.Node>, b: seq<X.Node>, bound: X.Tag)
    requires forall i :: 0 <= i < |a| ==> a[i].tag <= bound
    requires forall i :: 0 <= i < |b| ==> b[i].tag <= bound
    ensures forall i :: 0 <= i < |a + b| ==> (a + b)[i].tag <= bound
  {
  }

  lemma TagsOfPayments(ms: seq<PaymentMethod>)
    ensures X.Tags(PaymentNodes(ms)) == X.Many(X.MedioPago, |ms|)
  {
    var a, b := X.Tags(PaymentNodes(ms)), X.Many(X.MedioPago, |ms|);
    assert |a| == |b|;
    forall i | 0 <= i < |a| ensures a[i] == b[i] { }
  }

  lemma TagsOfOptLeaf(tag: X.Tag, o: Option<string>)
    ensures X.Tags(OptLeaf(tag, o)) == X.Opt(Truthy(o), tag)
  {
    if Truthy(o) {
      assert X.Tags(OptLeaf(tag, o)) == [tag];
    }
  }

  lemma TagsOfCreditLeaf(o: Option<CreditTermValue>)
    ensures X.Tags(CreditLeaf(o)) == X.Opt(CreditTruthy(o), X.PlazoCredito)
  {
    if CreditTruthy(o) {
      assert X.Tags(CreditLeaf(o)) == [X.PlazoCredito];
    }
  }

  lemma TagsOfOne(n: X.Node)
    ensures X.Tags([n]) == [n.tag]
  {
  }

  lemma TagsOfFront(inv: ElectronicInvoice, fecha: DateTime)
    ensures X.Tags(HeaderNodes(inv, fecha) + PartyNodes(inv))
         == [X.Clave, X.CodigoActividad, X.NumeroConsecutivo, X.FechaEmision, X.Emisor]
            + X.Opt(inv.receptor.Some?, X.Receptor)
  {
    var ns := HeaderNodes(inv, fecha) + PartyNodes(inv);
    var want := [X.Clave, X.CodigoActividad, X.NumeroConsecutivo, X.FechaEmision, X.Emisor]
                + X.Opt(inv.receptor.Some?, X.Receptor);
    assert |X.Tags(ns)| == |want|;
    forall i | 0 <= i < |want| ensures X.Tags(ns)[i] == want[i] { }
  }

  lemma TagsOfBlocks(inv: ElectronicInvoice)
    ensures X.Tags(OtherChargesBlock(inv)) == X.Opt(|inv.otrosCargos| > 0, X.OtrosCargos)
    ensures X.Tags(ReferencesBlock(inv)) == X.Opt(|inv.informacionReferencia| > 0, X.InformacionReferencia)
  {
    if |inv.otrosCargos| > 0 {
      TagsOfOne(X.Container(X.OtrosCargos, ChargeNodes(inv.otrosCargos)));
    }
    if |inv.informacionReferencia| > 0 {
      TagsOfOne(X.Container(X.InformacionReferencia, ReferenceNodes(inv.informacionReferencia)));
    }
  }

  /** The order of the root's children, as `invoice_to_xml` appends them. */
  lemma RootLayout(inv: ElectronicInvoice, fecha: DateTime, condicion: SaleCondition)
    ensures X.Tags(RootChildren(inv, fecha, condicion)) == RootTags(inv)
  {
    var head := FrontNodes(inv, fecha, condicion);
    var pay := PaymentNodes(SortedMediosPago(inv.mediosPago));
    var d, r := [DetailNode(inv)], [SummaryNode(inv.resumen)];
    var oc, rb := OtherChargesBlock(inv), ReferencesBlock(inv);
    TagsOfFrontNodes(inv, fecha, condicion);
    TagsOfPayments(SortedMediosPago(inv.mediosPago));
    TagsOfOne(DetailNode(inv));
    TagsOfOne(SummaryNode(inv.resumen));
    TagsOfBlocks(inv);
    X.TagsAppend(head, pay);
    X.TagsAppend(head + pay, d);
    X.TagsAppend(head + pay + d, r);
    X.TagsAppend(head + pay + d + r, oc);
    X.TagsAppend(head + pay + d + r + oc, rb);
    assert RootChildren(inv, fecha, condicion) == head + pay + d + r + oc + rb;
  }

  // ---------------------------------------------------------------------------
  // Payment methods
  // ---------------------------------------------------------------------------

  lemma WithTagAbsent(ns: seq<X.Node>, tag: X.Tag)
    requires tag !in X.Tags(ns)
    ensures X.WithTag(ns, tag) == []
  {
    assert forall i :: 0 <= i < |ns| ==> ns[i].tag == X.Tags(ns)[i];
    X.WithTagNone(ns, tag);
  }

  lemma WithTagSkipAbsent(a: seq<X.Node>, b: seq<X.Node>, tag: X.Tag)
    requires tag !in X.Tags(b)
    ensures X.WithTag(a + b, tag) == X.WithTag(a, tag)
  {
    assert forall i :: 0 <= i < |b| ==> b[i].tag == X.Tags(b)[i];
    WithTagSkip(a, b, tag);
  }

  /** The `MedioPago` elements of the root, read back in document order. */
  lemma PaymentElements(inv: ElectronicInvoice, fecha: DateTime, condicion: SaleCondition)
    ensures X.WithTag(RootChildren(inv, fecha, condicion), X.MedioPago) == PaymentNodes(SortedMediosPago(inv.mediosPago))
  {
    var head := FrontNodes(inv, fecha, condicion);
    var pay := PaymentNodes(SortedMediosPago(inv.mediosPago));
    var d, r := [DetailNode(inv)], [SummaryNode(inv.resumen)];
    var oc, rb := OtherChargesBlock(inv), ReferencesBlock(inv);
    TagsOfFrontNodes(inv, fecha, condicion);
    FrontTagsBelowPayments(inv);
    TagsOfOne(DetailNode(inv));
    TagsOfOne(SummaryNode(inv.resumen));
    TagsOfBlocks(inv);
    WithTagAbsent(head, X.MedioPago);
    X.WithTagAppend(head, pay, X.MedioPago);
    X.WithTagAll(pay, X.MedioPago);
    WithTagSkipAbsent(head + pay, d, X.MedioPago);
    WithTagSkipAbsent(head + pay + d, r, X.MedioPago);
    WithTagSkipAbsent(head + pay + d + r, oc, X.MedioPago);
    WithTagSkipAbsent(head + pay + d + r + oc, rb, X.MedioPago);
    assert RootChildren(inv, fecha, condicion) == head + pay + d + r + oc + rb;
    assert [] + pay == pay;
  }

  /** One `MedioPago` per distinct payment method of the invoice, each carrying its
      code, in strictly increasing code order; duplicates in the invoice's list are
      written once. */
  lemma MedioPagoElements(inv: ElectronicInvoice, fecha: DateTime, condicion: SaleCondition)
    ensures var ms := X.WithTag(RootChildren(inv, fecha, condicion), X.MedioPago);
      && |ms| <= |inv.mediosPago|
      && (|ms| == 0 <==> |inv.mediosPago| == 0)
      && (forall i :: 0 <= i < |ms| ==> ms[i].text.Str?)
      && (forall m :: m in inv.mediosPago <==> X.Leaf(X.MedioPago, X.Str(m.Code())) in ms)
      && (forall i, j :: 0 <= i < j < |ms| ==> StrLess(ms[i].text.s, ms[j].text.s))
  {
    PaymentElements(inv, fecha, condicion);
    var sorted := SortedMediosPago(inv.mediosPago);
    var ms := PaymentNodes(sorted);
    forall m ensures m in inv.mediosPago <==> X.Leaf(X.MedioPago, X.Str(m.Code())) in ms {
      if X.Leaf(X.MedioPago, X.Str(m.Code())) in ms {
        var i :| 0 <= i < |ms| && ms[i] == X.Leaf(X.MedioPago, X.Str(m.Code()));
        PaymentMethodCodes(sorted[i], m);
      }
      if m in inv.mediosPago {
        var i :| 0 <= i < |sorted| && sorted[i] == m;
        assert ms[i] == X.Leaf(X.MedioPago, X.Str(m.Code()));
      }
    }
  }

  // ---------------------------------------------------------------------------
  // Detail lines
  // ---------------------------------------------------------------------------

  lemma HeadWithoutDetail(inv: ElectronicInvoice, fecha: DateTime, condicion: SaleCondition)
    ensures X.WithTag(FrontNodes(inv, fecha, condicion) + PaymentNodes(SortedMediosPago(inv.mediosPago)),
      X.DetalleServicio) == []
  {
    HeadTagsBelowDetail(inv, fecha, condicion);
    X.WithTagNone(FrontNodes(inv, fecha, condicion) + PaymentNodes(SortedMediosPago(inv.mediosPago)),
      X.DetalleServicio);
  }

  lemma TailWithoutDetail(inv: ElectronicInvoice)
    ensures X.DetalleServicio !in X.Tags([SummaryNode(inv.resumen)])
    ensures X.DetalleServicio !in X.Tags(OtherChargesBlock(inv))
    ensures X.DetalleServicio !in X.Tags(ReferencesBlock(inv))
  {
    TagsOfOne(SummaryNode(inv.resumen));
    TagsOfBlocks(inv);
  }

  /** The root holds exactly one `DetalleServicio` element, the detail block; its
      children are the lines' `LineaDetalle` elements in order (`LineNodes`). */
  lemma DetailElements(inv: ElectronicInvoice, fecha: DateTime, condicion: SaleCondition)
    ensures X.WithTag(RootChildren(inv, fecha, condicion), X.DetalleServicio) == [DetailNode(inv)]
  {
    var head := FrontNodes(inv, fecha, condicion);
    var pay := PaymentNodes(SortedMediosPago(inv.mediosPago));
    var d, r := [DetailNode(inv)], [SummaryNode(inv.resumen)];
    var oc, rb := OtherChargesBlock(inv), ReferencesBlock(inv);
    HeadWithoutDetail(inv, fecha, condicion);
    TailWithoutDetail(inv);
    X.WithTagAppend(head + pay, d, X.DetalleServicio);
    WithTagSkipAbsent(head + pay + d, r, X.DetalleServicio);
    WithTagSkipAbsent(head + pay + d + r, oc, X.DetalleServicio);
    WithTagSkipAbsent(head + pay + d + r + oc, rb, X.DetalleServicio);
    assert RootChildren(inv, fecha, condicion) == head + pay + d + r + oc + rb;
    assert [] + d == d;
  }

  /** The tags of a `LineaDetalle`'s children: number, product code when truthy,
      quantity, unit, description, unit price, amount, discount when present,
      subtotal, taxable base, tax and net tax each when present, one `OtroCargo` per
      charge, and the line total last. */
  function LineTags(l: InvoiceLine): seq<X.Tag>
  {
    ItemTags(l) + SubTotalTags(l) + TaxTags(l) + X.Many(X.OtroCargo, |l.otrosCargos|) + [X.MontoTotalLinea]
  }

  function ItemTags(l: InvoiceLine): seq<X.Tag>
  {
    [X.NumeroLinea] + X.Opt(Truthy(l.codigo), X.Codigo)
    + [X.Cantidad, X.UnidadMedida, X.Detalle, X.PrecioUnitario, X.MontoTotal]
  }

  function SubTotalTags(l: InvoiceLine): seq<X.Tag>
  {
    X.Opt(l.descuento.Some?, X.Descuento) + [X.SubTotal]
  }

  function TaxTags(l: InvoiceLine): seq<X.Tag>
  {
    X.Opt(l.baseImponible.Some?, X.BaseImponible) + X.Opt(l.impuesto.Some?, X.Impuesto)
    + X.Opt(l.impuestoNeto.Some?, X.ImpuestoNeto)
  }

  lemma TagsOfLineItem(l: InvoiceLine)
    ensures X.Tags(LineItem(l)) == ItemTags(l)
  {
    var a := X.Tags(LineItem(l));
    var b := [X.NumeroLinea] + X.Opt(Truthy(l.codigo), X.Codigo)
      + [X.Cantidad, X.UnidadMedida, X.Detalle, X.PrecioUnitario, X.MontoTotal];
    assert |a| == |b|;
    forall i | 0 <= i < |a| ensures a[i] == b[i] { }
  }

  lemma TagsOfOptAmount(tag: X.Tag, o: Option<real>)
    ensures X.Tags(OptAmount(tag, o)) == X.Opt(o.Some?, tag)
  {
    if o.Some? {
      TagsOfOne(X.Leaf(tag, X.Amount(o.value)));
    }
  }

  lemma TagsOfLineSubTotal(l: InvoiceLine)
    ensures X.Tags(LineSubTotal(l)) == SubTotalTags(l)
  {
    var d := if l.descuento.Some? then [DiscountNode(l.descuento.value)] else [];
    if l.descuento.Some? {
      TagsOfOne(DiscountNode(l.descuento.value));
    }
    TagsOfOne(X.Leaf(X.SubTotal, X.Amount(l.subTotal)));
    X.TagsAppend(d, [X.Leaf(X.SubTotal, X.Amount(l.subTotal))]);
  }

  lemma TagsOfLineTaxes(l: InvoiceLine)
    ensures X.Tags(LineTaxes(l)) == TaxTags(l)
  {
    var b := OptAmount(X.BaseImponible, l.baseImponible);
    var t := if l.impuesto.Some? then [TaxNode(l.impuesto.value)] else [];
    var n := OptAmount(X.ImpuestoNeto, l.impuestoNeto);
    TagsOfOptAmount(X.BaseImponible, l.baseImponible);
    TagsOfOptAmount(X.ImpuestoNeto, l.impuestoNeto);
    if l.impuesto.Some? {
      TagsOfOne(TaxNode(l.impuesto.value));
    }
    X.TagsAppend(b, t);
    X.TagsAppend(b + t, n);
  }

  lemma TagsOfCharges(cs: seq<OtherCharge>)
    ensures X.Tags(ChargeNodes(cs)) == X.Many(X.OtroCargo, |cs|)
  {
    var a, b := X.Tags(ChargeNodes(cs)), X.Many(X.OtroCargo, |cs|);
    assert |a| == |b|;
    forall i | 0 <= i < |a| ensures a[i] == b[i] { }
  }

  /** The tags of everything `_append_line` writes before the line total. */
  lemma TagsOfLineBody(l: InvoiceLine)
    ensures X.Tags(LineItem(l) + LineSubTotal(l) + LineTaxes(l) + ChargeNodes(l.otrosCargos))
      == ItemTags(l) + SubTotalTags(l) + TaxTags(l) + X.Many(X.OtroCargo, |l.otrosCargos|)
  {
    var item, sub, taxes := LineItem(l), LineSubTotal(l), LineTaxes(l);
    TagsOfLineItem(l);
    TagsOfLineSubTotal(l);
    TagsOfLineTaxes(l);
    TagsOfCharges(l.otrosCargos);
    X.TagsAppend(item, sub);
    X.TagsAppend(item + sub, taxes);
    X.TagsAppend(item + sub + taxes, ChargeNodes(l.otrosCargos));
  }

  /** The order of a line's children, as `_append_line` appends them. */
  lemma LineLayout(l: InvoiceLine)
    ensures X.Tags(LineChildren(l)) == LineTags(l)
  {
    var body := LineItem(l) + LineSubTotal(l) + LineTaxes(l) + ChargeNodes(l.otrosCargos);
    var last := [X.Leaf(X.MontoTotalLinea, X.Amount(LineTotal(l)))];
    TagsOfLineBody(l);
    TagsOfOne(last[0]);
    X.TagsAppend(body, last);
    assert LineChildren(l) == body + last;
  }

  /** No tag before the line total is `MontoTotalLinea`. */
  lemma LineBodyBeforeTotal(l: InvoiceLine)
    ensures X.MontoTotalLinea !in ItemTags(l) + SubTotalTags(l) + TaxTags(l) + X.Many(X.OtroCargo, |l.otrosCargos|)
  {
    var a, b, c := ItemTags(l), SubTotalTags(l), TaxTags(l);
    assert forall k :: k in a ==> k < X.MontoTotalLinea;
    assert forall k :: k in b ==> k < X.MontoTotalLinea;
    assert forall k :: k in c ==> k < X.MontoTotalLinea;
    assert forall k :: k in X.Many(X.OtroCargo, |l.otrosCargos|) ==> k == X.OtroCargo;
  }

  /** A line's `MontoTotalLinea` holds the recomputed total, and its text reads back
      as that total rounded to five places. */
  lemma LineTotalReadsBack(l: InvoiceLine)
    ensures X.TextOf(LineChildren(l), X.MontoTotalLinea) == Some(X.Amount(LineTotal(l)))
    ensures ReadDecimal(Render(X.Amount(LineTotal(l)))) == Some(Quantize(LineTotal(l), 5))
  {
    var body := LineItem(l) + LineSubTotal(l) + LineTaxes(l) + ChargeNodes(l.otrosCargos);
    var last := [X.Leaf(X.MontoTotalLinea, X.Amount(LineTotal(l)))];
    TagsOfLineBody(l);
    LineBodyBeforeTotal(l);
    TextOfAppendSkip(body, last, X.MontoTotalLinea);
    assert LineChildren(l) == body + last;
    DecimalTextDenotes(LineTotal(l), 5);
  }

  /** The charges' sum splits over any division of the charges. */
  lemma {:induction false} ChargesSumAppend(a: seq<OtherCharge>, b: seq<OtherCharge>)
    ensures ChargesSum(a + b) == ChargesSum(a) + ChargesSum(b)
  {
    if b == [] {
      assert a + b == a;
    } else {
      var b' := b[..|b| - 1];
      assert (a + b)[..|a + b| - 1] == a + b';
      ChargesSumAppend(a, b');
    }
  }

  // ---------------------------------------------------------------------------
  // Summary
  // ---------------------------------------------------------------------------

  /** The thirteen written totals are, in order, the summary's values of
      `EmittedTotals`, each under its own element. */
  lemma SummaryTotalsWritten(s: InvoiceSummary)
    ensures |TotalsNodes(s)| == |EmittedTotals|
    ensures forall k :: 0 <= k < |EmittedTotals| ==>
      TotalsNodes(s)[k] == X.Leaf(TotalTag(EmittedTotals[k]), X.Amount(s.Total(EmittedTotals[k])))
  {
  }

  /** `ResumenFactura` names its currency first and carries `TipoCambio` exactly when
      the summary has an exchange rate. */
  lemma SummaryHead(s: InvoiceSummary)
    ensures X.TextOf(SummaryChildren(s), X.CodigoMoneda) == Some(X.Str(s.moneda))
    ensures X.TextOf(SummaryChildren(s), X.TipoCambio)
      == if s.tipoCambio.Some? then Some(X.Amount(s.tipoCambio.value)) else None
  {
    var ns := SummaryChildren(s);
    var totals := TotalsNodes(s);
    TextOfAt(ns, 0, X.CodigoMoneda);
    TotalsAfterRate(s);
    if s.tipoCambio.Some? {
      TextOfAt(ns, 1, X.TipoCambio);
    } else {
      assert ns == [ns[0]] + totals;
      forall i | 0 <= i < |ns| ensures ns[i].tag != X.TipoCambio {
        if i > 0 { assert ns[i] == totals[i - 1]; }
      }
      TextOfAbsent(ns, X.TipoCambio);
    }
  }

  lemma TotalsAfterRate(s: InvoiceSummary)
    ensures forall i :: 0 <= i < |TotalsNodes(s)| ==> TotalsNodes(s)[i].tag > X.TipoCambio
  {
  }

  // ---------------------------------------------------------------------------
  // Header
  // ---------------------------------------------------------------------------

  /** The key, the consecutive number and the issue date read back from the root's
      children as the invoice gives them. */
  lemma HeaderReadsBack(inv: ElectronicInvoice, fecha: DateTime, condicion: SaleCondition)
    ensures X.TextOf(RootChildren(inv, fecha, condicion), X.Clave) == Some(X.Str(inv.clave))
    ensures X.TextOf(RootChildren(inv, fecha, condicion), X.NumeroConsecutivo) == Some(X.Str(inv.numeroConsecutivo))
    ensures X.TextOf(RootChildren(inv, fecha, condicion), X.FechaEmision) == Some(X.Timestamp(fecha))
  {
    RootStartsWithHeader(inv, fecha, condicion);
    HeaderTexts(RootChildren(inv, fecha, condicion), inv, fecha);
  }

  lemma RootStartsWithHeader(inv: ElectronicInvoice, fecha: DateTime, condicion: SaleCondition)
    ensures var ns := RootChildren(inv, fecha, condicion); |ns| >= 4 && ns[..4] == HeaderNodes(inv, fecha)
  {
  }

  lemma HeaderTexts(ns: seq<X.Node>, inv: ElectronicInvoice, fecha: DateTime)
    requires |ns| >= 4 && ns[..4] == HeaderNodes(inv, fecha)
    ensures X.TextOf(ns, X.Clave) == Some(X.Str(inv.clave))
    ensures X.TextOf(ns, X.NumeroConsecutivo) == Some(X.Str(inv.numeroConsecutivo))
    ensures X.TextOf(ns, X.FechaEmision) == Some(X.Timestamp(fecha))
  {
    var h := HeaderNodes(inv, fecha);
    assert ns[0] == h[0] && ns[1] == h[1] && ns[2] == h[2] && ns[3] == h[3] by {
      assert forall i :: 0 <= i < 4 ==> ns[i] == ns[..4][i];
    }
    assert ns[0].tag == X.Clave && ns[1].tag == X.CodigoActividad;
    assert ns[2].tag == X.NumeroConsecutivo && ns[3].tag == X.FechaEmision;
    TextOfAt(ns, 0, X.Clave);
    forall i | 0 <= i < 2 ensures ns[i].tag != X.NumeroConsecutivo {
      if i == 0 { } else { assert i == 1; }
    }
    TextOfAt(ns, 2, X.NumeroConsecutivo);
    forall i | 0 <= i < 3 ensures ns[i].tag != X.FechaEmision {
      if i == 0 { } else if i == 1 { } else { assert i == 2; }
    }
    TextOfAt(ns, 3, X.FechaEmision);
  }

  /** The sale condition reads back as its catalogue code. */
  lemma CondicionReadsBack(inv: ElectronicInvoice, fecha: DateTime, condicion: SaleCondition)
    ensures X.TextOf(RootChildren(inv, fecha, condicion), X.CondicionVenta) == Some(X.Str(condicion.Code()))
  {
    var before := HeaderNodes(inv, fecha) + PartyNodes(inv);
    var cond := X.Leaf(X.CondicionVenta, X.Str(condicion.Code()));
    RootCondicionAfterParties(inv, fecha, condicion);
    PartiesBeforeCondicion(inv, fecha);
    TextAfterPrefix(RootChildren(inv, fecha, condicion), before, cond);
  }

  lemma PartiesBeforeCondicion(inv: ElectronicInvoice, fecha: DateTime)
    ensures var before := HeaderNodes(inv, fecha) + PartyNodes(inv);
      forall i :: 0 <= i < |before| ==> before[i].tag < X.CondicionVenta
  {
    var before := HeaderNodes(inv, fecha) + PartyNodes(inv);
    TagsOfFront(inv, fecha);
    assert forall k :: k in X.Tags(before) ==> k < X.CondicionVenta;
    TagsAtMost(before, X.CondicionVenta - 1);
  }

  lemma RootCondicionAfterParties(inv: ElectronicInvoice, fecha: DateTime, condicion: SaleCondition)
    ensures var ns, before := RootChildren(inv, fecha, condicion), HeaderNodes(inv, fecha) + PartyNodes(inv);
      |ns| > |before| && ns[..|before| + 1] == before + [X.Leaf(X.CondicionVenta, X.Str(condicion.Code()))]
  {
    var p := HeaderNodes(inv, fecha) + PartyNodes(inv) + [X.Leaf(X.CondicionVenta, X.Str(condicion.Code()))];
    var s1 := p + CreditLeaf(inv.plazoCredito);
    var s2 := s1 + PaymentNodes(SortedMediosPago(inv.mediosPago));
    var s3 := s2 + [DetailNode(inv)];
    var s4 := s3 + [SummaryNode(inv.resumen)];
    var s5 := s4 + OtherChargesBlock(inv);
    var k := |p|;
    PrefixOfAppend(s5, ReferencesBlock(inv), k);
    PrefixOfAppend(s4, OtherChargesBlock(inv), k);
    PrefixOfAppend(s3, [SummaryNode(inv.resumen)], k);
    PrefixOfAppend(s2, [DetailNode(inv)], k);
    PrefixOfAppend(s1, PaymentNodes(SortedMediosPago(inv.mediosPago)), k);
    PrefixOfAppend(p, CreditLeaf(inv.plazoCredito), k);
    assert p[..k] == p;
  }

  /** A truthy credit term that is an `int` reaches the document unconverted, so the
      document, whenever it builds, cannot be serialised. */
  lemma IntCreditTermRefused(inv: ElectronicInvoice, validate: bool, serialize: X.Node -> string)
    requires inv.plazoCredito.Some? && inv.plazoCredito.value.TermDays? && inv.plazoCredito.value.days != 0
    ensures RenderInvoice(inv, validate, serialize).Err?
    ensures BuildXml(inv, validate).Ok? ==>
      && inv.plazoCredito.value.days in X.UnconvertedIn(BuildXml(inv, validate).value)
      && RenderInvoice(inv, validate, serialize).error.CannotSerialise?
  {
    if BuildXml(inv, validate).Ok? {
      var v := inv.plazoCredito.value.days;
      var fecha, condicion := inv.fechaEmision.dateTime, inv.condicionVenta.condition;
      var p := HeaderNodes(inv, fecha) + PartyNodes(inv) + [X.Leaf(X.CondicionVenta, X.Str(condicion.Code()))];
      var leaf := X.Leaf(X.PlazoCredito, X.Unconverted(v));
      assert CreditLeaf(inv.plazoCredito) == [leaf];
      assert X.UnconvertedAmong([leaf]) == [v] + X.UnconvertedAmong([]);
      var s1 := p + [leaf];
      UnconvertedAfter(p, [leaf], v);
      var s2 := s1 + PaymentNodes(SortedMediosPago(inv.mediosPago));
      UnconvertedBefore(s1, PaymentNodes(SortedMediosPago(inv.mediosPago)), v);
      var s3 := s2 + [DetailNode(inv)];
      UnconvertedBefore(s2, [DetailNode(inv)], v);
      var s4 := s3 + [SummaryNode(inv.resumen)];
      UnconvertedBefore(s3, [SummaryNode(inv.resumen)], v);
      var s5 := s4 + OtherChargesBlock(inv);
      UnconvertedBefore(s4, OtherChargesBlock(inv), v);
      UnconvertedBefore(s5, ReferencesBlock(inv), v);
      assert s5 + ReferencesBlock(inv) == RootChildren(inv, fecha, condicion);
    }
  }

  lemma UnconvertedBefore(a: seq<X.Node>, b: seq<X.Node>, v: int)
    requires v in X.UnconvertedAmong(a)
    ensures v in X.UnconvertedAmong(a + b)
  {
    X.UnconvertedAppend(a, b);
  }

  lemma UnconvertedAfter(a: seq<X.Node>, b: seq<X.Node>, v: int)
    requires v in X.UnconvertedAmong(b)
    ensures v in X.UnconvertedAmong(a + b)
  {
    X.UnconvertedAppend(a, b);
  }

  lemma PrefixOfAppend(a: seq<X.Node>, b: seq<X.Node>, k: nat)
    requires k <= |a|
    ensures (a + b)[..k] == a[..k]
  {
  }

  lemma TextAfterPrefix(ns: seq<X.Node>, before: seq<X.Node>, n: X.Node)
    requires |ns| > |before| && ns[..|before| + 1] == before + [n]
    requires forall i :: 0 <= i < |before| ==> before[i].tag != n.tag
    ensures X.TextOf(ns, n.tag) == Some(n.text)
  {
    var k := |before|;
    var pre := ns[..k + 1];
    assert ns[k] == n by {
      assert ns[k] == pre[k];
      assert pre[k] == (before + [n])[k];
    }
    forall i | 0 <= i < k ensures ns[i].tag != n.tag {
      PrefixElement(ns, before, n, i);
    }
    TextOfAt(ns, k, n.tag);
  }

  lemma PrefixElement(ns: seq<X.Node>, before: seq<X.Node>, n: X.Node, i: nat)
    requires |ns| > |before| && ns[..|before| + 1] == before + [n] && i < |before|
    ensures ns[i] == before[i]
  {
    assert ns[i] == ns[..|before| + 1][i];
    assert (before + [n])[i] == before[i];
  }

  /** On an invoice that passes validation, the key read back has 50 digits and the
      consecutive number 20. */
  lemma ValidatedHeader(inv: ElectronicInvoice)
    requires BuildXml(inv, true).Ok?
    ensures X.TextOf(BuildXml(inv, true).value.children, X.Clave) == Some(X.Str(inv.clave))
    ensures X.TextOf(BuildXml(inv, true).value.children, X.CondicionVenta)
      == Some(X.Str(inv.condicionVenta.condition.Code()))
    ensures IsDigitString(inv.clave, 50) && IsDigitString(inv.numeroConsecutivo, 20)
  {
    BuildXmlGate(inv, true);
    HeaderReadsBack(inv, inv.fechaEmision.dateTime, inv.condicionVenta.condition);
    CondicionReadsBack(inv, inv.fechaEmision.dateTime, inv.condicionVenta.condition);
  }

}
