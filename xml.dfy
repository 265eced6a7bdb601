/** The element trees the builder and the signer produce. An element has a
    namespace, a tag, attributes, text and children; the tags the system uses are
    a closed set. `Element` is the mutable element of ElementTree and lxml: a
    parent that `SubElement` and `append` grow in place. */
module Xml {
  import opened Wrappers
  import M = Models

  /** Element names. A tag is the position of its name in `TagNames`; the invoice
      and its enveloped signature use only these. */
  newtype Tag = t: int | 0 <= t < 90

  const FacturaElectronica: Tag := 0
  const Clave: Tag := 1
  const CodigoActividad: Tag := 2
  const NumeroConsecutivo: Tag := 3
  const FechaEmision: Tag := 4
  const Emisor: Tag := 5
  const Receptor: Tag := 6
  const Nombre: Tag := 7
  const Identificacion: Tag := 8
  const Tipo: Tag := 9
  const Numero: Tag := 10
  const NombreComercial: Tag := 11
  const IdentificacionExtranjero: Tag := 12
  const Ubicacion: Tag := 13
  const Provincia: Tag := 14
  const Canton: Tag := 15
  const Distrito: Tag := 16
  const Barrio: Tag := 17
  const OtrasSenas: Tag := 18
  const Telefono: Tag := 19
  const Fax: Tag := 20
  const CodigoPais: Tag := 21
  const NumTelefono: Tag := 22
  const CorreoElectronico: Tag := 23
  const CondicionVenta: Tag := 24
  const PlazoCredito: Tag := 25
  const MedioPago: Tag := 26
  const DetalleServicio: Tag := 27
  const LineaDetalle: Tag := 28
  const NumeroLinea: Tag := 29
  const Codigo: Tag := 30
  const Cantidad: Tag := 31
  const UnidadMedida: Tag := 32
  const Detalle: Tag := 33
  const PrecioUnitario: Tag := 34
  const MontoTotal: Tag := 35
  const Descuento: Tag := 36
  const MontoDescuento: Tag := 37
  const NaturalezaDescuento: Tag := 38
  const SubTotal: Tag := 39
  const BaseImponible: Tag := 40
  const Impuesto: Tag := 41
  const CodigoTarifa: Tag := 42
  const Tarifa: Tag := 43
  const Monto: Tag := 44
  const FactorIVA: Tag := 45
  const Exoneracion: Tag := 46
  const TipoDocumento: Tag := 47
  const NumeroDocumento: Tag := 48
  const NombreInstitucion: Tag := 49
  const PorcentajeExoneracion: Tag := 50
  const MontoExoneracion: Tag := 51
  const ImpuestoNeto: Tag := 52
  const OtroCargo: Tag := 53
  const MontoCargo: Tag := 54
  const MontoTotalLinea: Tag := 55
  const ResumenFactura: Tag := 56
  const CodigoMoneda: Tag := 57
  const TipoCambio: Tag := 58
  const TotalServGravados: Tag := 59
  const TotalServExentos: Tag := 60
  const TotalMercanciasGravadas: Tag := 61
  const TotalMercanciasExentas: Tag := 62
  const TotalGravado: Tag := 63
  const TotalExento: Tag := 64
  const TotalExonerado: Tag := 65
  const TotalVenta: Tag := 66
  const TotalDescuentos: Tag := 67
  const TotalVentaNeta: Tag := 68
  const TotalImpuesto: Tag := 69
  const TotalOtrosCargos: Tag := 70
  const TotalComprobante: Tag := 71
  const OtrosCargos: Tag := 72
  const InformacionReferencia: Tag := 73
  const Referencia: Tag := 74
  const Razon: Tag := 75
  const Signature: Tag := 76
  const SignedInfo: Tag := 77
  const CanonicalizationMethod: Tag := 78
  const SignatureMethod: Tag := 79
  const ReferenceDs: Tag := 80
  const Transforms: Tag := 81
  const Transform: Tag := 82
  const DigestMethod: Tag := 83
  const DigestValue: Tag := 84
  const SignatureValue: Tag := 85
  const KeyInfo: Tag := 86
  const KeyName: Tag := 87
  const X509Data: Tag := 88
  const X509Certificate: Tag := 89

  /** The local name written in the document for each tag. */
  const TagNames: seq<string> := [
    "FacturaElectronica", "Clave", "CodigoActividad", "NumeroConsecutivo", "FechaEmision",
    "Emisor", "Receptor", "Nombre", "Identificacion", "Tipo", "Numero", "NombreComercial",
    "IdentificacionExtranjero", "Ubicacion", "Provincia", "Canton", "Distrito", "Barrio",
    "OtrasSenas", "Telefono", "Fax", "CodigoPais", "NumTelefono", "CorreoElectronico",
    "CondicionVenta", "PlazoCredito", "MedioPago", "DetalleServicio", "LineaDetalle",
    "NumeroLinea", "Codigo", "Cantidad", "UnidadMedida", "Detalle", "PrecioUnitario", "MontoTotal",
    "Descuento", "MontoDescuento", "NaturalezaDescuento", "SubTotal", "BaseImponible", "Impuesto",
    "CodigoTarifa", "Tarifa", "Monto", "FactorIVA", "Exoneracion", "TipoDocumento",
    "NumeroDocumento", "NombreInstitucion", "PorcentajeExoneracion", "MontoExoneracion",
    "ImpuestoNeto", "OtroCargo", "MontoCargo", "MontoTotalLinea", "ResumenFactura", "CodigoMoneda",
    "TipoCambio", "TotalServGravados", "TotalServExentos", "TotalMercanciasGravadas",
    "TotalMercanciasExentas", "TotalGravado", "TotalExento", "TotalExonerado", "TotalVenta",
    "TotalDescuentos", "TotalVentaNeta", "TotalImpuesto", "TotalOtrosCargos", "TotalComprobante",
    "OtrosCargos", "InformacionReferencia", "Referencia", "Razon", "Signature", "SignedInfo",
    "CanonicalizationMethod", "SignatureMethod", "Reference", "Transforms", "Transform",
    "DigestMethod", "DigestValue", "SignatureValue", "KeyInfo", "KeyName", "X509Data",
    "X509Certificate"
  ]

  function Name(t: Tag): string
  {
    if (t as int) < |TagNames| then TagNames[t] else ""
  }

  /** Invoice elements carry no namespace prefix in their tag (the root declares
      the default namespace as a plain `xmlns` attribute); signature elements are
      qualified with the XML-Signature namespace. */
  datatype Namespace = Unqualified | Dsig

  datatype AttrName = Xmlns | XmlnsXsi | XmlnsDs | XsiSchemaLocation | Algorithm | Uri

  datatype Attr = Attr(name: AttrName, value: string)

  /** The text of an element, kept as the value it is written from: a string as is,
      a decimal amount (written with `_decimal_to_text`), a timestamp (written with
      `_datetime_to_text`), an integer (written with `str`), or an `int` assigned as
      the text itself with no conversion, which the serialiser refuses. The characters
      are given by `XmlBuilder.Render`. */
  datatype Content = Str(s: string) | Amount(v: real) | Timestamp(d: M.DateTime) | Integer(i: int)
                   | Unconverted(n: int)

  /** A finished element. An element never given text has text `Str("")` (ElementTree's
      `None` serialises the same way). */
  datatype Node = Node(ns: Namespace, tag: Tag, attrs: seq<Attr>, text: Content, children: seq<Node>)

  /** `_text(parent, tag, value)` produces this child. */
  function Leaf(tag: Tag, text: Content): Node { Node(Unqualified, tag, [], text, []) }

  /** An unqualified element with no attributes and no text of its own. */
  function Container(tag: Tag, children: seq<Node>): Node { Node(Unqualified, tag, [], Str(""), children) }

  /** The tags of a list of children, in order. */
  function Tags(ns: seq<Node>): (r: seq<Tag>)
    ensures |r| == |ns| && forall i :: 0 <= i < |ns| ==> r[i] == ns[i].tag
  {
    if ns == [] then [] else Tags(ns[..|ns| - 1]) + [ns[|ns| - 1].tag]
  }

  lemma TagsAppend(a: seq<Node>, b: seq<Node>)
    ensures Tags(a + b) == Tags(a) + Tags(b)
  {
  }

  /** The unconverted integers among the texts of a tree, in document order. */
  function UnconvertedIn(n: Node): seq<int>
  {
    (if n.text.Unconverted? then [n.text.n] else []) + UnconvertedAmong(n.children)
  }

  function UnconvertedAmong(ns: seq<Node>): seq<int>
  {
    if ns == [] then [] else UnconvertedIn(ns[0]) + UnconvertedAmong(ns[1..])
  }

  lemma {:induction false} UnconvertedAppend(a: seq<Node>, b: seq<Node>)
    ensures UnconvertedAmong(a + b) == UnconvertedAmong(a) + UnconvertedAmong(b)
  {
    if a != [] {
      assert (a + b)[1..] == a[1..] + b;
      UnconvertedAppend(a[1..], b);
    } else {
      assert a + b == b;
    }
  }

  /** The text of the first child with the given tag, if any: how a consumer of the
      document reads a field back. */
  function TextOf(ns: seq<Node>, tag: Tag): (r: Option<Content>)
    ensures r.Some? <==> tag in Tags(ns)
  {
    if ns == [] then None
    else if ns[0].tag == tag then Some(ns[0].text)
    else
      assert Tags(ns) == [ns[0].tag] + Tags(ns[1..]);
      TextOf(ns[1..], tag)
  }

  /** The children with the given tag, in document order: what a consumer selecting
      those elements gets. */
  function WithTag(ns: seq<Node>, tag: Tag): (r: seq<Node>)
    ensures |r| <= |ns| && forall i :: 0 <= i < |r| ==> r[i].tag == tag
  {
    if ns == [] then [] else Keep(ns[0], tag) + WithTag(ns[1..], tag)
  }

  function Keep(n: Node, tag: Tag): seq<Node> { if n.tag == tag then [n] else [] }

  lemma {:induction false} WithTagAppend(a: seq<Node>, b: seq<Node>, tag: Tag)
    ensures WithTag(a + b, tag) == WithTag(a, tag) + WithTag(b, tag)
  {
    if a != [] {
      var k, ta, tb := Keep(a[0], tag), WithTag(a[1..], tag), WithTag(b, tag);
      assert (a + b)[0] == a[0] && (a + b)[1..] == a[1..] + b;
      WithTagAppend(a[1..], b, tag);
      assert WithTag(a + b, tag) == k + (ta + tb);
      assert k + (ta + tb) == (k + ta) + tb;
    } else {
      assert a + b == b;
    }
  }

  lemma {:induction false} WithTagNone(ns: seq<Node>, tag: Tag)
    requires forall i :: 0 <= i < |ns| ==> ns[i].tag != tag
    ensures WithTag(ns, tag) == []
  {
    if ns != [] { WithTagNone(ns[1..], tag); }
  }

  lemma {:induction false} WithTagAll(ns: seq<Node>, tag: Tag)
    requires forall i :: 0 <= i < |ns| ==> ns[i].tag == tag
    ensures WithTag(ns, tag) == ns
  {
    if ns != [] { WithTagAll(ns[1..], tag); }
  }

  /** One tag when `present`, none otherwise: an optional position of a layout. */
  function Opt(present: bool, tag: Tag): seq<Tag> { if present then [tag] else [] }

  /** `n` repetitions of a tag: a repeated position of a layout. */
  function Many(tag: Tag, n: nat): (r: seq<Tag>)
    ensures |r| == n && forall i :: 0 <= i < n ==> r[i] == tag
  {
    if n == 0 then [] else Many(tag, n - 1) + [tag]
  }

  /** A mutable element: what `Element(...)`, `SubElement(...)` and `.append(...)`
      work on. Sub-elements are held as finished values; a child that the source
      still fills after attaching it is built first and attached once complete,
      which gives the same final tree. */
  class Element {
    const ns: Namespace
    const tag: Tag
    const attrs: seq<Attr>
    var text: Content
    var children: seq<Node>

    constructor (ns: Namespace, tag: Tag, attrs: seq<Attr>)
      ensures this.ns == ns && this.tag == tag && this.attrs == attrs
      ensures text == Str("") && children == []
    {
      this.ns := ns;
      this.tag := tag;
      this.attrs := attrs;
      text := Str("");
      children := [];
    }

    /** An element holding a parsed document: `etree.fromstring(...)`'s result. */
    constructor FromNode(n: Node)
      ensures ToNode() == n
    {
      ns := n.ns;
      tag := n.tag;
      attrs := n.attrs;
      text := n.text;
      children := n.children;
    }

    /** The element as a finished value. */
    function ToNode(): Node
      reads this
    {
      Node(ns, tag, attrs, text, children)
    }

    /** `parent.append(child)` / attaching a finished `SubElement`. */
    method Append(child: Node)
      modifies this
      ensures children == old(children) + [child] && text == old(text)
    {
      children := children + [child];
    }

    /** `_text(self, tag, value)`: a new child with the given text. */
    method SubText(childTag: Tag, value: Content)
      modifies this
      ensures children == old(children) + [Leaf(childTag, value)] && text == old(text)
    {
      children := children + [Leaf(childTag, value)];
    }

    /** `element.text = value` */
    method SetText(value: Content)
      modifies this
      ensures text == value && children == old(children)
    {
      text := value;
    }
  }
}
