/** The enveloped XML-Signature `fe_cr/signing.py` attaches to an invoice: the
    certificate guards, the PKCS#12 loading, the PEM body stripper and the shape and
    order of the `ds:Signature` element. Hashing, RSA, canonicalisation, base64,
    PKCS#12 and X.509 decoding and XML parsing and serialisation are the library's:
    they are fields of `Primitives`, fixed but not interpreted. */
module Signing {
  import opened Wrappers
  import opened Text
  import X = Xml

  type Bytes = seq<bv8>

  /** Handles for what a PKCS#12 container holds; their contents stay with the library. */
  datatype PrivateKey = PrivateKey(id: nat)
  datatype Certificate = Certificate(id: nat)

  /** What `pkcs12.load_key_and_certificates` returns: any part may be missing. */
  datatype Pkcs12Contents = Pkcs12Contents(
    key: Option<PrivateKey>, cert: Option<Certificate>, additional: Option<seq<Certificate>>)

  /** The library operations signing is written against. */
  datatype Primitives = Primitives(
    utf8: string -> Bytes,                              // str.encode("utf-8")
    b64decodeStrict: string -> Option<Bytes>,           // b64decode(validate=True); None when it raises
    b64encode: Bytes -> string,                         // b64encode(...).decode("ascii")
    loadPkcs12: (Bytes, Option<Bytes>) -> Option<Pkcs12Contents>,  // None when the library raises
    pem: Certificate -> string,                         // public_bytes(PEM), ASCII text
    subject: Certificate -> string,                     // subject.rfc4514_string()
    parse: Bytes -> Option<X.Node>,                     // etree.fromstring; None on a syntax error
    serialize: X.Node -> Bytes,                         // etree.tostring with declaration, UTF-8
    c14n: X.Node -> Bytes,                              // exclusive canonicalisation, no comments
    sha256: Bytes -> Bytes,
    rsaSign: (PrivateKey, Bytes) -> Bytes)              // RSASSA-PKCS1-v1_5 with SHA-256

  /** The alphabet of section 4 of RFC 4648, padding included. */
  predicate IsBase64Char(c: char)
  {
    ('A' <= c <= 'Z') || ('a' <= c <= 'z') || ('0' <= c <= '9') || c == '+' || c == '/' || c == '='
  }

  /** What `validate=True` guarantees of the decoder: text holding any character
      outside the alphabet (a line break, a space) is refused rather than skipped. */
  ghost predicate StrictDecoder(p: Primitives)
  {
    forall s :: p.b64decodeStrict(s).Some? ==> forall i :: 0 <= i < |s| ==> IsBase64Char(s[i])
  }

  // ---------------------------------------------------------------------------
  // Inputs and errors
  // ---------------------------------------------------------------------------

  datatype Password = NoPassword | TextPassword(text: string) | BytesPassword(bytes: Bytes)
  datatype XmlInput = XmlText(text: string) | XmlBytes(bytes: Bytes)
  datatype P12Input = P12Text(text: string) | P12Bytes(bytes: Bytes)

  datatype CertificateProblem = NotBinaryOrBase64 | MissingKeyOrCertificate

  /** A `CertificateError`, the library's own `ValueError` from an unreadable
      container or a wrong password, or the `ValueError` for XML that does not parse. */
  datatype SignError = CertificateError(problem: CertificateProblem) | Pkcs12Rejected | InvalidXml

  function CertificateMessage(problem: CertificateProblem): string
  {
    match problem
    case NotBinaryOrBase64 => "El certificado P12 debe estar en formato binario o base64"
    case MissingKeyOrCertificate => "El certificado P12 no contiene llave privada o certificado"
  }

  /** The password as the library receives it. */
  function PasswordBytes(p: Primitives, password: Password): Option<Bytes>
  {
    match password
    case NoPassword => None
    case TextPassword(s) => Some(p.utf8(s))
    case BytesPassword(b) => Some(b)
  }

  datatype Loaded = Loaded(key: PrivateKey, cert: Certificate, chain: seq<Certificate>)

  /** `_load_pkcs12`: a container without a key or without a certificate is a
      `CertificateError`; a missing chain is empty. */
  function LoadPkcs12(p: Primitives, data: Bytes, password: Password): (r: Result<Loaded, SignError>)
    ensures var c := p.loadPkcs12(data, PasswordBytes(p, password));
      && (r == Err(Pkcs12Rejected) <==> c.None?)
      && (r == Err(CertificateError(MissingKeyOrCertificate)) <==>
            c.Some? && (c.value.key.None? || c.value.cert.None?))
      && (r.Ok? ==> c.Some? && c.value.key == Some(r.value.key) && c.value.cert == Some(r.value.cert)
                    && r.value.chain == c.value.additional.GetOr([]))
  {
    match p.loadPkcs12(data, PasswordBytes(p, password))
    case None => Err(Pkcs12Rejected)
    case Some(c) =>
      if c.key.None? || c.cert.None? then Err(CertificateError(MissingKeyOrCertificate))
      else Ok(Loaded(c.key.value, c.cert.value, c.additional.GetOr([])))
  }

  /** The container's bytes: text must be strict base64. */
  function ContainerBytes(p: Primitives, data: P12Input): Result<Bytes, SignError>
  {
    match data
    case P12Bytes(b) => Ok(b)
    case P12Text(s) =>
      match p.b64decodeStrict(s)
      case None => Err(CertificateError(NotBinaryOrBase64))
      case Some(b) => Ok(b)
  }

  /** Certificate text holding a character outside the base64 alphabet is refused
      with a `CertificateError`, whatever the XML and the password. */
  lemma NonBase64Refused(p: Primitives, xml: XmlInput, text: string, password: Password, k: nat)
    requires StrictDecoder(p) && k < |text| && !IsBase64Char(text[k])
    ensures SignedXml(p, xml, P12Text(text), password) == Err(CertificateError(NotBinaryOrBase64))
  {
    var c := text[k];
    assert p.b64decodeStrict(text).Some? ==> IsBase64Char(c);
  }

  // ---------------------------------------------------------------------------
  // PEM bodies
  // ---------------------------------------------------------------------------

  /** The characters `str.splitlines()` ends a line at. */
  predicate IsLineBreak(c: char)
  {
    c == '\n' || c == '\r' || c == '\U{b}' || c == '\U{c}' || ('\U{1c}' <= c <= '\U{1e}')
    || c == '\U{85}' || c == '\U{2028}' || c == '\U{2029}'
  }

  predicate NoLineBreak(s: string) { forall i :: 0 <= i < |s| ==> !IsLineBreak(s[i]) }

  /** The length of the first line of `s`. */
  function LineEnd(s: string): (k: nat)
    ensures k <= |s| && NoLineBreak(s[..k]) && (k < |s| ==> IsLineBreak(s[k]))
  {
    if s == [] || IsLineBreak(s[0]) then 0
    else
      var k := LineEnd(s[1..]);
      assert s[..k + 1] == [s[0]] + s[1..][..k];
      k + 1
  }

  /** `str.splitlines()`: the lines without their terminators; `\r\n` ends a single
      line and a final terminator starts no empty line. */
  function SplitLines(s: string): (r: seq<string>)
    ensures forall i :: 0 <= i < |r| ==> NoLineBreak(r[i])
    decreases |s|
  {
    if s == [] then []
    else
      var k := LineEnd(s);
      if k == |s| then [s]
      else
        var next := if s[k] == '\r' && k + 1 < |s| && s[k + 1] == '\n' then k + 2 else k + 1;
        [s[..k]] + SplitLines(s[next..])
  }

  predicate StartsWith(s: string, prefix: string) { |prefix| <= |s| && s[..|prefix|] == prefix }

  /** A line `_pem_body_b64` keeps: not an armour line and not blank. */
  predicate IsBodyLine(line: string) { !StartsWith(line, "---") && !AllSpace(line) }

  /** The filter as written tests `line.strip()` for truthiness. */
  lemma BodyLineIsStripTest(line: string)
    ensures IsBodyLine(line) <==> !StartsWith(line, "---") && Strip(line) != ""
  {
    StripEmptyIff(line);
  }

  function BodyLines(lines: seq<string>): seq<string>
  {
    if lines == [] then []
    else (if IsBodyLine(lines[0]) then [lines[0]] else []) + BodyLines(lines[1..])
  }

  function Concat(parts: seq<string>): string
  {
    if parts == [] then "" else parts[0] + Concat(parts[1..])
  }

  lemma {:induction false} ConcatNoLineBreak(parts: seq<string>)
    requires forall i :: 0 <= i < |parts| ==> NoLineBreak(parts[i])
    ensures NoLineBreak(Concat(parts))
  {
    if parts != [] {
      ConcatNoLineBreak(parts[1..]);
      var rest := Concat(parts[1..]);
      assert Concat(parts) == parts[0] + rest;
      forall i | 0 <= i < |parts[0] + rest| ensures !IsLineBreak((parts[0] + rest)[i]) {
        if i >= |parts[0]| {
          assert (parts[0] + rest)[i] == rest[i - |parts[0]|];
        }
      }
    }
  }

  lemma {:induction false} BodyLinesAreLines(lines: seq<string>)
    ensures forall i :: 0 <= i < |BodyLines(lines)| ==> BodyLines(lines)[i] in lines
  {
    if lines != [] {
      BodyLinesAreLines(lines[1..]);
    }
  }

  /** `_pem_body_b64`: the PEM text's lines other than armour and blank lines, joined
      without separators; the result holds no line break. */
  function PemBody(pem: string): (r: string)
    ensures NoLineBreak(r)
  {
    var lines := SplitLines(pem);
    BodyLinesAreLines(lines);
    ConcatNoLineBreak(BodyLines(lines));
    Concat(BodyLines(lines))
  }

  /** Lines each followed by a newline: how PEM text is laid out. */
  function Terminated(lines: seq<string>): string
  {
    if lines == [] then "" else lines[0] + "\n" + Terminated(lines[1..])
  }

  lemma {:induction false} SplitLinesTerminated(lines: seq<string>)
    requires forall i :: 0 <= i < |lines| ==> NoLineBreak(lines[i])
    ensures SplitLines(Terminated(lines)) == lines
  {
    if lines != [] {
      var s := Terminated(lines);
      var head := lines[0];
      assert s == head + "\n" + Terminated(lines[1..]);
      assert s[|head|] == '\n';
      assert s[..|head|] == head;
      assert LineEnd(s) == |head| by {
        LineEndAt(s, |head|);
      }
      assert s[|head| + 1..] == Terminated(lines[1..]);
      SplitLinesTerminated(lines[1..]);
    }
  }

  lemma {:induction false} LineEndAt(s: string, k: nat)
    requires k < |s| && NoLineBreak(s[..k]) && IsLineBreak(s[k])
    ensures LineEnd(s) == k
  {
    if k > 0 {
      assert s[0] == s[..k][0];
      assert s[1..][..k - 1] == s[..k][1..];
      LineEndAt(s[1..], k - 1);
    }
  }

  lemma BodyLinesCons(line: string, rest: seq<string>)
    ensures BodyLines([line] + rest) == (if IsBodyLine(line) then [line] else []) + BodyLines(rest)
  {
    assert ([line] + rest)[1..] == rest;
  }

  lemma {:induction false} BodyLinesKeepAll(body: seq<string>, tail: seq<string>)
    requires forall i :: 0 <= i < |body| ==> IsBodyLine(body[i])
    ensures BodyLines(body + tail) == body + BodyLines(tail)
  {
    if body != [] {
      var all := body + tail;
      assert all[0] == body[0] && all[1..] == body[1..] + tail;
      BodyLinesKeepAll(body[1..], tail);
      assert BodyLines(all) == [body[0]] + BodyLines(all[1..]);
      assert [body[0]] + (body[1..] + BodyLines(tail)) == body + BodyLines(tail) by {
        assert [body[0]] + body[1..] == body;
      }
    } else {
      assert body + tail == tail;
    }
  }

  /** Stripping an armoured PEM text gives back its base64 lines run together: the
      `BEGIN` and `END` lines go and every body line stays, in order. */
  lemma PemBodyOfArmoured(begin: string, body: seq<string>, end: string)
    requires StartsWith(begin, "---") && StartsWith(end, "---")
    requires NoLineBreak(begin) && NoLineBreak(end)
    requires forall i :: 0 <= i < |body| ==> NoLineBreak(body[i]) && IsBodyLine(body[i])
    ensures PemBody(Terminated([begin] + body + [end])) == Concat(body)
  {
    ArmouredLines(begin, body, end);
    ArmouredBodyLines(begin, body, end);
  }

  lemma ArmouredLines(begin: string, body: seq<string>, end: string)
    requires NoLineBreak(begin) && NoLineBreak(end)
    requires forall i :: 0 <= i < |body| ==> NoLineBreak(body[i])
    ensures SplitLines(Terminated([begin] + body + [end])) == [begin] + body + [end]
  {
    var lines := [begin] + body + [end];
    forall i | 0 <= i < |lines| ensures NoLineBreak(lines[i]) {
      if 0 < i <= |body| {
        assert lines[i] == body[i - 1];
      }
    }
    SplitLinesTerminated(lines);
  }

  lemma ArmouredBodyLines(begin: string, body: seq<string>, end: string)
    requires StartsWith(begin, "---") && StartsWith(end, "---")
    requires forall i :: 0 <= i < |body| ==> IsBodyLine(body[i])
    ensures BodyLines([begin] + body + [end]) == body
  {
    assert [begin] + body + [end] == [begin] + (body + [end]);
    BodyLinesCons(begin, body + [end]);
    BodyLinesKeepAll(body, [end]);
    BodyLinesCons(end, []);
    assert [end] + [] == [end];
    assert body + [] == body;
  }

  // ---------------------------------------------------------------------------
  // The signature element
  // ---------------------------------------------------------------------------

  const DsigUri := "http://www.w3.org/2000/09/xmldsig#"
  const ExcC14nUri := "http://www.w3.org/2001/10/xml-exc-c14n#"
  const RsaSha256Uri := "http://www.w3.org/2001/04/xmldsig-more#rsa-sha256"
  const EnvelopedSignatureUri := "http://www.w3.org/2000/09/xmldsig#enveloped-signature"
  const Sha256Uri := "http://www.w3.org/2001/04/xmlenc#sha256"

  /** An element in the XML-Signature namespace holding only text. */
  function DsLeaf(tag: X.Tag, text: string): X.Node { X.Node(X.Dsig, tag, [], X.Str(text), []) }

  /** An element in the XML-Signature namespace naming an algorithm. */
  function AlgorithmNode(tag: X.Tag, uri: string): X.Node
  {
    X.Node(X.Dsig, tag, [X.Attr(X.Algorithm, uri)], X.Str(""), [])
  }

  function TransformsNode(): X.Node
  {
    X.Node(X.Dsig, X.Transforms, [], X.Str(""),
      [AlgorithmNode(X.Transform, EnvelopedSignatureUri), AlgorithmNode(X.Transform, ExcC14nUri)])
  }

  /** The `Reference` to the whole document (`URI=""`). */
  function ReferenceNode(digest: string): X.Node
  {
    X.Node(X.Dsig, X.ReferenceDs, [X.Attr(X.Uri, "")], X.Str(""),
      [TransformsNode(), AlgorithmNode(X.DigestMethod, Sha256Uri), DsLeaf(X.DigestValue, digest)])
  }

  function SignedInfoNode(digest: string): X.Node
  {
    X.Node(X.Dsig, X.SignedInfo, [], X.Str(""),
      [AlgorithmNode(X.CanonicalizationMethod, ExcC14nUri), AlgorithmNode(X.SignatureMethod, RsaSha256Uri),
       ReferenceNode(digest)])
  }

  /** `_digest_base64`: base64 of the SHA-256 of the canonical document. */
  function DigestText(p: Primitives, doc: X.Node): string { p.b64encode(p.sha256(p.c14n(doc))) }

  /** `_signature_base64` over the canonical `SignedInfo`. */
  function SignatureText(p: Primitives, key: PrivateKey, signedInfo: X.Node): string
  {
    p.b64encode(p.rsaSign(key, p.c14n(signedInfo)))
  }

  function CertificateNode(pem: string): X.Node { DsLeaf(X.X509Certificate, PemBody(pem)) }

  function CertificateNodes(pems: seq<string>): (r: seq<X.Node>)
    ensures |r| == |pems| && forall i :: 0 <= i < |pems| ==> r[i] == CertificateNode(pems[i])
  {
    if pems == [] then [] else CertificateNodes(pems[..|pems| - 1]) + [CertificateNode(pems[|pems| - 1])]
  }

  /** The signing certificate, then the chain in order. */
  function X509DataNode(certPem: string, caPems: seq<string>): X.Node
  {
    X.Node(X.Dsig, X.X509Data, [], X.Str(""), [CertificateNode(certPem)] + CertificateNodes(caPems))
  }

  /** `KeyName`, then `X509Data`. */
  function KeyInfoNode(keyName: string, certPem: string, caPems: seq<string>): X.Node
  {
    X.Node(X.Dsig, X.KeyInfo, [], X.Str(""), [DsLeaf(X.KeyName, keyName), X509DataNode(certPem, caPems)])
  }

  /** The `ds:Signature` for `doc`: its digest is taken over `doc` as it stands
      before the signature is attached, and its value over the finished `SignedInfo`. */
  function SignatureNode(p: Primitives, key: PrivateKey, doc: X.Node, certPem: string, caPems: seq<string>,
                         keyName: string): X.Node
  {
    var signedInfo := SignedInfoNode(DigestText(p, doc));
    X.Node(X.Dsig, X.Signature, [X.Attr(X.XmlnsDs, DsigUri)], X.Str(""),
      [signedInfo, DsLeaf(X.SignatureValue, SignatureText(p, key, signedInfo)),
       KeyInfoNode(keyName, certPem, caPems)])
  }

  /** The `SignedInfo` element, built child by child; the digest of `doc` is
      written into `DigestValue` before anything else reads the element. */
  method BuildSignedInfo(p: Primitives, doc: X.Node) returns (n: X.Node)
    ensures n == SignedInfoNode(DigestText(p, doc))
  {
    var signedInfo := new X.Element(X.Dsig, X.SignedInfo, []);
    signedInfo.Append(AlgorithmNode(X.CanonicalizationMethod, ExcC14nUri));
    signedInfo.Append(AlgorithmNode(X.SignatureMethod, RsaSha256Uri));
    var reference := new X.Element(X.Dsig, X.ReferenceDs, [X.Attr(X.Uri, "")]);
    reference.Append(TransformsNode());
    reference.Append(AlgorithmNode(X.DigestMethod, Sha256Uri));
    reference.Append(DsLeaf(X.DigestValue, DigestText(p, doc)));
    assert reference.ToNode() == ReferenceNode(DigestText(p, doc));
    signedInfo.Append(reference.ToNode());
    n := signedInfo.ToNode();
  }

  /** `for ca_pem in ca_pems:` one `X509Certificate` per chain certificate. */
  method AppendCertificates(x509: X.Element, pems: seq<string>)
    modifies x509
    ensures x509.children == old(x509.children) + CertificateNodes(pems)
    ensures x509.text == old(x509.text)
  {
    ghost var start, text := x509.children, x509.text;
    for i := 0 to |pems|
      invariant x509.children == start + CertificateNodes(pems[..i])
      invariant x509.text == text
    {
      assert pems[..i + 1][..i] == pems[..i];
      x509.Append(CertificateNode(pems[i]));
    }
    assert pems[..|pems|] == pems;
  }

  method BuildX509Data(certPem: string, caPems: seq<string>) returns (n: X.Node)
    ensures n == X509DataNode(certPem, caPems)
  {
    var x509 := new X.Element(X.Dsig, X.X509Data, []);
    x509.Append(CertificateNode(certPem));
    AppendCertificates(x509, caPems);
    assert x509.children == [CertificateNode(certPem)] + CertificateNodes(caPems);
    n := x509.ToNode();
  }

  method BuildKeyInfo(keyName: string, certPem: string, caPems: seq<string>) returns (n: X.Node)
    ensures n == KeyInfoNode(keyName, certPem, caPems)
  {
    var x509 := BuildX509Data(certPem, caPems);
    var keyInfo := new X.Element(X.Dsig, X.KeyInfo, []);
    keyInfo.Append(DsLeaf(X.KeyName, keyName));
    keyInfo.Append(x509);
    assert keyInfo.children == [DsLeaf(X.KeyName, keyName), x509];
    n := keyInfo.ToNode();
  }

  /** `_sign_enveloped`: builds the signature and attaches it as the root's last child;
      the root's earlier children stay as they were. */
  method SignEnveloped(root: X.Element, p: Primitives, key: PrivateKey, certPem: string, caPems: seq<string>,
                       keyName: string)
    modifies root
    ensures root.children == old(root.children) + [SignatureNode(p, key, old(root.ToNode()), certPem, caPems, keyName)]
    ensures root.text == old(root.text)
  {
    ghost var doc := root.ToNode();
    var signature := new X.Element(X.Dsig, X.Signature, [X.Attr(X.XmlnsDs, DsigUri)]);
    var signedInfo := BuildSignedInfo(p, root.ToNode());
    signature.Append(signedInfo);
    var canonical := p.c14n(signedInfo);
    signature.Append(DsLeaf(X.SignatureValue, p.b64encode(p.rsaSign(key, canonical))));
    var keyInfo := BuildKeyInfo(keyName, certPem, caPems);
    signature.Append(keyInfo);
    assert signature.ToNode() == SignatureNode(p, key, doc, certPem, caPems, keyName);
    root.Append(signature.ToNode());
  }

  // ---------------------------------------------------------------------------
  // sign_xml_with_p12
  // ---------------------------------------------------------------------------

  function Pems(p: Primitives, certs: seq<Certificate>): (r: seq<string>)
    ensures |r| == |certs| && forall i :: 0 <= i < |certs| ==> r[i] == p.pem(certs[i])
  {
    if certs == [] then [] else Pems(p, certs[..|certs| - 1]) + [p.pem(certs[|certs| - 1])]
  }

  /** The parsed document with the signature of its loaded certificate attached last. */
  function SignedDocument(p: Primitives, bundle: Loaded, doc: X.Node): X.Node
  {
    doc.(children := doc.children + [SignatureNode(p, bundle.key, doc, p.pem(bundle.cert),
      Pems(p, bundle.chain), p.subject(bundle.cert))])
  }

  function DocumentBytes(p: Primitives, xml: XmlInput): Bytes
  {
    match xml
    case XmlText(s) => p.utf8(s)
    case XmlBytes(b) => b
  }

  /** What `sign_xml_with_p12` returns or raises: the certificate is decoded and
      loaded first, then the XML parsed, signed and serialised. */
  function SignedXml(p: Primitives, xml: XmlInput, data: P12Input, password: Password): Result<Bytes, SignError>
  {
    match ContainerBytes(p, data)
    case Err(e) => Err(e)
    case Ok(raw) =>
      match LoadPkcs12(p, raw, password)
      case Err(e) => Err(e)
      case Ok(bundle) =>
        match p.parse(DocumentBytes(p, xml))
        case None => Err(InvalidXml)
        case Some(doc) => Ok(p.serialize(SignedDocument(p, bundle, doc)))
  }

  method SignXmlWithP12(p: Primitives, xml: XmlInput, data: P12Input, password: Password)
    returns (r: Result<Bytes, SignError>)
    ensures r == SignedXml(p, xml, data, password)
  {
    var xmlBytes := if xml.XmlText? then p.utf8(xml.text) else xml.bytes;
    var raw: Bytes;
    if data.P12Text? {
      var decoded := p.b64decodeStrict(data.text);
      if decoded.None? {
        return Err(CertificateError(NotBinaryOrBase64));
      }
      raw := decoded.value;
    } else {
      raw := data.bytes;
    }
    var loaded := LoadPkcs12(p, raw, password);
    if loaded.Err? {
      return Err(loaded.error);
    }
    var bundle := loaded.value;
    var tree := p.parse(xmlBytes);
    if tree.None? {
      return Err(InvalidXml);
    }
    var root := new X.Element.FromNode(tree.value);
    var certPem := p.pem(bundle.cert);
    var caPems := Pems(p, bundle.chain);
    SignEnveloped(root, p, bundle.key, certPem, caPems, p.subject(bundle.cert));
    r := Ok(p.serialize(root.ToNode()));
  }
}
