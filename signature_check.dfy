/** The signature `Signing.SignEnveloped` attaches, read the way a verifier reads it
    (section 3.2 of W3C XML-Signature Syntax and Processing): the digest is checked
    against the document after the enveloped-signature transform (section 6.6.4), the
    signature value against the canonical `SignedInfo`, and the key against `KeyInfo`. */
module SignatureCheck {
  import opened Wrappers
  import opened Signing
  import X = Xml

  /** The first child in the signature namespace with the given tag. */
  function FirstDs(ns: seq<X.Node>, tag: X.Tag): (r: Option<X.Node>)
    ensures r.Some? ==> r.value in ns && r.value.ns == X.Dsig && r.value.tag == tag
  {
    if ns == [] then None
    else if ns[0].ns == X.Dsig && ns[0].tag == tag then Some(ns[0])
    else FirstDs(ns[1..], tag)
  }

  function TextOf(n: Option<X.Node>): Option<string>
  {
    if n.Some? && n.value.text.Str? then Some(n.value.text.s) else None
  }

  /** The `Algorithm` an element names, if any. */
  function AlgorithmOf(n: Option<X.Node>): Option<string>
  {
    if n.Some? && |n.value.attrs| > 0 && n.value.attrs[0].name == X.Algorithm then Some(n.value.attrs[0].value)
    else None
  }

  /** The enveloped-signature transform: the document without the signature element
      being checked (the child at `at`). */
  function EnvelopedTransform(doc: X.Node, at: nat): X.Node
    requires at < |doc.children|
  {
    doc.(children := doc.children[..at] + doc.children[at + 1..])
  }

  function SignedInfoOf(sig: X.Node): Option<X.Node> { FirstDs(sig.children, X.SignedInfo) }

  function ReferenceOf(sig: X.Node): Option<X.Node>
  {
    match SignedInfoOf(sig)
    case None => None
    case Some(si) => FirstDs(si.children, X.ReferenceDs)
  }

  function DigestValueOf(sig: X.Node): Option<string>
  {
    match ReferenceOf(sig)
    case None => None
    case Some(r) => TextOf(FirstDs(r.children, X.DigestValue))
  }

  function SignatureValueOf(sig: X.Node): Option<string> { TextOf(FirstDs(sig.children, X.SignatureValue)) }

  function KeyInfoOf(sig: X.Node): Option<X.Node> { FirstDs(sig.children, X.KeyInfo) }

  function KeyNameOf(sig: X.Node): Option<string>
  {
    match KeyInfoOf(sig)
    case None => None
    case Some(k) => TextOf(FirstDs(k.children, X.KeyName))
  }

  /** The texts of the `X509Certificate` children, in order. */
  function CertificateTexts(ns: seq<X.Node>): seq<string>
  {
    if ns == [] then []
    else
      (if ns[0].ns == X.Dsig && ns[0].tag == X.X509Certificate && ns[0].text.Str? then [ns[0].text.s] else [])
      + CertificateTexts(ns[1..])
  }

  function CertificatesOf(sig: X.Node): seq<string>
  {
    match KeyInfoOf(sig)
    case None => []
    case Some(k) =>
      match FirstDs(k.children, X.X509Data)
      case None => []
      case Some(d) => CertificateTexts(d.children)
  }

  lemma {:induction false} CertificateTextsOfNodes(pems: seq<string>, ns: seq<X.Node>)
    requires |ns| == |pems| && forall i :: 0 <= i < |ns| ==> ns[i] == CertificateNode(pems[i])
    ensures var t := CertificateTexts(ns); |t| == |pems| && forall i :: 0 <= i < |pems| ==> t[i] == PemBody(pems[i])
  {
    if ns != [] {
      CertificateTextsOfNodes(pems[1..], ns[1..]);
      var t := CertificateTexts(ns);
      assert t == [PemBody(pems[0])] + CertificateTexts(ns[1..]);
      forall i | 0 <= i < |pems| ensures t[i] == PemBody(pems[i]) {
        if i > 0 {
          assert t[i] == CertificateTexts(ns[1..])[i - 1];
        }
      }
    }
  }

  lemma {:induction false} FirstDsAt(ns: seq<X.Node>, k: nat, tag: X.Tag)
    requires k < |ns| && ns[k].ns == X.Dsig && ns[k].tag == tag
    requires forall i :: 0 <= i < k ==> ns[i].tag != tag
    ensures FirstDs(ns, tag) == Some(ns[k])
  {
    if k > 0 {
      FirstDsAt(ns[1..], k - 1, tag);
    }
  }

  /** Attaching the signature and then applying the enveloped-signature transform
      gives back the unsigned document, whatever it already held. */
  lemma TransformUndoesAttach(doc: X.Node, sig: X.Node)
    ensures var signed := doc.(children := doc.children + [sig]);
      |signed.children| == |doc.children| + 1 && signed.children[|doc.children|] == sig
      && EnvelopedTransform(signed, |doc.children|) == doc
  {
    var signed := doc.(children := doc.children + [sig]);
    assert signed.children[..|doc.children|] == doc.children;
    assert signed.children[|doc.children| + 1..] == [];
    assert doc.children + [] == doc.children;
  }

  /** Where a verifier finds the parts of the signature: `SignedInfo` first, its
      `Reference` third, the reference's `DigestValue` third, `SignatureValue` and
      `KeyInfo` after `SignedInfo`. */
  lemma SignatureParts(p: Primitives, key: PrivateKey, doc: X.Node, certPem: string, caPems: seq<string>,
                       keyName: string)
    ensures var sig := SignatureNode(p, key, doc, certPem, caPems, keyName);
      var si := SignedInfoNode(DigestText(p, doc));
      && SignedInfoOf(sig) == Some(si)
      && ReferenceOf(sig) == Some(ReferenceNode(DigestText(p, doc)))
      && FirstDs(sig.children, X.SignatureValue) == Some(DsLeaf(X.SignatureValue, SignatureText(p, key, si)))
      && KeyInfoOf(sig) == Some(KeyInfoNode(keyName, certPem, caPems))
  {
    var sig := SignatureNode(p, key, doc, certPem, caPems, keyName);
    var si := SignedInfoNode(DigestText(p, doc));
    FirstDsAt(sig.children, 0, X.SignedInfo);
    FirstDsAt(si.children, 2, X.ReferenceDs);
    FirstDsAt(sig.children, 1, X.SignatureValue);
    FirstDsAt(sig.children, 2, X.KeyInfo);
  }

  /** The digest a verifier recomputes over the transformed document is the one
      written, and the signature value is computed over `SignedInfo` exactly as it
      stands in the signature, digest included. */
  lemma SignatureChecks(p: Primitives, key: PrivateKey, doc: X.Node, certPem: string, caPems: seq<string>,
                        keyName: string)
    ensures var sig := SignatureNode(p, key, doc, certPem, caPems, keyName);
      var signed := doc.(children := doc.children + [sig]);
      && |signed.children| == |doc.children| + 1 && signed.children[|doc.children|] == sig
      && DigestValueOf(sig) == Some(DigestText(p, EnvelopedTransform(signed, |doc.children|)))
      && SignedInfoOf(sig).Some?
      && SignatureValueOf(sig) == Some(SignatureText(p, key, SignedInfoOf(sig).value))
  {
    var sig := SignatureNode(p, key, doc, certPem, caPems, keyName);
    var ref := ReferenceNode(DigestText(p, doc));
    TransformUndoesAttach(doc, sig);
    SignatureParts(p, key, doc, certPem, caPems, keyName);
    FirstDsAt(ref.children, 2, X.DigestValue);
  }

  /** The algorithms `SignedInfo` names: exclusive canonicalisation and RSA-SHA256,
      then SHA-256 in the reference, whose transforms are enveloped-signature and then
      exclusive canonicalisation, over the whole document (`URI=""`). */
  lemma SignedInfoAlgorithms(digest: string)
    ensures var si := SignedInfoNode(digest);
      var ref := ReferenceNode(digest);
      && FirstDs(si.children, X.ReferenceDs) == Some(ref)
      && AlgorithmOf(FirstDs(si.children, X.CanonicalizationMethod)) == Some(ExcC14nUri)
      && AlgorithmOf(FirstDs(si.children, X.SignatureMethod)) == Some(RsaSha256Uri)
      && AlgorithmOf(FirstDs(ref.children, X.DigestMethod)) == Some(Sha256Uri)
      && ref.attrs == [X.Attr(X.Uri, "")]
      && var t := FirstDs(ref.children, X.Transforms);
      t.Some? && |t.value.children| == 2
      && AlgorithmOf(Some(t.value.children[0])) == Some(EnvelopedSignatureUri)
      && AlgorithmOf(Some(t.value.children[1])) == Some(ExcC14nUri)
  {
    var si := SignedInfoNode(digest);
    var ref := ReferenceNode(digest);
    FirstDsAt(si.children, 2, X.ReferenceDs);
    FirstDsAt(si.children, 0, X.CanonicalizationMethod);
    FirstDsAt(si.children, 1, X.SignatureMethod);
    FirstDsAt(ref.children, 0, X.Transforms);
    FirstDsAt(ref.children, 1, X.DigestMethod);
  }

  /** The algorithms the attached signature names, as `SignedInfoAlgorithms` lists them. */
  lemma AlgorithmsNamed(p: Primitives, key: PrivateKey, doc: X.Node, certPem: string, caPems: seq<string>,
                        keyName: string)
    ensures var sig := SignatureNode(p, key, doc, certPem, caPems, keyName);
      && SignedInfoOf(sig).Some? && ReferenceOf(sig).Some?
      && AlgorithmOf(FirstDs(SignedInfoOf(sig).value.children, X.CanonicalizationMethod)) == Some(ExcC14nUri)
      && AlgorithmOf(FirstDs(SignedInfoOf(sig).value.children, X.SignatureMethod)) == Some(RsaSha256Uri)
      && AlgorithmOf(FirstDs(ReferenceOf(sig).value.children, X.DigestMethod)) == Some(Sha256Uri)
      && ReferenceOf(sig).value.attrs == [X.Attr(X.Uri, "")]
  {
    SignatureParts(p, key, doc, certPem, caPems, keyName);
    SignedInfoAlgorithms(DigestText(p, doc));
  }

  /** The certificates in `X509Data`: the signing certificate's PEM body, then each
      chain certificate's, in order. */
  lemma X509DataTexts(certPem: string, caPems: seq<string>)
    ensures var t := CertificateTexts(X509DataNode(certPem, caPems).children);
      |t| == 1 + |caPems| && t[0] == PemBody(certPem)
      && forall i :: 0 <= i < |caPems| ==> t[i + 1] == PemBody(caPems[i])
  {
    var ns := X509DataNode(certPem, caPems).children;
    var tail := CertificateNodes(caPems);
    CertificateTextsOfNodes(caPems, tail);
    assert ns[1..] == tail;
    assert CertificateTexts(ns) == [PemBody(certPem)] + CertificateTexts(tail);
  }

  /** `KeyInfo` names the key and carries the signing certificate's PEM body, then
      each chain certificate's, in order. */
  lemma KeyInfoCarried(p: Primitives, key: PrivateKey, doc: X.Node, certPem: string, caPems: seq<string>,
                       keyName: string)
    ensures var sig := SignatureNode(p, key, doc, certPem, caPems, keyName);
      var certs := CertificatesOf(sig);
      && KeyNameOf(sig) == Some(keyName)
      && |certs| == 1 + |caPems| && certs[0] == PemBody(certPem)
      && forall i :: 0 <= i < |caPems| ==> certs[i + 1] == PemBody(caPems[i])
  {
    var ki := KeyInfoNode(keyName, certPem, caPems);
    SignatureParts(p, key, doc, certPem, caPems, keyName);
    FirstDsAt(ki.children, 0, X.KeyName);
    FirstDsAt(ki.children, 1, X.X509Data);
    X509DataTexts(certPem, caPems);
  }

  /** `sign_xml_with_p12` succeeds exactly when the certificate decodes and loads and
      the XML parses; the certificate is dealt with first, so a certificate error is
      reported whatever the XML. On success the output is the parsed document with the
      signature of the loaded certificate attached last, named by its subject. */
  lemma SignOutcome(p: Primitives, xml: XmlInput, data: P12Input, password: Password)
    ensures var raw := ContainerBytes(p, data);
      && (raw.Err? ==> SignedXml(p, xml, data, password) == Err(raw.error))
      && (raw.Ok? && LoadPkcs12(p, raw.value, password).Err? ==>
            SignedXml(p, xml, data, password) == Err(LoadPkcs12(p, raw.value, password).error))
      && (SignedXml(p, xml, data, password).Ok? <==>
            raw.Ok? && LoadPkcs12(p, raw.value, password).Ok? && p.parse(DocumentBytes(p, xml)).Some?)
      && (SignedXml(p, xml, data, password).Ok? ==>
            var bundle, doc := LoadPkcs12(p, raw.value, password).value, p.parse(DocumentBytes(p, xml)).value;
            var signed := SignedDocument(p, bundle, doc);
            SignedXml(p, xml, data, password).value == p.serialize(signed)
            && signed.children[..|doc.children|] == doc.children
            && signed.children[|doc.children|]
               == SignatureNode(p, bundle.key, doc, p.pem(bundle.cert), Pems(p, bundle.chain), p.subject(bundle.cert)))
  {
  }
}
