# FE_CR v4.4 electronic invoice core, modelled in Dafny

This project models the core of FE_CR, a Python library and two Odoo add-ons that
issue Costa Rican electronic invoices (`FacturaElectronica`, schema v4.4) for the
Ministerio de Hacienda. The model covers these parts:

- **Invoice data model** (`models.dfy`, module `Models`): the sale-condition and
  payment-method catalogues, the invoice records, the summary with its defaulted
  totals, and `sorted_medios_pago`.
- **Pre-flight validation** (`validation.dfy`, module `Validation`): the checks of
  `validate_invoice` in source order. The first failure is reported with its message
  and field path.
- **XML document builder** (`xml.dfy`, `xml_builder.dfy`, `decimal_text.dfy`,
  `xml_layout.dfy`; modules `Xml`, `XmlBuilder`, `DecimalText`, `XmlLayout`).
  - A mutable element class grows the `FacturaElectronica` tree child by child, as
    `invoice_to_xml` does.
  - Each step is proved against a specification function of the children it appends.
  - Lemmas state what a reader of the document can rely on: the order of the
    elements, read-backs of the header, payment methods, detail lines, line totals
    and summary totals, and the text form of decimals (ROUND_HALF_UP to five places,
    normalised, never in exponent form).
- **Enveloped XML-Signature** (`signing.dfy`, `signature_check.dfy`; modules `Signing`,
  `SignatureCheck`): how the certificate is loaded, how PEM bodies are stripped, and
  the shape and order of `ds:Signature`. The model also proves that the digest it
  writes is the digest a verifier recomputes after the enveloped-signature transform
  (section 6.6.4 of W3C XML-Signature Syntax and Processing).
- **Hacienda reception API client** (`hacienda_api.dfy`, module `HaciendaClient`).
  - A client class holds the base URL and the bearer token.
  - A session class records each request it is given.
  - The model states which environment a name selects, when the token changes, when
    a request is sent at all, what the submission body holds, and how a reply is
    classified.
- **Odoo `account.move` extension** (`account_move.dfy`, module `OdooMove`): the
  configuration check, key and consecutive generation, payment-method parsing, the
  numbering of detail lines, invoice preparation with write-back of the key and
  consecutive, and XML generation. The two add-ons ship byte-identical copies of
  this file. The model cites the `fe_cr_einvoice` copy, and every citation applies
  equally to `odoo_addons/l10n_cr_edi/models/account_move.py`.

Decimals are exact rationals (`real`), so the library's `Decimal` arithmetic is exact
here too. Cryptography, canonicalisation, base64, PKCS#12 and X.509 decoding, and XML
parsing and serialisation belong to libraries. They appear as function-typed fields of
a parameter (`Signing.Primitives`, `HaciendaClient.Codecs`, a `serialize` argument).
The model fixes them without interpreting them.

The code differs from what a reader of the schema might expect, and the model follows the code:

- `ResumenFactura` writes 13 totals (`XmlBuilder.EmittedTotals`), not the full set
  of 22 the summary carries. `TotalServExonerado`, `TotalServNoSujeto`,
  `TotalServOtros`, `TotalMercanciasExoneradas`, `TotalMercanciasNoSujeto`,
  `TotalMercanciasOtros`, `TotalNoSujeto`, `TotalOtros` and `TotalIVADevuelto` are
  never written.
- A wrong PKCS#12 password is not turned into a `CertificateError`. The library's
  own `ValueError` propagates; it is modelled as `Signing.Pkcs12Rejected`.
- Base64 certificate text is not auto-detected. A `str` argument is always decoded
  as strict base64, and `bytes` are always taken as the container.

## Model

| member | source | states |
|---|---|---|
| Models.SaleConditionFromCode | fe_cr/models.py:12-20 | a code looks up the condition carrying that code; only 01–05 and 99 are known |
| Models.PaymentMethodFromCode | fe_cr/models.py:23-32 | a code looks up the method carrying that code; only 01–06 and 99 are known |
| Models.SaleConditionCodes | fe_cr/models.py:12-20 | every sale-condition code has two digits, reads back as its own condition, and no two conditions share a code |
| Models.PaymentMethodCodes | fe_cr/models.py:23-32 | every payment-method code has two digits, reads back as its own method, and no two methods share a code |
| Models.PaymentCatalogSorted | fe_cr/models.py:23-32 | the catalogue lists every payment method, in declaration order |
| Models.RankIsCodeOrder | fe_cr/models.py:23-32 | declaration order is string order of the codes |
| Models.MakeSummary | fe_cr/models.py:142-168 | a total given by keyword keeps its value; every other total defaults to zero |
| Models.SortedMediosPago | fe_cr/models.py:196-197 | the result holds exactly the invoice's methods, each once, in strictly increasing code order; it is empty exactly when the input is, and never longer than it |
| Validation.Ensure | fe_cr/validation.py:18-20 | passes exactly when the predicate holds; otherwise fails with the given message and field |
| Validation.ValidateIdentificationIff | fe_cr/validation.py:23-29 | passes exactly when the type is 01–04 and the number is 9–20 ASCII letters or digits; a failure names the caller's field; type 05 fails on the type |
| Validation.ValidateMediosPago | fe_cr/validation.py:32-33 | passes exactly when at least one method is given; a failure names `MedioPago` |
| Validation.ValidateInvoiceLine | fe_cr/validation.py:36-46 | a line passes exactly when every line rule holds (the optional base and tax are checked only when present) |
| Validation.NonPositiveLineNumberFirst | fe_cr/validation.py:36-37 | a line number that is not positive is reported first, on `NumeroLinea` |
| Validation.TarifaOutOfRangeFails | fe_cr/validation.py:36-46 | a tax rate above 100 is reported on `Impuesto/Tarifa` once the earlier checks hold |
| Validation.LinesOutcomeIff | fe_cr/validation.py:62-66 | the line loop passes exactly when every line is valid and no line number repeats |
| Validation.LinesOutcomeKeepsFirstFailure | fe_cr/validation.py:62-66 | once a prefix of the lines fails, the loop fails with that same error |
| Validation.DuplicateNumberFails | fe_cr/validation.py:62-66 | valid lines that repeat a number fail with the duplicate-number error |
| Validation.AllValidLinesFailOnlyOnRepeat | fe_cr/validation.py:62-66 | when every line is valid, the only possible failure is a duplicate number |
| Validation.InvoiceCheckIff | fe_cr/validation.py:49-71 | `validate_invoice` passes exactly when every invoice rule holds |
| Validation.InvoiceCheckEarliest | fe_cr/validation.py:49-71 | a failing invoice is reported on its earliest failing rule, all earlier rules having passed |
| Validation.ClaveCheckedFirst | fe_cr/validation.py:50 | a key that is not exactly 50 digits is the first error, on `Clave` |
| Validation.ConsecutivoCheckedSecond | fe_cr/validation.py:50-51 | with a valid key, a consecutive that is not exactly 20 digits is the error |
| Validation.ReceptorWithoutIdentificationNeverFails | fe_cr/validation.py:55-56 | a receiver without identification is checked exactly as no receiver |
| Validation.EmptyMediosPagoFails | fe_cr/validation.py:50-60 | with no payment method, once the earlier checks pass, the error is `MedioPago` |
| Validation.ValidateLines | fe_cr/validation.py:62-66 | the loop with its set of seen numbers computes the line-loop outcome |
| Validation.ValidateInvoice | fe_cr/validation.py:49-71 | the checks in source order give `InvoiceCheck`, the first failure returned |
| DecimalText.QuantizeIsHalfUp | fe_cr/xml_builder.py:25-28 | the quantized value is within half a unit of the last place of the input, and keeps its sign |
| DecimalText.QuantizeTieAwayFromZero | fe_cr/xml_builder.py:28 | a value exactly halfway rounds away from zero |
| DecimalText.QuantizeExact | fe_cr/xml_builder.py:28 | a value with at most `places` decimals is unchanged |
| DecimalText.StripTrailingZeros | fe_cr/xml_builder.py:30 | the result is a prefix of the input, drops only zeros, and does not end in `0` |
| DecimalText.FractionDigitsShape | fe_cr/xml_builder.py:30 | a normalised non-zero fraction has 1 to `places` digits and no trailing zero |
| DecimalText.DecimalTextDenotes | fe_cr/xml_builder.py:25-30 | reading the text back as a decimal gives the value rounded half-up to `places` |
| DecimalText.DecimalTextNormalised | fe_cr/xml_builder.py:25-30 | the text has a `.` exactly when the rounded value is not whole; then at most `places` digits follow it and the text does not end in `0` |
| DecimalText.DecimalTextShape | fe_cr/xml_builder.py:25-30 | the text holds only digits and `.`, plus a leading `-` exactly for negative values, so never an exponent; unsigned, it is the text of the rounded magnitude |
| DecimalText.DecimalTextWholeExamples | fe_cr/xml_builder.py:30 | whole amounts are written without a point (`13`, `113`) |
| DecimalText.DecimalTextTieExamples | fe_cr/xml_builder.py:28 | ties at the fifth place round away from zero |
| DecimalText.DecimalTextNegativeZero | fe_cr/xml_builder.py:28-30 | a tiny negative rounds to `-0`: the sign survives quantize and normalize |
| DecimalText.DateTimeTextLayout | fe_cr/xml_builder.py:39-40 | `isoformat(timespec="seconds")`: `YYYY-MM-DDTHH:MM:SS`, plus `±HH:MM` for an aware value, each field zero-padded |
| Xml.Element.SubText | fe_cr/xml_builder.py:33-36 | `_text` appends one leaf with the given text and changes nothing else |
| XmlBuilder.AppendPhone | fe_cr/xml_builder.py:43-46 | appends one phone block: country code, then number |
| XmlBuilder.AppendLocation | fe_cr/xml_builder.py:49-57 | appends one `Ubicacion`: province, canton, district, then neighbourhood and other details only when truthy |
| XmlBuilder.AppendOtherCharge | fe_cr/xml_builder.py:60-66 | appends one charge block with its five fields in order |
| XmlBuilder.AppendExoneration | fe_cr/xml_builder.py:78-85 | appends one `Exoneracion` with its six fields in order |
| XmlBuilder.AppendTax | fe_cr/xml_builder.py:69-85 | appends one `Impuesto`: code, rate code if truthy, rate, amount, VAT factor and exoneration if present |
| XmlBuilder.ComputeLineTotal | fe_cr/xml_builder.py:114-122 | the running total is the subtotal plus the net tax (else the tax amount), minus the discount, plus every line charge |
| XmlBuilder.AppendLine | fe_cr/xml_builder.py:88-123 | appends one `LineaDetalle` whose children are `LineChildren` of the line |
| XmlBuilder.AppendLines | fe_cr/xml_builder.py:191-192 | appends one `LineaDetalle` per line, in order |
| XmlBuilder.AppendPayment | fe_cr/xml_builder.py:126-128 | appends one `MedioPago` per method given, in order, each carrying its code |
| XmlBuilder.AppendEmisor | fe_cr/xml_builder.py:148-162 | appends the issuer block: name, identification, then the optional fields when truthy |
| XmlBuilder.AppendReceptor | fe_cr/xml_builder.py:165-182 | appends the receiver block: name, identification and foreign id when truthy, then the optional fields |
| XmlBuilder.AppendSummary | fe_cr/xml_builder.py:194-210 | appends `ResumenFactura`: currency, rate when present, then the 13 totals in order |
| XmlBuilder.AppendReferences | fe_cr/xml_builder.py:219-225 | appends one `Referencia` per reference, in order, with its five fields |
| XmlBuilder.InvoiceToXml | fe_cr/xml_builder.py:131-227 | builds exactly when `BuildXml` does, a fresh element equal to its document; otherwise returns its error |
| XmlBuilder.RenderInvoice | fe_cr/xml_builder.py:230-233 | renders exactly when the document builds and every text in it is a string; the text is the serialised document; otherwise the build error, or a serialisation error naming the first integer text in document order |
| XmlLayout.BuildXmlGate | fe_cr/xml_builder.py:131-133 | with validation, a document is built exactly when the invoice passes, and the validator's first error is raised otherwise |
| XmlLayout.RootLayout | fe_cr/xml_builder.py:143-225 | the root's children are, in order: the header, `Emisor`, `Receptor` if present, `CondicionVenta`, `PlazoCredito` if truthy, the `MedioPago`s, `DetalleServicio`, `ResumenFactura`, then `OtrosCargos` and `InformacionReferencia` only when non-empty |
| XmlLayout.PaymentElements | fe_cr/xml_builder.py:126-128 | the root's `MedioPago` elements are exactly those of the sorted distinct methods |
| XmlLayout.MedioPagoElements | fe_cr/xml_builder.py:188 | one `MedioPago` per distinct method of the invoice, in strictly increasing code order; none exactly when the invoice has none |
| XmlLayout.DetailElements | fe_cr/xml_builder.py:190-192 | the root holds exactly one `DetalleServicio`, whose children are the lines' elements in order |
| XmlLayout.LineLayout | fe_cr/xml_builder.py:88-123 | a line's children come in schema order, with each optional one present exactly when its value is |
| XmlLayout.LineTotalReadsBack | fe_cr/xml_builder.py:114-123 | `MontoTotalLinea` holds the recomputed total and reads back as it, rounded to five places |
| XmlLayout.ChargesSumAppend | fe_cr/xml_builder.py:121-122 | the charge sum splits over any division of the charges |
| XmlLayout.SummaryTotalsWritten | fe_cr/xml_builder.py:198-210 | the 13 written totals are the summary's values, in order, each under its own element |
| XmlLayout.SummaryHead | fe_cr/xml_builder.py:194-197 | `CodigoMoneda` carries the currency; `TipoCambio` appears exactly when there is a rate, and carries it |
| XmlLayout.HeaderReadsBack | fe_cr/xml_builder.py:143-146 | key, consecutive and issue moment read back from the root as the invoice gives them |
| XmlLayout.CondicionReadsBack | fe_cr/xml_builder.py:184 | the sale condition reads back as its catalogue code |
| XmlLayout.ValidatedHeader | fe_cr/xml_builder.py:131-184 | a validated document's key has 50 digits and its consecutive 20; the key and the sale condition's code read back |
| Signing.LoadPkcs12 | fe_cr/signing.py:19-31 | a container the library refuses gives `Pkcs12Rejected`; a missing key or certificate gives a `CertificateError`; otherwise the key, the certificate and the chain (empty when absent) |
| Signing.NonBase64Refused | fe_cr/signing.py:61-65 | certificate text with a character outside the base64 alphabet is a `CertificateError`, whatever the XML and password |
| Signing.SplitLines | fe_cr/signing.py:184 | no line holds a line break |
| Signing.BodyLineIsStripTest | fe_cr/signing.py:185 | a line is kept exactly when it is not armour and `strip()` leaves something |
| Signing.PemBody | fe_cr/signing.py:183-186 | the stripped body holds no line break |
| Signing.PemBodyOfArmoured | fe_cr/signing.py:183-186 | stripping armoured PEM gives back its base64 lines joined, in order |
| Signing.BuildSignedInfo | fe_cr/signing.py:110-142 | builds `SignedInfo` child by child, with the document's digest in `DigestValue` |
| Signing.AppendCertificates | fe_cr/signing.py:162-165 | appends one `X509Certificate` per chain certificate, in order |
| Signing.BuildKeyInfo | fe_cr/signing.py:154-165 | builds `KeyInfo`: the key name, then `X509Data` |
| Signing.SignEnveloped | fe_cr/signing.py:90-168 | appends the signature as the root's last child and leaves the earlier children as they were |
| Signing.SignXmlWithP12 | fe_cr/signing.py:38-87 | computes `SignedXml`: decode and load the certificate, then parse, sign and serialise |
| SignatureCheck.TransformUndoesAttach | fe_cr/signing.py:167 | the enveloped-signature transform of the signed document is the unsigned document |
| SignatureCheck.SignatureParts | fe_cr/signing.py:108-165 | a verifier finds `SignedInfo`, its `Reference`, `SignatureValue` and `KeyInfo` where the signature puts them |
| SignatureCheck.SignatureChecks | fe_cr/signing.py:141-152 | the written digest equals the digest over the transformed signed document; the signature value is over `SignedInfo` as it stands |
| SignatureCheck.SignedInfoAlgorithms | fe_cr/signing.py:110-139 | exclusive C14N and RSA-SHA256; the reference covers the whole document with enveloped-signature then exclusive C14N, digested with SHA-256 |
| SignatureCheck.AlgorithmsNamed | fe_cr/signing.py:110-139 | the attached signature names those algorithms |
| SignatureCheck.X509DataTexts | fe_cr/signing.py:158-165 | `X509Data` holds the signing certificate's PEM body, then each chain certificate's, in order |
| SignatureCheck.KeyInfoCarried | fe_cr/signing.py:154-165 | `KeyInfo` names the key and carries the certificates in order |
| SignatureCheck.SignOutcome | fe_cr/signing.py:38-87 | signing succeeds exactly when the certificate decodes and loads and the XML parses; certificate errors come first; the output is the document with the signature appended last |
| HaciendaClient.ResolveEnvironment | fe_cr/hacienda_api.py:16-22 | a name is accepted exactly when its lower-case form is a known environment; the error names the rejected name |
| HaciendaClient.EnvironmentNames | fe_cr/hacienda_api.py:16-22 | `production` and `prod` select production; `testing`, `test` and `sandbox` select the sandbox, in any case; any other name is refused |
| HaciendaClient.HaciendaApi.Create | fe_cr/hacienda_api.py:77-83 | a client exists exactly when the environment resolves; it starts with that base URL and no token |
| HaciendaClient.ReplyData | fe_cr/hacienda_api.py:168-171 | the reply's JSON, or `{"raw": text}` when the body is not JSON |
| HaciendaClient.ProcessResponse | fe_cr/hacienda_api.py:166-179 | fails exactly when the status is 400 or more, carrying status and data; otherwise returns the data |
| HaciendaClient.AuthOutcomeIff | fe_cr/hacienda_api.py:88-102 | a token is obtained exactly when the status is below 400, the reply is an object and its `token` is truthy; that value, of any JSON type, is the token; a status of 400 or more is a response error, and a reply without a truthy token is refused with its status and data |
| HaciendaClient.HaciendaApi.Authenticate | fe_cr/hacienda_api.py:88-102 | posts the credentials to `/auth`; the outcome is `AuthOutcome` of the reply; on success the stored token becomes the reply's `token` value as it came (an integer is kept as an integer), otherwise it is unchanged |
| HaciendaClient.HaciendaApi.SetToken | fe_cr/hacienda_api.py:104-107 | the token becomes the string given |
| HaciendaClient.AuthHeaders | fe_cr/hacienda_api.py:163-164 | the only header is `Authorization`, whose text is `Bearer ` followed by `str()` of the token |
| HaciendaClient.TokenSpelling | fe_cr/hacienda_api.py:163-164 | a string token is sent as itself; an integer token as its decimal digits, with `-` when negative |
| HaciendaClient.IntegerTokenAccepted | fe_cr/hacienda_api.py:98-102 | the reply `{"token": 123}` is accepted with the integer 123 as its token, and requests bearing it carry `Bearer 123` |
| HaciendaClient.IdentificationPayload | fe_cr/hacienda_api.py:182-186 | the JSON identification reads back as the identification |
| HaciendaClient.FormatDateTime | fe_cr/hacienda_api.py:189-194 | only a `datetime` is formatted, to the text the document writes; a date fails on `FechaEmision` |
| HaciendaClient.XmlContent | fe_cr/hacienda_api.py:124-125 | a supplied XML is used as given (text as UTF-8); otherwise the validated rendering, or its error |
| HaciendaClient.PayloadReadsBack | fe_cr/hacienda_api.py:127-137 | a body is built exactly when the issue moment is a `datetime`; it holds the four required keys plus `receptor` and `consecutivoReceptor` just when they apply, and reads back as the invoice's key, moment, parties and XML |
| HaciendaClient.SubmitRequestIff | fe_cr/hacienda_api.py:112-145 | nothing is sent without a token, a renderable XML and a `datetime` issue moment; otherwise a POST to `/recepcion` bearing the token and the body |
| HaciendaClient.SubmissionMatchesDocument | fe_cr/hacienda_api.py:124-131 | when the client renders the invoice, the submitted key and date are the document's `Clave` and `FechaEmision` texts, and the XML is the document's base64 |
| HaciendaClient.FetchRequest | fe_cr/hacienda_api.py:147-157 | a request is made exactly when there is a truthy token: a GET of `<base>/recepcion/<clave>` bearing it |
| HaciendaClient.EncodeXml | fe_cr/hacienda_api.py:124-125 | computes `XmlContent` |
| HaciendaClient.BuildPayload | fe_cr/hacienda_api.py:127-137 | grows the body dictionary member by member to `Payload` |
| HaciendaClient.HaciendaApi.SubmitInvoice | fe_cr/hacienda_api.py:112-145 | when the request is refused, nothing is logged; otherwise exactly that request is logged and the reply is classified |
| HaciendaClient.HaciendaApi.FetchStatus | fe_cr/hacienda_api.py:147-158 | without a token nothing is logged; otherwise the GET is logged and the reply is classified |
| OdooMove.DateDigits | odoo_addons/fe_cr_einvoice/models/account_move.py:249-250 | `%d%m%y` is six digits: day, month, and the year modulo 100 |
| OdooMove.SecurityCode | odoo_addons/fe_cr_einvoice/models/account_move.py:253 | eight digits denoting the id modulo 10^8 |
| OdooMove.GenerateKey | odoo_addons/fe_cr_einvoice/models/account_move.py:248-255 | the key has 50 characters exactly when the identification fits 12 and the consecutive fits 20 |
| OdooMove.KeyLayout | odoo_addons/fe_cr_einvoice/models/account_move.py:248-255 | the key is 50 digits exactly when both embedded parts fit and are digits; where each part sits |
| OdooMove.JournalPrefix | odoo_addons/fe_cr_einvoice/models/account_move.py:258 | the branch is always three characters |
| OdooMove.JournalPrefixOfCode | odoo_addons/fe_cr_einvoice/models/account_move.py:258 | the branch is the first three characters of the journal code padded on the left with `0`, `001` without a code, and all digits exactly when that head of the code is |
| OdooMove.GenerateConsecutive | odoo_addons/fe_cr_einvoice/models/account_move.py:257-261 | its length is 8 plus the width of the zero-filled id |
| OdooMove.ConsecutiveLength | odoo_addons/fe_cr_einvoice/models/account_move.py:257-261 | 18 characters for every id below 10^10; 20 digits only for a twelve-digit id |
| OdooMove.PaymentMethodsOf | odoo_addons/fe_cr_einvoice/models/account_move.py:237-246 | the parse never returns an empty list |
| OdooMove.ParsePaymentMethods | odoo_addons/fe_cr_einvoice/models/account_move.py:237-246 | the loop with `continue` computes `PaymentMethodsOf` |
| OdooMove.KnownMethodsNamed | odoo_addons/fe_cr_einvoice/models/account_move.py:240-245 | every method returned was named by some entry |
| OdooMove.KnownMethodsKeep | odoo_addons/fe_cr_einvoice/models/account_move.py:240-245 | every entry naming a method contributes it |
| OdooMove.PaymentMethodsRoundTrip | odoo_addons/fe_cr_einvoice/models/account_move.py:237-246 | writing a non-empty list as comma-separated codes and parsing it gives the same list, order and duplicates included |
| OdooMove.PaymentMethodsUnset | odoo_addons/fe_cr_einvoice/models/account_move.py:238 | an unset field gives cash alone |
| OdooMove.MissingLabelsIff | odoo_addons/fe_cr_einvoice/models/account_move.py:85-95 | a label is reported exactly when its field is required and unset |
| OdooMove.MissingLabelsEmpty | odoo_addons/fe_cr_einvoice/models/account_move.py:93-96 | nothing is reported exactly when every required field is set |
| OdooMove.CollectMissing | odoo_addons/fe_cr_einvoice/models/account_move.py:84-95 | the loop collects the labels of the unset fields in declaration order |
| OdooMove.MoveConfigError | odoo_addons/fe_cr_einvoice/models/account_move.py:81-105 | no error exactly when every field is set and there is a customer; missing data is reported first, naming exactly the unset fields; then a missing customer |
| OdooMove.ConfigurationOfIff | odoo_addons/fe_cr_einvoice/models/account_move.py:81-105 | over several moves, the check passes exactly when each move passes, and otherwise reports the earliest failing move |
| OdooMove.EnsureCrConfiguration | odoo_addons/fe_cr_einvoice/models/account_move.py:81-105 | the loop over the moves computes `ConfigurationOf` |
| OdooMove.LineTax | odoo_addons/fe_cr_einvoice/models/account_move.py:152-162 | a tax exactly when the line has one: the first tax's rate, the total minus the subtotal, and code `01` by default |
| OdooMove.UnitOf | odoo_addons/fe_cr_einvoice/models/account_move.py:176 | the unit is never empty |
| OdooMove.LineFor | odoo_addons/fe_cr_einvoice/models/account_move.py:152-185 | the detail line carries the number, the tax, the net tax (zero without tax), and a discount exactly when the line has one |
| OdooMove.BuildDetail | odoo_addons/fe_cr_einvoice/models/account_move.py:147-185 | the loop computes `DetailOf` |
| OdooMove.ProductLinesIff | odoo_addons/fe_cr_einvoice/models/account_move.py:148-149 | a line is in the detail exactly when it is neither a section nor a note |
| OdooMove.DetailNumbering | odoo_addons/fe_cr_einvoice/models/account_move.py:148-151 | the detail lines are numbered 1..n in order, so their numbers are positive and distinct |
| OdooMove.DetailPasses | odoo_addons/fe_cr_einvoice/models/account_move.py:147-185 | the validator's line loop passes the detail exactly when every product line has acceptable values |
| OdooMove.TaxedSubtotalIgnoresUntaxed | odoo_addons/fe_cr_einvoice/models/account_move.py:200-204 | lines without tax add nothing to the taxed subtotal |
| OdooMove.ExchangeRate | odoo_addons/fe_cr_einvoice/models/account_move.py:187-195 | a rate exactly when the currency is set and is not the company's |
| OdooMove.SummaryTotals | odoo_addons/fe_cr_einvoice/models/account_move.py:197-210 | which total takes which amount; every other total is zero |
| OdooMove.EmisorFallbacks | odoo_addons/fe_cr_einvoice/models/account_move.py:112-133 | the issuer's fields and their fallbacks: trade name, phone only when there is a number (country code 506 by default), e-mail |
| OdooMove.ReceptorIdentification | odoo_addons/fe_cr_einvoice/models/account_move.py:135-145 | identified exactly when the customer has a VAT or reference number; the number is the first set, so the nine-zero fallback is never used |
| OdooMove.SaleConditionRoundTrip | odoo_addons/fe_cr_einvoice/models/account_move.py:215-218 | a stored code reads back as its condition; anything else is cash |
| OdooMove.CreditTerm | odoo_addons/fe_cr_einvoice/models/account_move.py:228 | a term exactly when the days are not zero, and then it is the integer day count itself (the field is an `Integer`, line 43), which the builder writes as `PlazoCredito` exactly then |
| OdooMove.CreditDaysNotSerialised | odoo_addons/fe_cr_einvoice/models/account_move.py:228 | with a non-zero day count the prepared invoice (even given a date and time) never renders; when it passes validation the document holds the integer as `PlazoCredito` text and serialisation fails on it |
| XmlLayout.IntCreditTermRefused | fe_cr/xml_builder.py:185-186 | an integer credit term that is truthy is stored as element text unconverted, so rendering fails with the serialisation error naming it |
| OdooMove.CorrectedCreditTermWritten | odoo_addons/fe_cr_einvoice/models/account_move.py:228 | corrected credit term `str(days)`: present exactly when the code's term is, leaves no integer text, and `PlazoCredito` reads back as the day count (with `-` when negative) |
| OdooMove.InvoiceHeader | odoo_addons/fe_cr_einvoice/models/account_move.py:212-224 | stored key and consecutive are kept, missing ones generated, neither empty; the issue moment is the move's date |
| OdooMove.KeysStable | odoo_addons/fe_cr_einvoice/models/account_move.py:212-234 | once written back, preparing again on any day gives the same key and consecutive |
| OdooMove.DocumentName | odoo_addons/fe_cr_einvoice/models/account_move.py:72 | the file name ends in `.xml` |
| OdooMove.Move.PrepareInvoice | odoo_addons/fe_cr_einvoice/models/account_move.py:107-235 | returns `InvoiceFor` of the old record and writes the key and consecutive it used back onto the record |
| OdooMove.Move.GenerateCrXml | odoo_addons/fe_cr_einvoice/models/account_move.py:67-79 | result, key, consecutive and state after the action are `GenerateOutcome`; a failure leaves the record as it was |
| OdooMove.PreparedInvoiceRejected | odoo_addons/fe_cr_einvoice/models/account_move.py:224 | every prepared invoice fails the issue-moment rule, so it never renders |
| OdooMove.GenerateNeverSucceeds | odoo_addons/fe_cr_einvoice/models/account_move.py:67-79 | generation never succeeds; a configured move fails on rendering with the validator's error, and the record keeps its values |
| OdooMove.KeyMissesConsecutive | odoo_addons/fe_cr_einvoice/models/account_move.py:212-213 | with neither value stored, the key embeds the padded id, not the 18-character consecutive |
| OdooMove.ConsecutiveV44 | odoo_addons/fe_cr_einvoice/models/account_move.py:257-261 | corrected consecutive: branch, terminal, document type and sequence; length 10 plus the sequence width |
| OdooMove.ConsecutiveV44Accepted | odoo_addons/fe_cr_einvoice/models/account_move.py:257-261 | the corrected consecutive is 20 digits exactly when the id is below 10^10 and the branch is digits |
| OdooMove.CorrectedInvoiceFor | odoo_addons/fe_cr_einvoice/models/account_move.py:212-228 | corrected preparation: the issue moment is the date and time given, and the credit term is the text of the day count |
| OdooMove.CorrectedHeaderPasses | odoo_addons/fe_cr_einvoice/models/account_move.py:212-224 | for a fresh move that fits its fields, the corrected invoice passes the key, consecutive and issue-moment rules, and its key embeds its consecutive |

## Left out

- Cryptography, canonicalisation, base64, PKCS#12 and X.509 decoding, and lxml parsing and serialisation are library code. They are function-typed parameters (`Signing.Primitives`, `HaciendaClient.Codecs`) and are not interpreted.
- HTTP transport (`_UrllibSession`, `_HTTPResponse`, timeouts, JSON text encoding and decoding) is not modelled. The session is a class that logs requests and returns the reply it holds; a reply carries its decoded JSON, or none where decoding raises.
- `HaciendaClient.HaciendaApi.Create`: the default urllib session when none is given is not modelled; a session is always passed.
- Floats given to `_decimal_to_text` are not modelled: every amount is an exact decimal. The decimal context's precision and overflow limits are not modelled either.
- Exceptions are modelled as `Result` and `Outcome` values. The error messages appear as datatype constructors, with their wording in `Validation.Message.Text`.
- Sub-elements the source fills after attaching them to the tree are built first and then attached complete. The final tree is the same, but aliasing of a half-built child is not modelled.
- `XmlBuilder.InvoiceToXml` checks the issue-moment type and the sale-condition type before it builds. The source raises halfway through building, and the half-built root is discarded, so the result is the same.
- Odoo's ORM (recordsets, `ensure_one`, translations with `_()`, `fields.Date.context_today`, the currency conversion call) is not modelled. Those values are inputs of `OdooMove.MoveData`, and today's date is a parameter.
- `fe.cr.document.create_from_invoice` is not modelled (it is not part of this model). `OdooMove.Move.GenerateCrXml` returns the file name and the XML it would store.
- `OdooMove.LineFor` and `OdooMove.LineTax`: Odoo's float fields and the float arithmetic done on them before `Decimal(str(...))` are taken as exact values. In particular the tax amount `price_total - price_subtotal` (account_move.py:160) and the discount rate `discount / 100.0` (account_move.py:166) are exact here, while the code computes them in binary floating point and keeps `str()`'s shortest decimal form.
- `Signing.SignXmlWithP12`: the parser parameter yields only trees over the model's fixed set of invoice and signature tags. Arbitrary XML, comments, processing instructions and tail text are not represented, so signing is modelled only for invoice-shaped documents.
- `OdooMove.Move.GenerateCrXml`: models one move. Over a recordset of several moves, a failure on a later move also rolls back the key and consecutive written on earlier moves in the same transaction; that is not modelled.
- Decimal `NaN` and `Infinity` have no `real` counterpart and are not modelled. JSON floats are exact reals, and `str()` of a JSON float, list or object is the `HaciendaClient.Codecs.show` parameter.
- `OdooMove.Move.PrepareInvoice` and `OdooMove.Move.GenerateCrXml` follow the code as written. The corrected preparation is `OdooMove.CorrectedInvoiceFor` (see Findings).
- `Models.IterDetalle` is the identity on the detail lines. It is used by the builder and the validator and needs no contract of its own.
- The timezone of an aware `datetime` is reduced to its UTC offset in minutes.

## Findings

| source | as written | input that shows it | evidently intended | confidence | as-written member | corrected member |
|---|---|---|---|---|---|---|
| odoo_addons/fe_cr_einvoice/models/account_move.py:257-261 | the generated consecutive is branch (3) + terminal (5) + id zero-filled to 10, which is 18 characters | a move with id 7 and journal code `001` gets `001000010000000007`, which the 20-digit rule at fe_cr/validation.py:51 rejects | a 20-digit consecutive: branch, terminal, document type `01`, 10-digit sequence | high; not executed | OdooMove.ConsecutiveLength | OdooMove.ConsecutiveV44Accepted |
| odoo_addons/fe_cr_einvoice/models/account_move.py:212-213 | the key is generated before the consecutive, so with neither stored the key embeds `str(id).zfill(20)` | a fresh move with id 7: key characters 21–40 are `00000000000000000007`, the consecutive is `001000010000000007` | the key embeds the document's own consecutive | high; not executed | OdooMove.KeyMissesConsecutive | OdooMove.CorrectedHeaderPasses |
| odoo_addons/fe_cr_einvoice/models/account_move.py:224 | `fecha_emision` is the move's `invoice_date` (or today), a `date`, and fe_cr/validation.py:52 requires a `datetime` | any configured move: `action_generate_cr_xml` raises "Fecha de emisión inválida" | the issue moment is a date and time | high; not executed | OdooMove.GenerateNeverSucceeds | OdooMove.CorrectedInvoiceFor |
| odoo_addons/fe_cr_einvoice/models/account_move.py:228 | `plazo_credito` is the `Integer` field `cr_credit_days` itself, and fe_cr/xml_builder.py:186 stores it as element text unconverted | a move with `cr_credit_days = 30` and an issue moment that is a `datetime`: `tostring` raises "cannot serialize 30 (type int)" | the credit term written as `str(days)` | high; not executed | OdooMove.CreditDaysNotSerialised | OdooMove.CorrectedCreditTermWritten |
