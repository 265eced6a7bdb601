/** `models/account_move.py` of the two Odoo add-ons (they ship the same file): how
    an Odoo invoice becomes an `ElectronicInvoice`. The record's fields are the
    inputs; the helpers that build the key and the consecutive number, parse the
    payment methods, check the company configuration and number the detail lines
    are modelled as the source writes them, and the invoice preparation writes the
    key and consecutive it used back onto the record. */
module OdooMove {
  import opened Wrappers
  import opened Text
  import opened Models
  import opened DecimalText
  import V = Validation
  import X = Xml
  import XB = XmlBuilder
  import XL = XmlLayout

  // ---------------------------------------------------------------------------
  // Digit strings
  // ---------------------------------------------------------------------------

  lemma {:induction false} DigitsValueAppend(a: string, b: string)
    requires IsDigits(a) && IsDigits(b)
    ensures IsDigits(a + b) && DigitsValue(a + b) == DigitsValue(a) * Pow10(|b|) + DigitsValue(b)
    decreases |b|
  {
    if b != [] {
      var init, last := b[..|b| - 1], b[|b| - 1];
      assert b == init + [last];
      assert a + b == (a + init) + [last];
      DigitsValueAppend(a, init);
      DigitsValueSnoc(a + init, last);
      DigitsValueSnoc(init, last);
      var va, vi, p := DigitsValue(a), DigitsValue(init), Pow10(|init|);
      ShiftedAppend(va, vi, p, DigitValue(last));
    } else {
      assert a + b == a;
    }
  }

  lemma ShiftedAppend(va: nat, vi: nat, p: nat, d: nat)
    ensures 10 * (va * p + vi) + d == va * (10 * p) + (10 * vi + d)
  {
  }

  lemma {:induction false} DigitsValueBound(s: string)
    requires IsDigits(s)
    ensures DigitsValue(s) < Pow10(|s|)
  {
    if s != [] {
      DigitsValueBound(s[..|s| - 1]);
    }
  }

  /** The last `k` digits of a digit string denote its value modulo `10^k`. */
  lemma DigitsSuffixValue(s: string, k: nat)
    requires IsDigits(s) && k <= |s|
    ensures IsDigits(s[|s| - k..]) && DigitsValue(s[|s| - k..]) == DigitsValue(s) % Pow10(k)
  {
    var head, tail := s[..|s| - k], s[|s| - k..];
    assert s == head + tail;
    DigitsValueAppend(head, tail);
    DigitsValueBound(tail);
    ModOfShifted(DigitsValue(head), Pow10(k), DigitsValue(tail));
  }

  lemma ModOfShifted(q: nat, m: nat, r: nat)
    requires 0 <= r < m
    ensures (q * m + r) % m == r
  {
    var x := q * m + r;
    var k := q - x / m;
    assert x == m * (x / m) + x % m;
    assert x % m == r + m * k;
    if k >= 1 {
      MulAtLeast(m, k);
    } else if k <= -1 {
      MulAtLeast(m, -k);
    }
  }

  lemma MulAtLeast(m: nat, k: int)
    requires k >= 1
    ensures m * k >= m && m * -k <= -(m as int)
  {
    assert m * k == m + m * (k - 1);
  }

  /** Zero-filling keeps a string all digits exactly when it was all digits. */
  lemma ZFillDigitsIff(s: string, width: nat)
    ensures IsDigits(ZFill(s, width)) <==> IsDigits(s)
  {
    var r := ZFill(s, width);
    if |s| < width && !IsDigits(s) {
      var i :| 0 <= i < |s| && !IsDigit(s[i]);
      if |s| > 0 && (s[0] == '+' || s[0] == '-') {
        assert r[0] == s[0];
      } else {
        assert r[width - |s| + i] == s[i];
      }
    }
  }

  // ---------------------------------------------------------------------------
  // The key (`_generate_cr_key`)
  // ---------------------------------------------------------------------------

  /** `date.strftime("%d%m%y")`: day, month and the last two digits of the year, each
      as two digits. */
  function DateDigits(d: CalendarDate): (r: string)
    ensures IsDigitString(r, 6)
    ensures DigitsValue(r[..2]) == d.day && DigitsValue(r[2..4]) == d.month && DigitsValue(r[4..]) == d.year % 100
  {
    PaddedDigits(d.day, 2);
    PaddedDigits(d.month, 2);
    PaddedDigits(d.year % 100, 2);
    var r := Padded(d.day, 2) + Padded(d.month, 2) + Padded(d.year % 100, 2);
    assert r[..2] == Padded(d.day, 2) && r[2..4] == Padded(d.month, 2) && r[4..] == Padded(d.year % 100, 2);
    r
  }

  const DefaultIdentification := "000000000"

  /** The issuer identification the key embeds: the company's, or nine zeros. */
  function KeyIdentifier(companyIdNumber: Option<string>): string
  {
    if Truthy(companyIdNumber) then companyIdNumber.value else DefaultIdentification
  }

  /** The consecutive the key embeds: the one stored on the record, or `str(id)`. */
  function KeyConsecutive(stored: Option<string>, id: nat): string
  {
    if Truthy(stored) then stored.value else NatToString(id)
  }

  /** `f"{id:08d}"[-8:]`: the last eight digits of the id, zero-padded. */
  function SecurityCode(id: nat): (r: string)
    ensures IsDigitString(r, 8) && DigitsValue(r) == id % Pow10(8)
  {
    var padded := ZFill(NatToString(id), 8);
    DigitsSuffixValue(padded, 8);
    padded[|padded| - 8..]
  }

  /** `_generate_cr_key`: "506", the date, the identification zero-filled to 12, the
      consecutive zero-filled to 20, the security code and the situation "1".
      `zfill` never shortens, so the key has 50 characters only when neither part is
      too long. */
  function GenerateKey(date: CalendarDate, companyIdNumber: Option<string>, storedConsecutive: Option<string>,
                       id: nat): (r: string)
    ensures |r| == 50 <==>
      |KeyIdentifier(companyIdNumber)| <= 12 && |KeyConsecutive(storedConsecutive, id)| <= 20
  {
    "506" + DateDigits(date) + ZFill(KeyIdentifier(companyIdNumber), 12)
    + ZFill(KeyConsecutive(storedConsecutive, id), 20) + SecurityCode(id) + "1"
  }

  /** A concatenation is all digits exactly when both halves are. */
  lemma ConcatDigits(a: string, b: string)
    ensures IsDigits(a + b) <==> IsDigits(a) && IsDigits(b)
  {
    if IsDigits(a + b) {
      forall i | 0 <= i < |b| ensures IsDigit(b[i]) { assert (a + b)[|a| + i] == b[i]; }
      forall i | 0 <= i < |a| ensures IsDigit(a[i]) { assert (a + b)[i] == a[i]; }
    }
  }

  /** The fixed parts of the key and of the consecutive are digits. */
  lemma LiteralDigits()
    ensures IsDigits("506") && IsDigits("1") && IsDigits(Terminal)
  {
    assert "506"[0] == '5' && "506"[1] == '0' && "506"[2] == '6';
  }

  /** Six parts of the key's widths laid end to end: where each sits, and the whole
      is digits exactly when every part is. */
  lemma KeyParts(a: string, b: string, c: string, d: string, e: string, f: string)
    requires |a| == 3 && |b| == 6 && |c| == 12 && |d| == 20 && |e| == 8 && |f| == 1
    ensures var t := a + b + c + d + e + f;
      && |t| == 50 && t[..3] == a && t[3..9] == b && t[9..21] == c && t[21..41] == d && t[41..49] == e
      && t[49..] == f
      && (IsDigits(t) <==> IsDigits(a) && IsDigits(b) && IsDigits(c) && IsDigits(d) && IsDigits(e) && IsDigits(f))
  {
    ConcatDigits(a, b);
    ConcatDigits(a + b, c);
    ConcatDigits(a + b + c, d);
    ConcatDigits(a + b + c + d, e);
    ConcatDigits(a + b + c + d + e, f);
  }

  /** Where each part of a 50-character key sits, and when the key is the 50 digits
      the validator asks for: exactly when both embedded parts fit and are digits. */
  lemma KeyLayout(date: CalendarDate, companyIdNumber: Option<string>, storedConsecutive: Option<string>, id: nat)
    ensures var key, ident, cons := GenerateKey(date, companyIdNumber, storedConsecutive, id),
                                   KeyIdentifier(companyIdNumber), KeyConsecutive(storedConsecutive, id);
      && (IsDigitString(key, 50) <==> |ident| <= 12 && |cons| <= 20 && IsDigits(ident) && IsDigits(cons))
      && (|key| == 50 ==>
            && key[..3] == "506" && key[3..9] == DateDigits(date)
            && key[9..21] == ZFill(ident, 12) && key[21..41] == ZFill(cons, 20)
            && key[41..49] == SecurityCode(id) && key[49] == '1')
  {
    var ident, cons := KeyIdentifier(companyIdNumber), KeyConsecutive(storedConsecutive, id);
    var key := GenerateKey(date, companyIdNumber, storedConsecutive, id);
    ZFillDigitsIff(ident, 12);
    ZFillDigitsIff(cons, 20);
    if |ident| <= 12 && |cons| <= 20 {
      var b, c, d, e := DateDigits(date), ZFill(ident, 12), ZFill(cons, 20), SecurityCode(id);
      assert key == "506" + b + c + d + e + "1";
      LiteralDigits();
      KeyParts("506", b, c, d, e, "1");
    }
  }

  // ---------------------------------------------------------------------------
  // The consecutive number (`_generate_cr_consecutive`)
  // ---------------------------------------------------------------------------

  /** `(journal.code or "001")[:3].rjust(3, "0")` */
  function JournalPrefix(journalCode: Option<string>): (r: string)
    ensures |r| == 3
  {
    var code := if Truthy(journalCode) then journalCode.value else "001";
    RJust(if |code| <= 3 then code else code[..3], 3, '0')
  }

  /** The branch is the journal code cut to its first three characters and padded on
      the left with '0'; a missing or empty code gives "001". It is all digits exactly
      when that head of the code is. */
  lemma JournalPrefixOfCode(journalCode: Option<string>)
    ensures var code := if Truthy(journalCode) then journalCode.value else "001";
      var head := if |code| <= 3 then code else code[..3];
      var p := JournalPrefix(journalCode);
      && p[3 - |head|..] == head
      && (forall i :: 0 <= i < 3 - |head| ==> p[i] == '0')
      && (IsDigits(p) <==> IsDigits(head))
      && (!Truthy(journalCode) ==> p == "001")
  {
    var code := if Truthy(journalCode) then journalCode.value else "001";
    var head := if |code| <= 3 then code else code[..3];
    RJustDigits(head, 3);
  }

  /** Padding on the left with zeros keeps a string all digits exactly when it was. */
  lemma RJustDigits(s: string, width: nat)
    ensures IsDigits(RJust(s, width, '0')) <==> IsDigits(s)
  {
    var r := RJust(s, width, '0');
    var pad := |r| - |s|;
    if IsDigits(s) {
      forall i | 0 <= i < |r| ensures IsDigit(r[i]) {
        if i >= pad { assert r[i] == r[pad..][i - pad]; }
      }
    } else {
      var i :| 0 <= i < |s| && !IsDigit(s[i]);
      assert r[pad + i] == r[pad..][i];
    }
  }

  /** The terminal the add-on always writes. */
  const Terminal := "00001"

  /** `_generate_cr_consecutive` as written: branch, terminal, and the id zero-filled
      to ten digits. */
  function GenerateConsecutive(journalCode: Option<string>, id: nat): (r: string)
    ensures |r| == 8 + Max(10, |NatToString(id)|)
  {
    JournalPrefix(journalCode) + Terminal + ZFill(NatToString(id), 10)
  }

  /** The consecutive as written is 18 characters for every id below 10^10, and it
      passes the validator's 20-digit rule only for an id of exactly twelve digits. */
  lemma ConsecutiveLength(journalCode: Option<string>, id: nat)
    ensures id < Pow10(10) ==> |GenerateConsecutive(journalCode, id)| == 18
    ensures IsDigitString(GenerateConsecutive(journalCode, id), 20) <==>
      |NatToString(id)| == 12 && IsDigits(JournalPrefix(journalCode))
  {
    NatToStringLength(id, 10);
    var p, s := JournalPrefix(journalCode), ZFill(NatToString(id), 10);
    LiteralDigits();
    ConcatDigits(p, Terminal);
    ConcatDigits(p + Terminal, s);
  }

  // ---------------------------------------------------------------------------
  // Payment methods (`_parse_payment_methods`)
  // ---------------------------------------------------------------------------

  /** One entry of the comma-separated list: stripped, an empty entry read as "01",
      then looked up in the catalogue (`None` where the lookup raises). */
  function CodeMethod(code: string): Option<PaymentMethod>
  {
    var c := Strip(code);
    PaymentMethodFromCode(if c == "" then "01" else c)
  }

  /** The methods a list of entries names under `lookup`, in order, duplicates kept
      and unrecognised entries skipped (the loop with its `continue`). */
  function KnownMethods(codes: seq<string>, lookup: string -> Option<PaymentMethod>): (r: seq<PaymentMethod>)
    ensures |r| <= |codes|
  {
    if codes == [] then []
    else
      var init := KnownMethods(codes[..|codes| - 1], lookup);
      match lookup(codes[|codes| - 1])
      case Some(m) => init + [m]
      case None => init
  }

  /** The entries the record's field splits into; an unset field reads as "01". */
  function PaymentCodes(raw: Option<string>): seq<string>
  {
    Split(if Truthy(raw) then raw.value else "01", ',')
  }

  /** What `_parse_payment_methods` returns: the recognised methods, or cash alone when
      none is recognised. */
  function PaymentMethodsOf(raw: Option<string>): (r: seq<PaymentMethod>)
    ensures |r| >= 1
  {
    var known := KnownMethods(PaymentCodes(raw), CodeMethod);
    if known == [] then [Efectivo] else known
  }

  method ParsePaymentMethods(raw: Option<string>) returns (methods: seq<PaymentMethod>)
    ensures methods == PaymentMethodsOf(raw)
    ensures |methods| >= 1
  {
    var codes := PaymentCodes(raw);
    methods := [];
    for i := 0 to |codes|
      invariant methods == KnownMethods(codes[..i], CodeMethod)
    {
      assert codes[..i + 1][..i] == codes[..i];
      var m := CodeMethod(codes[i]);
      if m.Some? {
        methods := methods + [m.value];
      }
    }
    assert codes[..|codes|] == codes;
    if methods == [] {
      methods := [Efectivo];
    }
  }

  /** Every method that comes out was named by some entry. */
  lemma {:induction false} KnownMethodsNamed(codes: seq<string>, lookup: string -> Option<PaymentMethod>, m: PaymentMethod)
    requires m in KnownMethods(codes, lookup)
    ensures exists i :: 0 <= i < |codes| && lookup(codes[i]) == Some(m)
  {
    var init, last := codes[..|codes| - 1], codes[|codes| - 1];
    if lookup(last) == Some(m) {
      assert lookup(codes[|codes| - 1]) == Some(m);
    } else {
      assert m in KnownMethods(init, lookup);
      KnownMethodsNamed(init, lookup, m);
      var i :| 0 <= i < |init| && lookup(init[i]) == Some(m);
      assert codes[i] == init[i];
    }
  }

  /** Every entry that names a method contributes it. */
  lemma {:induction false} KnownMethodsKeep(codes: seq<string>, lookup: string -> Option<PaymentMethod>, i: nat)
    requires i < |codes| && lookup(codes[i]).Some?
    ensures lookup(codes[i]).value in KnownMethods(codes, lookup)
  {
    var init := codes[..|codes| - 1];
    if i < |init| {
      assert init[i] == codes[i];
      KnownMethodsKeep(init, lookup, i);
    }
  }

  /** Entries listed one after the other contribute their methods one after the other. */
  lemma {:induction false} KnownMethodsAppend(a: seq<string>, b: seq<string>, lookup: string -> Option<PaymentMethod>)
    ensures KnownMethods(a + b, lookup) == KnownMethods(a, lookup) + KnownMethods(b, lookup)
    decreases |b|
  {
    if b == [] {
      assert a + b == a;
    } else {
      var init := b[..|b| - 1];
      assert (a + b)[..|a + b| - 1] == a + init;
      KnownMethodsAppend(a, init, lookup);
    }
  }

  /** A string that neither starts nor ends with whitespace is left alone by strip. */
  lemma StripUntrimmed(s: string)
    requires s != [] && !IsSpace(s[0]) && !IsSpace(s[|s| - 1])
    ensures Strip(s) == s
  {
    assert s[0..] == s;
  }

  /** Every catalogue code reads back as its own method. */
  lemma CodeMethodOfCode(m: PaymentMethod)
    ensures CodeMethod(m.Code()) == Some(m)
  {
    var c := m.Code();
    assert |c| == 2 && IsDigit(c[0]) && IsDigit(c[1]);
    StripUntrimmed(c);
  }

  /** The codes of a list of methods. */
  function MethodCodes(ms: seq<PaymentMethod>): (r: seq<string>)
    ensures |r| == |ms| && forall i :: 0 <= i < |ms| ==> r[i] == ms[i].Code()
  {
    if ms == [] then [] else MethodCodes(ms[..|ms| - 1]) + [ms[|ms| - 1].Code()]
  }

  lemma KnownMethodsOfOneCode(m: PaymentMethod)
    ensures KnownMethods([m.Code()], CodeMethod) == [m]
  {
    CodeMethodOfCode(m);
    assert [m.Code()][..0] == [];
  }

  lemma {:induction false} KnownMethodsOfCodes(ms: seq<PaymentMethod>)
    ensures KnownMethods(MethodCodes(ms), CodeMethod) == ms
  {
    if ms != [] {
      var init, last := ms[..|ms| - 1], ms[|ms| - 1];
      KnownMethodsOfCodes(init);
      KnownMethodsAppend(MethodCodes(init), [last.Code()], CodeMethod);
      KnownMethodsOfOneCode(last);
      assert init + [last] == ms;
    }
  }

  /** Every catalogue code is two digits, so it holds no comma. */
  lemma MethodCodesShape(ms: seq<PaymentMethod>)
    ensures forall i :: 0 <= i < |ms| ==> |MethodCodes(ms)[i]| == 2 && ',' !in MethodCodes(ms)[i]
  {
    forall i | 0 <= i < |ms| ensures |MethodCodes(ms)[i]| == 2 && ',' !in MethodCodes(ms)[i] {
      var c := ms[i].Code();
      assert |c| == 2 && IsDigit(c[0]) && IsDigit(c[1]);
    }
  }

  /** A join whose first part is non-empty is non-empty. */
  lemma JoinStartsWithFirst(parts: seq<string>, sep: string)
    requires |parts| >= 1
    ensures |Join(parts, sep)| >= |parts[0]|
  {
  }

  /** Writing a non-empty list of methods as comma-separated codes and parsing it gives
      the same list back, order and duplicates included. */
  lemma PaymentMethodsRoundTrip(ms: seq<PaymentMethod>)
    requires |ms| >= 1
    ensures PaymentMethodsOf(Some(Join(MethodCodes(ms), ","))) == ms
  {
    var codes := MethodCodes(ms);
    MethodCodesShape(ms);
    SplitJoin(codes, ',');
    JoinStartsWithFirst(codes, ",");
    KnownMethodsOfCodes(ms);
  }

  /** An unset field gives cash alone. */
  lemma PaymentMethodsUnset()
    ensures PaymentMethodsOf(None) == [Efectivo]
  {
    SplitWithoutSeparator("01", ',');
    CodeMethodOfCode(Efectivo);
    assert ["01"][..0] == [];
  }

  // ---------------------------------------------------------------------------
  // Records read from Odoo
  // ---------------------------------------------------------------------------

  /** The company fields the add-on reads; an unset Odoo field is `None`. */
  datatype Company = Company(
    name: string, identificationType: Option<string>, identificationNumber: Option<string>,
    province: Option<string>, canton: Option<string>, district: Option<string>,
    neighborhood: Option<string>, address: Option<string>, commercialName: Option<string>,
    phoneCountryCode: Option<string>, phoneNumber: Option<string>, email: Option<string>,
    crEmail: Option<string>, activityCode: Option<string>, currency: string)

  /** The customer fields the add-on reads. */
  datatype Partner = Partner(
    name: string, identificationType: Option<string>, vat: Option<string>, ref: Option<string>,
    commercialName: Option<string>, email: Option<string>)

  // ---------------------------------------------------------------------------
  // Configuration check (`_ensure_cr_configuration`)
  // ---------------------------------------------------------------------------

  /** The company fields Hacienda needs, each with the label the error message uses. */
  datatype CompanyField = IdentificationType | IdentificationNumber | Province | Canton | District | Address
  {
    function Label(): string
    {
      match this
      case IdentificationType => "Tipo de identificación"
      case IdentificationNumber => "Número de identificación"
      case Province => "Provincia"
      case Canton => "Cantón"
      case District => "Distrito"
      case Address => "Dirección"
    }
  }

  /** The required fields in the order the source declares them. */
  const RequiredFields: seq<CompanyField> :=
    [IdentificationType, IdentificationNumber, Province, Canton, District, Address]

  function Setting(c: Company, f: CompanyField): Option<string>
  {
    match f
    case IdentificationType => c.identificationType
    case IdentificationNumber => c.identificationNumber
    case Province => c.province
    case Canton => c.canton
    case District => c.district
    case Address => c.address
  }

  /** The labels of the fields of `fs` the company leaves unset, in the order of `fs`. */
  function MissingLabels(c: Company, fs: seq<CompanyField>): seq<string>
  {
    if fs == [] then []
    else
      var init := MissingLabels(c, fs[..|fs| - 1]);
      var f := fs[|fs| - 1];
      if Truthy(Setting(c, f)) then init else init + [f.Label()]
  }

  /** The errors the check raises, with the text it shows. */
  datatype ConfigError = MissingCompanyData(companyName: string, missing: seq<string>) | NoCustomer
  {
    function Message(): string
    {
      match this
      case MissingCompanyData(name, missing) =>
        "La compañía " + name + " no tiene configurados los siguientes datos necesarios para Hacienda: "
        + Join(missing, ", ")
      case NoCustomer => "La factura debe tener un cliente asignado."
    }
  }

  /** The labels differ from field to field. */
  lemma LabelsDistinct(f: CompanyField, g: CompanyField)
    ensures f.Label() == g.Label() <==> f == g
  {
    if f != g {
      var a, b := f.Label(), g.Label();
      if |a| == |b| {
        assert a[0] != b[0];
      }
    }
  }

  /** A label is reported exactly when its field (one of `fs`) is unset. */
  lemma {:induction false} MissingLabelsIff(c: Company, fs: seq<CompanyField>, f: CompanyField)
    ensures f.Label() in MissingLabels(c, fs) <==> f in fs && !Truthy(Setting(c, f))
  {
    if fs != [] {
      var init, last := fs[..|fs| - 1], fs[|fs| - 1];
      MissingLabelsIff(c, init, f);
      LabelsDistinct(f, last);
      assert fs == init + [last];
    }
  }

  /** Nothing is reported exactly when every required field is set. */
  lemma MissingLabelsEmpty(c: Company)
    ensures MissingLabels(c, RequiredFields) == [] <==> forall f :: Truthy(Setting(c, f))
  {
    if MissingLabels(c, RequiredFields) == [] {
      forall f ensures Truthy(Setting(c, f)) {
        MissingLabelsIff(c, RequiredFields, f);
      }
    } else {
      var x := MissingLabels(c, RequiredFields)[0];
      var f :| f in RequiredFields && f.Label() == x by {
        assert x in MissingLabels(c, RequiredFields);
        MissingLabelsOrigin(c, RequiredFields, x);
      }
      MissingLabelsIff(c, RequiredFields, f);
    }
  }

  lemma {:induction false} MissingLabelsOrigin(c: Company, fs: seq<CompanyField>, x: string)
    requires x in MissingLabels(c, fs)
    ensures exists f :: f in fs && f.Label() == x
  {
    var init, last := fs[..|fs| - 1], fs[|fs| - 1];
    if x in MissingLabels(c, init) {
      MissingLabelsOrigin(c, init, x);
      var f :| f in init && f.Label() == x;
      assert f in fs;
    } else {
      assert last in fs;
    }
  }

  /** Every company field is one of the required ones. */
  lemma AllFieldsRequired(f: CompanyField)
    ensures f in RequiredFields
  {
    match f
    case IdentificationType => assert RequiredFields[0] == f;
    case IdentificationNumber => assert RequiredFields[1] == f;
    case Province => assert RequiredFields[2] == f;
    case Canton => assert RequiredFields[3] == f;
    case District => assert RequiredFields[4] == f;
    case Address => assert RequiredFields[5] == f;
  }

  /** The report over the required fields names exactly the unset ones. */
  lemma MissingLabelsExact(c: Company)
    ensures forall f: CompanyField :: f.Label() in MissingLabels(c, RequiredFields) <==> !Truthy(Setting(c, f))
  {
    forall f: CompanyField ensures f.Label() in MissingLabels(c, RequiredFields) <==> !Truthy(Setting(c, f)) {
      AllFieldsRequired(f);
      MissingLabelsIff(c, RequiredFields, f);
    }
  }

  /** The loop over the required fields, appending each unset one's label. */
  method CollectMissing(c: Company) returns (missing: seq<string>)
    ensures missing == MissingLabels(c, RequiredFields)
  {
    missing := [];
    for k := 0 to |RequiredFields|
      invariant missing == MissingLabels(c, RequiredFields[..k])
    {
      assert RequiredFields[..k + 1][..k] == RequiredFields[..k];
      var f := RequiredFields[k];
      if !Truthy(Setting(c, f)) {
        missing := missing + [f.Label()];
      }
    }
    assert RequiredFields[..|RequiredFields|] == RequiredFields;
  }

  /** What the check raises for one move, if anything: the missing company data first,
      then a missing customer. */
  function MoveConfigError(c: Company, partner: Option<Partner>): (r: Option<ConfigError>)
    ensures r == None <==> (forall f :: Truthy(Setting(c, f))) && partner.Some?
    ensures r.Some? && r.value.MissingCompanyData? ==>
      r.value.companyName == c.name && |r.value.missing| >= 1
      && forall f: CompanyField :: f.Label() in r.value.missing <==> !Truthy(Setting(c, f))
    ensures r == Some(NoCustomer) <==> (forall f :: Truthy(Setting(c, f))) && partner.None?
  {
    var missing := MissingLabels(c, RequiredFields);
    MissingLabelsEmpty(c);
    MissingLabelsExact(c);
    if missing != [] then Some(MissingCompanyData(c.name, missing))
    else if partner.None? then Some(NoCustomer)
    else None
  }

  // ---------------------------------------------------------------------------
  // Detail lines (the loop of `_prepare_cr_invoice_payload`)
  // ---------------------------------------------------------------------------

  /** What an invoice line is: a product line, or a section or note heading. */
  datatype DisplayType = ProductLine | LineSection | LineNote

  /** The first tax of a line: its Hacienda code (if any) and its rate. */
  datatype TaxRecord = TaxRecord(crTaxCode: Option<string>, amount: real)

  /** The invoice-line fields the add-on reads. */
  datatype MoveLine = MoveLine(
    displayType: DisplayType, productCode: Option<string>, name: string, quantity: real,
    uomCode: Option<string>, uomName: Option<string>, priceUnit: real, priceSubtotal: real,
    priceTotal: real, taxes: seq<TaxRecord>, discount: real)

  const LineDiscountNature := "Descuento de línea"

  /** The tax of a line: only its first tax counts, coded "01" when it has no code, its
      amount the difference between the line's total and subtotal. */
  function LineTax(l: MoveLine): (r: Option<Tax>)
    ensures r.Some? <==> l.taxes != []
    ensures r.Some? ==> r.value.tarifa == l.taxes[0].amount && r.value.monto == l.priceTotal - l.priceSubtotal
                        && r.value.codigo != ""
  {
    if l.taxes == [] then None
    else
      var t := l.taxes[0];
      Some(Tax(if Truthy(t.crTaxCode) then t.crTaxCode.value else "01", t.amount,
               l.priceTotal - l.priceSubtotal, None, None, None))
  }

  /** The unit: the Hacienda code of the unit, else its name, else "Unid". */
  function UnitOf(l: MoveLine): (r: string)
    ensures r != ""
  {
    if Truthy(l.uomCode) then l.uomCode.value else if Truthy(l.uomName) then l.uomName.value else "Unid"
  }

  /** The detail line numbered `n` for an invoice line. */
  function LineFor(l: MoveLine, n: int): (r: InvoiceLine)
    ensures r.numeroLinea == n && r.impuesto == LineTax(l)
    ensures r.impuestoNeto == Some(if r.impuesto.Some? then r.impuesto.value.monto else 0.0)
    ensures r.descuento.Some? <==> l.discount != 0.0
    ensures r.descuento.Some? ==> r.descuento.value.monto == l.priceUnit * l.quantity * (l.discount / 100.0)
  {
    var tax := LineTax(l);
    InvoiceLine(
      n, l.productCode, l.quantity, UnitOf(l), l.name, l.priceUnit, l.priceUnit * l.quantity,
      l.priceSubtotal, None, tax, Some(if tax.Some? then tax.value.monto else 0.0),
      if l.discount != 0.0 then Some(Discount(l.priceUnit * l.quantity * (l.discount / 100.0), LineDiscountNature))
      else None,
      [])
  }

  predicate IsDetail(l: MoveLine)
  {
    l.displayType != LineSection && l.displayType != LineNote
  }

  /** The lines that are neither sections nor notes, in order. */
  function ProductLines(lines: seq<MoveLine>): (r: seq<MoveLine>)
    ensures |r| <= |lines|
  {
    if lines == [] then []
    else
      var init := ProductLines(lines[..|lines| - 1]);
      if IsDetail(lines[|lines| - 1]) then init + [lines[|lines| - 1]] else init
  }

  /** `enumerate(..., start=1)` over the detail lines. */
  function Numbered(ps: seq<MoveLine>): seq<InvoiceLine>
  {
    seq(|ps|, k requires 0 <= k < |ps| => LineFor(ps[k], k + 1))
  }

  /** The `DetalleServicio` an invoice's lines give. */
  function DetailOf(lines: seq<MoveLine>): seq<InvoiceLine>
  {
    Numbered(ProductLines(lines))
  }

  method BuildDetail(lines: seq<MoveLine>) returns (detalle: seq<InvoiceLine>)
    ensures detalle == DetailOf(lines)
  {
    var products := ProductLines(lines);
    detalle := [];
    var index := 1;
    while index <= |products|
      invariant 1 <= index <= |products| + 1
      invariant detalle == Numbered(products[..index - 1])
    {
      assert products[..index] == products[..index - 1] + [products[index - 1]];
      detalle := detalle + [LineFor(products[index - 1], index)];
      index := index + 1;
    }
    assert products[..index - 1] == products;
  }

  /** A line goes into the detail exactly when it is one of the invoice's lines and is
      neither a section nor a note. */
  lemma {:induction false} ProductLinesIff(lines: seq<MoveLine>, l: MoveLine)
    ensures l in ProductLines(lines) <==> l in lines && IsDetail(l)
  {
    if lines != [] {
      var init := lines[..|lines| - 1];
      ProductLinesIff(init, l);
      assert lines == init + [lines[|lines| - 1]];
    }
  }

  /** The detail lines are numbered 1..n, one per product line in order, so the numbers
      are positive and distinct; every detail line carries its net tax. */
  lemma DetailNumbering(lines: seq<MoveLine>)
    ensures var d, ps := DetailOf(lines), ProductLines(lines);
      && |d| == |ps|
      && (forall k :: 0 <= k < |d| ==> d[k].numeroLinea == k + 1 && d[k] == LineFor(ps[k], k + 1))
      && (forall k :: 0 <= k < |d| ==> d[k].numeroLinea > 0 && d[k].impuestoNeto.Some?)
      && V.DistinctLineNumbers(d)
  {
  }

  /** The requirements the validator puts on a detail line, read back onto the invoice
      line it came from. */
  predicate LineValuesOk(l: MoveLine)
  {
    && l.quantity >= 0.0 && l.priceUnit >= 0.0 && l.priceUnit * l.quantity >= 0.0 && l.priceSubtotal >= 0.0
    && (l.taxes != [] ==> l.priceTotal - l.priceSubtotal >= 0.0 && 0.0 <= l.taxes[0].amount <= 100.0)
  }

  lemma LineForOk(l: MoveLine, n: int)
    ensures V.LineOk(LineFor(l, n)) <==> n > 0 && LineValuesOk(l)
  {
  }

  /** The validator's line loop passes the detail exactly when every product line has
      acceptable values: the numbering itself never fails it. */
  lemma DetailPasses(lines: seq<MoveLine>)
    ensures V.LinesOutcome(DetailOf(lines)) == V.Pass <==>
      forall k :: 0 <= k < |ProductLines(lines)| ==> LineValuesOk(ProductLines(lines)[k])
  {
    var d, ps := DetailOf(lines), ProductLines(lines);
    DetailNumbering(lines);
    V.LinesOutcomeIff(d);
    forall k | 0 <= k < |d| ensures V.LineOk(d[k]) <==> LineValuesOk(ps[k]) {
      LineForOk(ps[k], k + 1);
    }
  }

  // ---------------------------------------------------------------------------
  // Summary, issuer, receiver, sale condition
  // ---------------------------------------------------------------------------

  function OrEmpty(o: Option<string>): string
  {
    if o.Some? then o.value else ""
  }

  /** The sum of the subtotals of the lines that carry a tax. */
  function TaxedSubtotal(lines: seq<MoveLine>): real
  {
    if lines == [] then 0.0
    else TaxedSubtotal(lines[..|lines| - 1]) + (if lines[|lines| - 1].taxes != [] then lines[|lines| - 1].priceSubtotal else 0.0)
  }

  /** Untaxed lines add nothing to the taxed subtotal, whatever their amounts. */
  lemma {:induction false} TaxedSubtotalIgnoresUntaxed(lines: seq<MoveLine>, others: seq<MoveLine>)
    requires |lines| == |others|
    requires forall k :: 0 <= k < |lines| ==> (lines[k].taxes != [] <==> others[k].taxes != [])
    requires forall k :: 0 <= k < |lines| && lines[k].taxes != [] ==> lines[k].priceSubtotal == others[k].priceSubtotal
    ensures TaxedSubtotal(lines) == TaxedSubtotal(others)
  {
    if lines != [] {
      TaxedSubtotalIgnoresUntaxed(lines[..|lines| - 1], others[..|others| - 1]);
    }
  }

  /** The totals the add-on passes; every other total keeps its default zero. */
  const SuppliedTotals: set<SummaryTotal> :=
    {TotalServGravados, TotalGravado, TotalVenta, TotalVentaNeta, TotalImpuestos, TotalComprobante}

  /** The invoice's record fields the add-on reads besides its lines. */
  datatype MoveData = MoveData(
    name: Option<string>, company: Company, partner: Option<Partner>, journalCode: Option<string>,
    invoiceDate: Option<CalendarDate>, currency: Option<string>, conversionRate: real,
    lines: seq<MoveLine>, amountUntaxed: real, amountTax: real, amountTotal: real,
    activityCode: Option<string>, saleCondition: Option<string>, creditDays: int,
    paymentMethods: Option<string>)

  /** An exchange rate is given exactly when the invoice's currency is set and is not
      the company's. */
  function ExchangeRate(d: MoveData): (r: Option<real>)
    ensures r.Some? <==> d.currency.Some? && d.currency.value != d.company.currency
  {
    if d.currency.Some? && d.currency.value != d.company.currency then Some(d.conversionRate) else None
  }

  function SummaryOf(d: MoveData): InvoiceSummary
  {
    MakeSummary(OrEmpty(d.currency), ExchangeRate(d),
      map[TotalServGravados := TaxedSubtotal(d.lines), TotalGravado := d.amountUntaxed,
          TotalVenta := d.amountUntaxed, TotalVentaNeta := d.amountUntaxed,
          TotalImpuestos := d.amountTax, TotalComprobante := d.amountTotal])
  }

  /** The summary: the invoice's currency, a rate only for a foreign currency, the
      taxed subtotal as taxed services, the untaxed amount as taxed, sale and net sale
      totals, the tax and grand totals, and zero for every other total. */
  lemma SummaryTotals(d: MoveData)
    ensures var r := SummaryOf(d);
      && r.moneda == OrEmpty(d.currency)
      && (r.tipoCambio.Some? <==> d.currency.Some? && d.currency.value != d.company.currency)
      && r.totalServGravados == TaxedSubtotal(d.lines)
      && r.totalGravado == d.amountUntaxed && r.totalVenta == d.amountUntaxed && r.totalVentaNeta == d.amountUntaxed
      && r.totalImpuestos == d.amountTax && r.totalComprobante == d.amountTotal
      && forall t :: t !in SuppliedTotals ==> r.Total(t) == 0.0
  {
    var r := SummaryOf(d);
    forall t | t !in SuppliedTotals ensures r.Total(t) == 0.0 {
    }
  }

  /** The issuer: the company, its commercial name falling back to its name, a phone only
      when it has a number (country code "506" by default), its e-mail falling back to
      the Hacienda e-mail. */
  function EmisorOf(c: Company): Emisor
  {
    Emisor(
      c.name, Identification(OrEmpty(c.identificationType), OrEmpty(c.identificationNumber)),
      Some(if Truthy(c.commercialName) then c.commercialName.value else c.name),
      Some(Location(OrEmpty(c.province), OrEmpty(c.canton), OrEmpty(c.district),
                    if Truthy(c.neighborhood) then c.neighborhood else None, c.address)),
      if Truthy(c.phoneNumber) then
        Some(Phone(if Truthy(c.phoneCountryCode) then c.phoneCountryCode.value else "506", c.phoneNumber.value))
      else None,
      None,
      if Truthy(c.email) then c.email else c.crEmail)
  }

  /** The issuer's fields and their fallbacks. */
  lemma EmisorFallbacks(c: Company)
    ensures var r := EmisorOf(c);
      && r.nombre == c.name
      && r.identificacion == Identification(OrEmpty(c.identificationType), OrEmpty(c.identificationNumber))
      && r.nombreComercial == Some(if Truthy(c.commercialName) then c.commercialName.value else c.name)
      && (r.telefono.Some? <==> Truthy(c.phoneNumber))
      && (r.telefono.Some? ==>
            r.telefono.value == Phone(if Truthy(c.phoneCountryCode) then c.phoneCountryCode.value else "506",
                                      c.phoneNumber.value))
      && r.correoElectronico == (if Truthy(c.email) then c.email else c.crEmail)
      && r.ubicacion.Some? && r.ubicacion.value.barrio == (if Truthy(c.neighborhood) then c.neighborhood else None)
      && r.fax.None?
  {
  }

  /** The receiver: identified only when the customer has a VAT number or a reference,
      by the first of the two that is set, of type "01" unless the customer says
      otherwise. A move without customer gives an unnamed, unidentified receiver. */
  function ReceptorOf(p: Option<Partner>): Receptor
  {
    match p
    case None => Receptor("", None, None, None, None, None, None, None)
    case Some(q) =>
      Receptor(
        q.name,
        if Truthy(q.vat) || Truthy(q.ref) then
          Some(Identification(if Truthy(q.identificationType) then q.identificationType.value else "01",
                              if Truthy(q.vat) then q.vat.value else if Truthy(q.ref) then q.ref.value else "000000000"))
        else None,
        None, q.commercialName, None, None, None, q.email)
  }

  /** The receiver is identified exactly when the customer has a VAT number or a
      reference; the number is the first of the two that is set, so the nine-zero
      fallback is never used, and the type is "01" unless the customer says otherwise. */
  lemma ReceptorIdentification(p: Option<Partner>)
    ensures var r := ReceptorOf(p);
      && (r.identificacion.Some? <==> p.Some? && (Truthy(p.value.vat) || Truthy(p.value.ref)))
      && (r.identificacion.Some? ==>
            && r.identificacion.value.tipo
               == (if Truthy(p.value.identificationType) then p.value.identificationType.value else "01")
            && r.identificacion.value.numero == (if Truthy(p.value.vat) then p.value.vat.value else p.value.ref.value)
            && r.identificacion.value.numero != "")
  {
  }

  /** The stored sale condition, "01" when unset, and cash sale when the code is unknown. */
  function SaleConditionOf(stored: Option<string>): SaleCondition
  {
    match SaleConditionFromCode(if Truthy(stored) then stored.value else "01")
    case Some(c) => c
    case None => Contado
  }

  /** A stored catalogue code reads back as its condition; anything else reads as cash. */
  lemma SaleConditionRoundTrip(c: SaleCondition, stored: Option<string>)
    ensures SaleConditionOf(Some(c.Code())) == c
    ensures (stored.None? || stored.value !in {"01", "02", "03", "04", "05", "99"}) ==> SaleConditionOf(stored) == Contado
  {
    SaleConditionCodes(c, c);
    match c
    case Contado =>
    case Credito =>
    case Consignacion =>
    case Apartado =>
    case Arrendamiento =>
    case Otro =>
  }

  // ---------------------------------------------------------------------------
  // The invoice (`_prepare_cr_invoice_payload`) and the record
  // ---------------------------------------------------------------------------

  /** The activity code: the move's own, else the company's. */
  function ActivityCode(d: MoveData): string
  {
    if Truthy(d.activityCode) then d.activityCode.value else OrEmpty(d.company.activityCode)
  }

  /** `self.cr_credit_days or None`: the integer field itself when it is not zero,
      negative values included; it is not turned into text. */
  function CreditTerm(days: int): (r: Option<CreditTermValue>)
    ensures r.Some? <==> days != 0
    ensures CreditTruthy(r) <==> days != 0
    ensures r.Some? ==> r.value == TermDays(days)
  {
    if days != 0 then Some(TermDays(days)) else None
  }

  /** The date the move is dated: its invoice date, else today. */
  function MoveDate(d: MoveData, today: CalendarDate): CalendarDate
  {
    if d.invoiceDate.Some? then d.invoiceDate.value else today
  }

  /** The invoice a move gives once its key, consecutive and issue moment are settled. */
  function InvoiceWith(d: MoveData, clave: string, consecutivo: string, fecha: IssueMoment,
                       plazo: Option<CreditTermValue>): ElectronicInvoice
  {
    ElectronicInvoice(
      clave, ActivityCode(d), consecutivo, fecha, EmisorOf(d.company), Some(ReceptorOf(d.partner)),
      Catalogued(SaleConditionOf(d.saleCondition)), plazo,
      PaymentMethodsOf(d.paymentMethods), DetailOf(d.lines), SummaryOf(d), [], [])
  }

  /** `_prepare_cr_invoice_payload` as written: a stored key and consecutive are kept,
      missing ones are generated (the key first, from the consecutive stored at that
      point), and the issue moment is the move's date. */
  function InvoiceFor(id: nat, d: MoveData, storedKey: Option<string>, storedConsecutive: Option<string>,
                      today: CalendarDate): ElectronicInvoice
  {
    var date := MoveDate(d, today);
    var clave := if Truthy(storedKey) then storedKey.value
                 else GenerateKey(date, d.company.identificationNumber, storedConsecutive, id);
    var consecutivo := if Truthy(storedConsecutive) then storedConsecutive.value
                       else GenerateConsecutive(d.journalCode, id);
    InvoiceWith(d, clave, consecutivo, OnDate(date), CreditTerm(d.creditDays))
  }

  /** The header of the prepared invoice: a stored key or consecutive is kept, a missing
      one is generated, neither is ever empty, and the issue moment is the move's date. */
  lemma InvoiceHeader(id: nat, d: MoveData, storedKey: Option<string>, storedConsecutive: Option<string>,
                      today: CalendarDate)
    ensures var r := InvoiceFor(id, d, storedKey, storedConsecutive, today);
      && r.clave == (if Truthy(storedKey) then storedKey.value
                     else GenerateKey(MoveDate(d, today), d.company.identificationNumber, storedConsecutive, id))
      && r.numeroConsecutivo == (if Truthy(storedConsecutive) then storedConsecutive.value
                                 else GenerateConsecutive(d.journalCode, id))
      && r.clave != "" && r.numeroConsecutivo != ""
      && r.fechaEmision == OnDate(MoveDate(d, today))
  {
    var date := MoveDate(d, today);
    var clave := if Truthy(storedKey) then storedKey.value
                 else GenerateKey(date, d.company.identificationNumber, storedConsecutive, id);
    var consecutivo := if Truthy(storedConsecutive) then storedConsecutive.value
                       else GenerateConsecutive(d.journalCode, id);
    KeyNotEmpty(date, d.company.identificationNumber, storedConsecutive, id);
    assert InvoiceFor(id, d, storedKey, storedConsecutive, today) == InvoiceWith(d, clave, consecutivo, OnDate(date), CreditTerm(d.creditDays));
  }

  lemma KeyNotEmpty(date: CalendarDate, companyIdNumber: Option<string>, storedConsecutive: Option<string>, id: nat)
    ensures GenerateKey(date, companyIdNumber, storedConsecutive, id) != ""
  {
    assert |GenerateKey(date, companyIdNumber, storedConsecutive, id)| > 0;
  }

  /** Once written back, the key and consecutive are reused as they are: preparing the
      invoice again, on any day, gives the same key and consecutive. */
  lemma KeysStable(id: nat, d: MoveData, storedKey: Option<string>, storedConsecutive: Option<string>,
                   today: CalendarDate, later: CalendarDate)
    ensures var first := InvoiceFor(id, d, storedKey, storedConsecutive, today);
      var again := InvoiceFor(id, d, Some(first.clave), Some(first.numeroConsecutivo), later);
      again.clave == first.clave && again.numeroConsecutivo == first.numeroConsecutivo
  {
    var first := InvoiceFor(id, d, storedKey, storedConsecutive, today);
    InvoiceHeader(id, d, storedKey, storedConsecutive, today);
    InvoiceHeader(id, d, Some(first.clave), Some(first.numeroConsecutivo), later);
  }

  /** The electronic state the add-on tracks on a move. */
  datatype ElectronicState = Draft | Generated | Sent | Accepted | Rejected | Failed

  /** What generating the XML of a move can fail with. */
  datatype GenerateError = Misconfigured(config: ConfigError) | NotRendered(build: XB.BuildError)

  /** The file name the generated XML is stored under. */
  function DocumentName(d: MoveData, id: nat): (r: string)
    ensures |r| >= 4 && r[|r| - 4..] == ".xml"
  {
    (if Truthy(d.name) then d.name.value else "factura") + "_" + NatToString(id) + ".xml"
  }

  /** The configuration check over several moves: the first failing move's error. */
  function ConfigurationOf(moves: seq<Move>): Result<bool, ConfigError>
  {
    if moves == [] then Ok(true)
    else match MoveConfigError(moves[0].data.company, moves[0].data.partner)
      case Some(e) => Err(e)
      case None => ConfigurationOf(moves[1..])
  }

  /** The check passes exactly when every move passes, and otherwise reports the error
      of the earliest failing move. */
  lemma {:induction false} ConfigurationOfIff(moves: seq<Move>)
    ensures ConfigurationOf(moves).Ok? <==>
      forall i :: 0 <= i < |moves| ==> MoveConfigError(moves[i].data.company, moves[i].data.partner).None?
    ensures ConfigurationOf(moves).Err? ==>
      exists i :: 0 <= i < |moves| && MoveConfigError(moves[i].data.company, moves[i].data.partner) == Some(ConfigurationOf(moves).error)
                  && forall j :: 0 <= j < i ==> MoveConfigError(moves[j].data.company, moves[j].data.partner).None?
  {
    if moves != [] {
      ConfigurationOfIff(moves[1..]);
      if MoveConfigError(moves[0].data.company, moves[0].data.partner).None? {
        if ConfigurationOf(moves).Ok? {
          forall i | 0 <= i < |moves| ensures MoveConfigError(moves[i].data.company, moves[i].data.partner).None? {
            if i > 0 { assert moves[i] == moves[1..][i - 1]; }
          }
        } else {
          var i :| 0 <= i < |moves[1..]| && MoveConfigError(moves[1..][i].data.company, moves[1..][i].data.partner) == Some(ConfigurationOf(moves).error)
                   && forall j :: 0 <= j < i ==> MoveConfigError(moves[1..][j].data.company, moves[1..][j].data.partner).None?;
          forall j | 0 <= j < i + 1 ensures MoveConfigError(moves[j].data.company, moves[j].data.partner).None? {
            if j > 0 { assert moves[j] == moves[1..][j - 1]; }
          }
          assert moves[i + 1] == moves[1..][i];
        }
      }
    }
  }

  /** `_ensure_cr_configuration` over a set of moves. */
  method EnsureCrConfiguration(moves: seq<Move>) returns (r: Result<bool, ConfigError>)
    ensures r == ConfigurationOf(moves)
  {
    var i := 0;
    while i < |moves|
      invariant 0 <= i <= |moves| && ConfigurationOf(moves) == ConfigurationOf(moves[i..])
    {
      assert moves[i..][1..] == moves[i + 1..];
      var company := moves[i].data.company;
      var missing := CollectMissing(company);
      if missing != [] {
        return Err(MissingCompanyData(company.name, missing));
      }
      if moves[i].data.partner.None? {
        return Err(NoCustomer);
      }
      i := i + 1;
    }
    return Ok(true);
  }

  /** What `action_generate_cr_xml` does to one move: its result (the configuration
      error, else the rendering error of the prepared invoice, else the file name and
      the XML) and the record's key, consecutive and state afterwards. A failure aborts
      the action, so the record keeps its old values. */
  datatype Generation = Generation(result: Result<(string, string), GenerateError>, key: Option<string>,
                                   consecutive: Option<string>, state: ElectronicState)

  function GenerateOutcome(id: nat, d: MoveData, storedKey: Option<string>, storedConsecutive: Option<string>,
                           state: ElectronicState, today: CalendarDate, serialize: X.Node -> string): Generation
  {
    match MoveConfigError(d.company, d.partner)
    case Some(e) => Generation(Err(Misconfigured(e)), storedKey, storedConsecutive, state)
    case None =>
      RenderOutcome(InvoiceFor(id, d, storedKey, storedConsecutive, today), DocumentName(d, id),
                    storedKey, storedConsecutive, state, serialize)
  }

  /** The part after the configuration check: render the prepared invoice with
      validation and, on success, keep its key and consecutive. */
  function RenderOutcome(inv: ElectronicInvoice, name: string, storedKey: Option<string>,
                         storedConsecutive: Option<string>, state: ElectronicState,
                         serialize: X.Node -> string): Generation
  {
    match XB.RenderInvoice(inv, true, serialize)
    case Err(e) => Generation(Err(NotRendered(e)), storedKey, storedConsecutive, state)
    case Ok(xml) => Generation(Ok((name, xml)), Some(inv.clave), Some(inv.numeroConsecutivo), Generated)
  }

  /** An Odoo invoice, with the fields the add-on writes. */
  class Move {
    const id: nat
    const data: MoveData
    var invoiceKey: Option<string>
    var consecutiveNumber: Option<string>
    var electronicState: ElectronicState

    constructor (id: nat, data: MoveData, invoiceKey: Option<string>, consecutiveNumber: Option<string>)
      ensures this.id == id && this.data == data
      ensures this.invoiceKey == invoiceKey && this.consecutiveNumber == consecutiveNumber
      ensures electronicState == Draft
    {
      this.id := id;
      this.data := data;
      this.invoiceKey := invoiceKey;
      this.consecutiveNumber := consecutiveNumber;
      electronicState := Draft;
    }

    /** `_prepare_cr_invoice_payload`: builds the invoice and writes the key and the
        consecutive it used back onto the record. */
    method PrepareInvoice(today: CalendarDate) returns (inv: ElectronicInvoice)
      modifies this
      ensures inv == InvoiceFor(id, data, old(invoiceKey), old(consecutiveNumber), today)
      ensures invoiceKey == Some(inv.clave) && consecutiveNumber == Some(inv.numeroConsecutivo)
      ensures electronicState == old(electronicState)
    {
      var storedKey, storedConsecutive := invoiceKey, consecutiveNumber;
      var date := MoveDate(data, today);
      var detalle := BuildDetail(data.lines);
      var methods := ParsePaymentMethods(data.paymentMethods);
      var clave := if Truthy(storedKey) then storedKey.value
                   else GenerateKey(date, data.company.identificationNumber, storedConsecutive, id);
      var consecutivo := if Truthy(storedConsecutive) then storedConsecutive.value
                         else GenerateConsecutive(data.journalCode, id);
      inv := InvoiceWith(data, clave, consecutivo, OnDate(date), CreditTerm(data.creditDays)).(detalleServicio := detalle, mediosPago := methods);
      assert inv == InvoiceFor(id, data, storedKey, storedConsecutive, today);
      invoiceKey := Some(clave);
      consecutiveNumber := Some(consecutivo);
    }

    /** `action_generate_cr_xml` for one move: check the configuration, prepare the
        invoice, render it with validation, and mark the move generated. A failure
        aborts the whole action, so the record keeps its old values. */
    method GenerateCrXml(today: CalendarDate, serialize: X.Node -> string)
      returns (r: Result<(string, string), GenerateError>)
      modifies this
      ensures Generation(r, invoiceKey, consecutiveNumber, electronicState)
           == GenerateOutcome(id, data, old(invoiceKey), old(consecutiveNumber), old(electronicState), today, serialize)
    {
      var configured := EnsureCrConfiguration([this]);
      assert [this][1..] == [];
      if configured.Err? {
        return Err(Misconfigured(configured.error));
      }
      r := RenderPrepared(today, serialize);
    }

    method RenderPrepared(today: CalendarDate, serialize: X.Node -> string)
      returns (r: Result<(string, string), GenerateError>)
      modifies this
      ensures Generation(r, invoiceKey, consecutiveNumber, electronicState)
           == RenderOutcome(InvoiceFor(id, data, old(invoiceKey), old(consecutiveNumber), today), DocumentName(data, id),
                            old(invoiceKey), old(consecutiveNumber), old(electronicState), serialize)
    {
      var savedKey, savedConsecutive := invoiceKey, consecutiveNumber;
      var inv := PrepareInvoice(today);
      r := Publish(inv, savedKey, savedConsecutive, serialize);
    }

    /** Renders the prepared invoice; on failure the key and consecutive written by the
        preparation are rolled back, on success the move is marked generated. */
    method Publish(inv: ElectronicInvoice, savedKey: Option<string>, savedConsecutive: Option<string>,
                   serialize: X.Node -> string)
      returns (r: Result<(string, string), GenerateError>)
      requires invoiceKey == Some(inv.clave) && consecutiveNumber == Some(inv.numeroConsecutivo)
      modifies this
      ensures Generation(r, invoiceKey, consecutiveNumber, electronicState)
           == RenderOutcome(inv, DocumentName(data, id), savedKey, savedConsecutive, old(electronicState), serialize)
    {
      var rendered := XB.RenderInvoice(inv, true, serialize);
      if rendered.Err? {
        invoiceKey, consecutiveNumber := savedKey, savedConsecutive;
        return Err(NotRendered(rendered.error));
      }
      electronicState := Generated;
      return Ok((DocumentName(data, id), rendered.value));
    }
  }

  // ---------------------------------------------------------------------------
  // Findings
  // ---------------------------------------------------------------------------

  /** The prepared invoice is dated by a calendar date, which the validator's issue
      moment rule never accepts: every prepared invoice fails validation, so the XML
      is never rendered and generating it never succeeds. */
  lemma PreparedInvoiceRejected(id: nat, d: MoveData, storedKey: Option<string>, storedConsecutive: Option<string>,
                                today: CalendarDate, serialize: X.Node -> string)
    ensures var inv := InvoiceFor(id, d, storedKey, storedConsecutive, today);
      && V.FechaRule(inv).Fail? && V.InvoiceCheck(inv).Fail?
      && XB.RenderInvoice(inv, true, serialize).Err?
  {
    var inv := InvoiceFor(id, d, storedKey, storedConsecutive, today);
    assert !inv.fechaEmision.AtDateTime?;
    V.InvoiceCheckIff(inv);
  }

  /** Generating the XML of a move therefore never succeeds: a configured move fails
      on the rendering of its invoice, with the validator's error. */
  lemma GenerateNeverSucceeds(id: nat, d: MoveData, storedKey: Option<string>, storedConsecutive: Option<string>,
                              state: ElectronicState, today: CalendarDate, serialize: X.Node -> string)
    ensures var g := GenerateOutcome(id, d, storedKey, storedConsecutive, state, today, serialize);
      && g.result.Err? && g.key == storedKey && g.consecutive == storedConsecutive && g.state == state
      && (MoveConfigError(d.company, d.partner).None? ==>
            g.result == Err(NotRendered(XB.Invalid(V.InvoiceCheck(InvoiceFor(id, d, storedKey, storedConsecutive, today)).error))))
  {
    PreparedInvoiceRejected(id, d, storedKey, storedConsecutive, today, serialize);
  }

  /** With neither value stored, the key's 20-digit consecutive segment is the padded id,
      while the consecutive itself is the 18-character branch, terminal and sequence:
      the key does not embed the document's consecutive. */
  lemma KeyMissesConsecutive(id: nat, d: MoveData, today: CalendarDate)
    requires id < Pow10(10) && |KeyIdentifier(d.company.identificationNumber)| <= 12
    ensures var inv := InvoiceFor(id, d, None, None, today);
      && |inv.clave| == 50 && inv.clave[21..41] == ZFill(NatToString(id), 20)
      && |inv.numeroConsecutivo| == 18 && inv.clave[21..41] != inv.numeroConsecutivo
  {
    NatToStringLength(id, 10);
    KeyLayout(MoveDate(d, today), d.company.identificationNumber, None, id);
    ConsecutiveLength(d.journalCode, id);
  }

  /** The consecutive as the 20-digit rule asks for it: branch (3), terminal (5),
      document type "01" for an electronic invoice (2), sequence (10). */
  function ConsecutiveV44(journalCode: Option<string>, id: nat): (r: string)
    ensures |r| == 10 + Max(10, |NatToString(id)|)
  {
    JournalPrefix(journalCode) + Terminal + "01" + ZFill(NatToString(id), 10)
  }

  /** The corrected consecutive has 20 digits for every id below 10^10 whose branch is
      digits. */
  lemma ConsecutiveV44Accepted(journalCode: Option<string>, id: nat)
    ensures IsDigitString(ConsecutiveV44(journalCode, id), 20) <==>
      id < Pow10(10) && IsDigits(JournalPrefix(journalCode))
  {
    NatToStringLength(id, 10);
    var p, s := JournalPrefix(journalCode), ZFill(NatToString(id), 10);
    LiteralDigits();
    assert IsDigits("01") by { assert "01"[0] == '0' && "01"[1] == '1'; }
    ConcatDigits(p, Terminal);
    ConcatDigits(p + Terminal, "01");
    ConcatDigits(p + Terminal + "01", s);
  }

  /** Even with its issue moment a date and time, the invoice as prepared cannot be
      rendered when the move has a credit term: the day count reaches `PlazoCredito`
      as an `int`, and the serialiser refuses it. */
  lemma CreditDaysNotSerialised(id: nat, d: MoveData, storedKey: Option<string>, storedConsecutive: Option<string>,
                                today: CalendarDate, issuedAt: DateTime, serialize: X.Node -> string)
    requires d.creditDays != 0
    ensures var inv := InvoiceFor(id, d, storedKey, storedConsecutive, today).(fechaEmision := AtDateTime(issuedAt));
      && inv.plazoCredito == Some(TermDays(d.creditDays))
      && XB.RenderInvoice(inv, true, serialize).Err?
      && (V.InvoiceCheck(inv) == V.Pass ==>
            XB.RenderInvoice(inv, true, serialize).error.CannotSerialise?
            && d.creditDays in X.UnconvertedIn(XB.BuildXml(inv, true).value))
  {
    var inv := InvoiceFor(id, d, storedKey, storedConsecutive, today).(fechaEmision := AtDateTime(issuedAt));
    XL.IntCreditTermRefused(inv, true, serialize);
    XL.BuildXmlGate(inv, true);
  }

  /** The credit term as intended: `str(days)`, written only when the day count is
      not zero. */
  function CorrectedCreditTerm(days: int): (r: Option<CreditTermValue>)
  {
    if days != 0 then Some(TermText(IntToString(days))) else None
  }

  /** The corrected term is written exactly when the as-written one would be; it is a
      string, so it leaves nothing unconverted for the serialiser, and its text reads
      back as the day count. */
  lemma CorrectedCreditTermWritten(days: int)
    ensures CreditTruthy(CorrectedCreditTerm(days)) <==> CreditTruthy(CreditTerm(days))
    ensures X.UnconvertedAmong(XB.CreditLeaf(CorrectedCreditTerm(days))) == []
    ensures days != 0 ==> XB.CreditLeaf(CorrectedCreditTerm(days)) == [X.Leaf(X.PlazoCredito, X.Str(IntToString(days)))]
    ensures days > 0 ==> var t := CorrectedCreditTerm(days).value.text; IsDigits(t) && DigitsValue(t) == days
    ensures days < 0 ==> var t := CorrectedCreditTerm(days).value.text;
      t[0] == '-' && IsDigits(t[1..]) && DigitsValue(t[1..]) == -days
  {
    if days < 0 {
      var t := CorrectedCreditTerm(days).value.text;
      assert t[1..] == NatToString(-days);
    }
    if days != 0 {
      var leaf := X.Leaf(X.PlazoCredito, X.Str(IntToString(days)));
      assert X.UnconvertedIn(leaf) == [];
      assert X.UnconvertedAmong([leaf]) == X.UnconvertedIn(leaf) + X.UnconvertedAmong([]);
    }
  }

  /** The invoice as intended: the consecutive in its 20-digit form is settled first,
      the key embeds it, the issue moment is a date and time, and the credit term is
      text. */
  function CorrectedInvoiceFor(id: nat, d: MoveData, storedKey: Option<string>, storedConsecutive: Option<string>,
                               issuedAt: DateTime): (r: ElectronicInvoice)
    ensures r.fechaEmision == AtDateTime(issuedAt)
  {
    var consecutivo := if Truthy(storedConsecutive) then storedConsecutive.value
                       else ConsecutiveV44(d.journalCode, id);
    var clave := if Truthy(storedKey) then storedKey.value
                 else GenerateKey(issuedAt.date, d.company.identificationNumber, Some(consecutivo), id);
    InvoiceWith(d, clave, consecutivo, AtDateTime(issuedAt), CorrectedCreditTerm(d.creditDays))
  }

  /** For a fresh move whose id, branch and company identification fit their fields,
      the corrected invoice passes the key, consecutive and issue-moment rules, and its
      key embeds its consecutive. */
  lemma CorrectedHeaderPasses(id: nat, d: MoveData, issuedAt: DateTime)
    requires id < Pow10(10) && IsDigits(JournalPrefix(d.journalCode))
    requires var ident := KeyIdentifier(d.company.identificationNumber); |ident| <= 12 && IsDigits(ident)
    ensures var inv := CorrectedInvoiceFor(id, d, None, None, issuedAt);
      && V.Rule(inv, 0) == V.Pass && V.Rule(inv, 1) == V.Pass && V.Rule(inv, 2) == V.Pass
      && inv.clave[21..41] == inv.numeroConsecutivo
  {
    var cons := ConsecutiveV44(d.journalCode, id);
    ConsecutiveV44Accepted(d.journalCode, id);
    assert KeyConsecutive(Some(cons), id) == cons;
    KeyLayout(issuedAt.date, d.company.identificationNumber, Some(cons), id);
  }
}
