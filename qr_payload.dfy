/**
 * The QR payload encoder of the generator form (src/components/qr-code-generator.tsx):
 * the active tab and the watched form values become the exact text put in the QR code.
 * Nothing is escaped and vCard lines are joined with a line feed, as the code does.
 */
module QrPayload {
  import opened Wrappers

  /** The active tab. The tab value reaches the state through a cast from the tab
      widget's string, so a value outside the five tabs is possible: `OtherTab`. */
  datatype QrType = UrlTab | TextTab | WifiTab | ContactTab | PhoneTab | OtherTab(name: string)

  /** The Wi-Fi encryption choices of the form schema. */
  datatype Encryption = WPA | WEP | NoPass

  function EncryptionName(e: Encryption): string {
    match e
    case WPA => "WPA"
    case WEP => "WEP"
    case NoPass => "nopass"
  }

  /** The watched form values. The optional strings of the schema are modelled as strings;
      an absent one is the form's default "". */
  datatype FormValues = FormValues(
    url: string,
    text: string,
    phone: string,
    ssid: string,
    password: string,
    encryption: Encryption,
    firstName: string,
    lastName: string,
    contactPhone: string,
    email: string,
    website: string)

  /** What `form.getFieldState(name).invalid` reports for the three validated fields
      (the schema's URL check on `url` and `website`, its e-mail check on `email`). */
  datatype FieldStates = FieldStates(urlInvalid: bool, emailInvalid: bool, websiteInvalid: bool)

  /** The form's default values. */
  const DefaultValues: FormValues :=
    FormValues("https://firebase.google.com", "", "", "", "", WPA, "", "", "", "", "")

  // --------------------------------------------------------------------------
  // The encoder

  function UrlPayload(url: string, states: FieldStates): string {
    if url != "" && !states.urlInvalid then url else ""
  }

  function PhonePayload(phone: string): string {
    if phone != "" then "tel:" + phone else ""
  }

  function WifiPayload(encryption: Encryption, ssid: string, password: string): string {
    if ssid != "" then "WIFI:T:" + EncryptionName(encryption) + ";S:" + ssid + ";P:" + password + ";;" else ""
  }

  /** The lines of a contact card. */
  function NameLine(v: FormValues): string {
    "N:" + v.lastName + ";" + v.firstName
  }

  function FullNameLine(v: FormValues): string {
    "FN:" + v.firstName + " " + v.lastName
  }

  function TelLine(v: FormValues): string {
    "TEL;TYPE=CELL:" + v.contactPhone
  }

  function EmailLine(v: FormValues): string {
    "EMAIL:" + v.email
  }

  function UrlLine(v: FormValues): string {
    "URL:" + v.website
  }

  /** When each optional line is written: a phone is given; an e-mail address or web site
      is given and its field is not flagged invalid. */
  predicate HasTel(v: FormValues) {
    v.contactPhone != ""
  }

  predicate HasEmail(v: FormValues, states: FieldStates) {
    v.email != "" && !states.emailInvalid
  }

  predicate HasUrl(v: FormValues, states: FieldStates) {
    v.website != "" && !states.websiteInvalid
  }

  /** The first four lines of the card, each ended by a line feed. */
  function HeaderText(v: FormValues): string {
    "BEGIN:VCARD" + "\n" + "VERSION:3.0" + "\n" + NameLine(v) + "\n" + FullNameLine(v) + "\n"
  }

  /** One conditional `vcard += line + "\n"` step. */
  function AppendLineIf(card: string, present: bool, line: string): string {
    if present then card + line + "\n" else card
  }

  /** The vCard, appended to step by step as the code does. */
  function ContactPayload(v: FormValues, states: FieldStates): string {
    if v.firstName == "" || v.lastName == "" then ""
    else
      var withTel := AppendLineIf(HeaderText(v), HasTel(v), TelLine(v));
      var withEmail := AppendLineIf(withTel, HasEmail(v, states), EmailLine(v));
      var withUrl := AppendLineIf(withEmail, HasUrl(v, states), UrlLine(v));
      withUrl + "END:VCARD"
  }

  /** `generateQrData`. */
  function GenerateQrData(tab: QrType, v: FormValues, states: FieldStates): string {
    match tab
    case UrlTab => UrlPayload(v.url, states)
    case TextTab => v.text
    case PhoneTab => PhonePayload(v.phone)
    case WifiTab => WifiPayload(v.encryption, v.ssid, v.password)
    case ContactTab => ContactPayload(v, states)
    case OtherTab(_) => ""
  }

  // --------------------------------------------------------------------------
  // Per-tab properties

  /** The URL tab gives the URL verbatim when it is non-empty and its field is not
      flagged invalid, and "" otherwise. */
  lemma UrlTabPayload(v: FormValues, states: FieldStates)
    ensures var r := GenerateQrData(UrlTab, v, states);
      (v.url != "" && !states.urlInvalid ==> r == v.url) && (v.url == "" || states.urlInvalid ==> r == "")
  {
  }

  /** The text tab gives the text verbatim, "" when it is empty. */
  lemma TextTabPayload(v: FormValues, states: FieldStates)
    ensures GenerateQrData(TextTab, v, states) == v.text
  {
  }

  /** The phone tab gives a `tel:` URI for a non-empty phone and "" otherwise. */
  lemma PhoneTabPayload(v: FormValues, states: FieldStates)
    ensures var r := GenerateQrData(PhoneTab, v, states);
      (v.phone != "" ==> r == "tel:" + v.phone && IsPrefix("tel:", r) && r[4..] == v.phone)
      && (v.phone == "" ==> r == "")
  {
  }

  /** A tab outside the five gives "". */
  lemma OtherTabPayload(name: string, v: FormValues, states: FieldStates)
    ensures GenerateQrData(OtherTab(name), v, states) == ""
  {
  }

  /** The payload depends on nothing but the tab and the two records (it is a function);
      the fields of other tabs do not matter. */
  lemma PayloadReadsOnlyItsTab(tab: QrType, v: FormValues, w: FormValues, states: FieldStates)
    requires tab == TextTab ==> v.text == w.text
    requires tab == UrlTab ==> v.url == w.url
    requires tab == PhoneTab ==> v.phone == w.phone
    requires tab == WifiTab ==> v.ssid == w.ssid && v.password == w.password && v.encryption == w.encryption
    requires tab == ContactTab ==>
               v.firstName == w.firstName && v.lastName == w.lastName
               && v.contactPhone == w.contactPhone && v.email == w.email && v.website == w.website
    ensures GenerateQrData(tab, v, states) == GenerateQrData(tab, w, states)
  {
  }

  // --------------------------------------------------------------------------
  // Wi-Fi

  predicate IsPrefix(p: string, s: string) {
    |p| <= |s| && s[..|p|] == p
  }

  predicate IsSuffix(p: string, s: string) {
    |p| <= |s| && s[|s| - |p|..] == p
  }

  /** The Wi-Fi tab gives "" for an empty SSID; otherwise the `WIFI:` text starts with
      `WIFI:T:`, ends with `;;` and carries the three fields verbatim in the order T, S, P. */
  lemma WifiTabPayload(v: FormValues, states: FieldStates)
    ensures var r := GenerateQrData(WifiTab, v, states);
      && (v.ssid == "" ==> r == "")
      && (v.ssid != "" ==>
            && r == "WIFI:T:" + EncryptionName(v.encryption) + ";S:" + v.ssid + ";P:" + v.password + ";;"
            && IsPrefix("WIFI:T:", r) && IsSuffix(";;", r))
  {
    if v.ssid != "" {
      var r := GenerateQrData(WifiTab, v, states);
      var body := EncryptionName(v.encryption) + ";S:" + v.ssid + ";P:" + v.password;
      assert r == "WIFI:T:" + body + ";;";
      assert r[..7] == "WIFI:T:";
      assert r[|r| - 2..] == ";;";
    }
  }

  /** The position of the first `c` in `s`. */
  function IndexOf(s: string, c: char): (r: Option<nat>)
    ensures r.None? ==> c !in s
    ensures r.Some? ==> r.value < |s| && s[r.value] == c && c !in s[..r.value]
  {
    if |s| == 0 then None
    else if s[0] == c then Some(0)
    else
      var rest := IndexOf(s[1..], c);
      if rest.None? then None
      else
        assert s[..rest.value + 1] == [s[0]] + s[1..][..rest.value];
        Some(rest.value + 1)
  }

  /** The first `c` of `a + [c] + b` is the one after `a` when `a` has none. */
  lemma {:induction false} IndexOfAfter(a: string, c: char, b: string)
    requires c !in a
    ensures IndexOf(a + [c] + b, c) == Some(|a|)
  {
    if |a| > 0 {
      assert (a + [c] + b)[1..] == a[1..] + [c] + b;
      IndexOfAfter(a[1..], c, b);
    }
  }

  /** Splitting `a + [c] + b` at its first `c` gives `a` and `b` back when `a` has none. */
  lemma SplitAtFirst(a: string, c: char, b: string)
    requires c !in a
    ensures var s := a + [c] + b; IndexOf(s, c) == Some(|a|) && s[..|a|] == a && s[|a| + 1..] == b
  {
    IndexOfAfter(a, c, b);
  }

  /** The pieces of `p + body + q`. */
  lemma Framed(p: string, body: string, q: string)
    ensures var s := p + body + q;
      |s| == |p| + |body| + |q| && s[..|p|] == p && s[|s| - |q|..] == q && s[|p|..|s| - |q|] == body
  {
  }

  lemma FramedAffixes(p: string, body: string, q: string)
    ensures IsPrefix(p, p + body + q) && IsSuffix(q, p + body + q)
  {
    Framed(p, body, q);
  }

  function ParseEncryption(s: string): (r: Option<Encryption>)
    ensures forall e :: r == Some(e) <==> s == EncryptionName(e)
  {
    if s == "WPA" then Some(WPA)
    else if s == "WEP" then Some(WEP)
    else if s == "nopass" then Some(NoPass)
    else None
  }

  /** Reads a `WIFI:T:<enc>;S:<ssid>;P:<password>;;` text back. */
  function DecodeWifi(s: string): Option<(Encryption, string, string)> {
    if |s| < 9 || s[..7] != "WIFI:T:" || s[|s| - 2..] != ";;" then None
    else DecodeWifiFields(s[7..|s| - 2])
  }

  /** The encryption ends at the first `;`; the network follows. */
  function DecodeWifiFields(body: string): Option<(Encryption, string, string)> {
    var i := IndexOf(body, ';');
    if i.None? then None
    else
      var encryption := ParseEncryption(body[..i.value]);
      var network := DecodeNetwork(body[i.value + 1..]);
      if encryption.None? || network.None? then None
      else Some((encryption.value, network.value.0, network.value.1))
  }

  /** `S:<ssid>;P:<password>`: the SSID ends at the first `;`, the password runs to the end. */
  function DecodeNetwork(rest: string): Option<(string, string)> {
    if |rest| < 2 || rest[..2] != "S:" then None
    else
      var fields := rest[2..];
      var j := IndexOf(fields, ';');
      if j.None? then None
      else
        var tail := fields[j.value + 1..];
        if |tail| < 2 || tail[..2] != "P:" then None
        else Some((fields[..j.value], tail[2..]))
  }

  lemma NetworkRoundTrip(ssid: string, password: string)
    requires ';' !in ssid
    ensures DecodeNetwork("S:" + (ssid + [';'] + ("P:" + password))) == Some((ssid, password))
  {
    var tail := "P:" + password;
    var fields := ssid + [';'] + tail;
    var rest := "S:" + fields;
    assert rest[..2] == "S:" && rest[2..] == fields;
    SplitAtFirst(ssid, ';', tail);
    assert tail[..2] == "P:" && tail[2..] == password;
  }

  lemma FieldsRoundTrip(encryption: Encryption, ssid: string, password: string)
    requires ';' !in ssid
    ensures DecodeWifiFields(EncryptionName(encryption) + [';'] + ("S:" + (ssid + [';'] + ("P:" + password))))
         == Some((encryption, ssid, password))
  {
    var e := EncryptionName(encryption);
    assert ';' !in e;
    SplitAtFirst(e, ';', "S:" + (ssid + [';'] + ("P:" + password)));
    NetworkRoundTrip(ssid, password);
  }

  /** Without a `;` in the SSID the Wi-Fi text determines its three fields: decoding it
      gives them back. */
  lemma WifiRoundTrip(encryption: Encryption, ssid: string, password: string)
    requires ssid != "" && ';' !in ssid
    ensures DecodeWifi(WifiPayload(encryption, ssid, password)) == Some((encryption, ssid, password))
  {
    var body := EncryptionName(encryption) + [';'] + ("S:" + (ssid + [';'] + ("P:" + password)));
    calc {
      DecodeWifi(WifiPayload(encryption, ssid, password));
    == { WifiPayloadFramed(encryption, ssid, password); }
      DecodeWifi("WIFI:T:" + body + ";;");
    == { Framed("WIFI:T:", body, ";;"); }
      DecodeWifiFields(body);
    == { FieldsRoundTrip(encryption, ssid, password); }
      Some((encryption, ssid, password));
    }
  }

  /** The Wi-Fi text with its separators written as single characters. */
  lemma WifiPayloadFramed(encryption: Encryption, ssid: string, password: string)
    requires ssid != ""
    ensures WifiPayload(encryption, ssid, password)
         == "WIFI:T:" + (EncryptionName(encryption) + [';'] + ("S:" + (ssid + [';'] + ("P:" + password)))) + ";;"
  {
    var e := EncryptionName(encryption);
    var tail := "P:" + password;
    var fields := ssid + [';'] + tail;
    var network := "S:" + fields;
    calc {
      WifiPayload(encryption, ssid, password);
      "WIFI:T:" + e + ";S:" + ssid + ";P:" + password + ";;";
    == { assert ";P:" == [';'] + "P:"; Assoc([';'], "P:", password); }
      "WIFI:T:" + e + ";S:" + ssid + ([';'] + tail) + ";;";
    == { Assoc("WIFI:T:" + e + ";S:", ssid, [';'] + tail); Assoc(ssid, [';'], tail); }
      "WIFI:T:" + e + ";S:" + fields + ";;";
    == { assert ";S:" == [';'] + "S:"; Assoc([';'], "S:", fields); Assoc("WIFI:T:" + e, [';'] + "S:", fields); }
      "WIFI:T:" + e + ([';'] + network) + ";;";
    == { Assoc("WIFI:T:", e, [';'] + network); Assoc("WIFI:T:" + e, [';'], network);
         Assoc("WIFI:T:", e + [';'], network); Assoc(e, [';'], network); }
      "WIFI:T:" + (e + [';'] + network) + ";;";
    }
  }

  lemma Assoc(a: string, b: string, c: string)
    ensures a + b + c == a + (b + c)
  {
  }

  /** With a `;` in the SSID two different networks give the same text: the encoder does
      not escape the separators. */
  lemma WifiPayloadAmbiguous()
    ensures WifiPayload(WPA, "a;P:b", "c") == WifiPayload(WPA, "a", "b;P:c")
  {
    assert WifiPayload(WPA, "a;P:b", "c") == "WIFI:T:WPA;S:a;P:b;P:c;;";
    assert WifiPayload(WPA, "a", "b;P:c") == "WIFI:T:WPA;S:a;P:b;P:c;;";
  }

  // --------------------------------------------------------------------------
  // Contact

  /** The four header lines of a card. */
  function HeaderLines(v: FormValues): seq<string> {
    ["BEGIN:VCARD", "VERSION:3.0", NameLine(v), FullNameLine(v)]
  }

  /** The lines of the contact card in their fixed order: the four header lines, then
      TEL, EMAIL and URL when written, then END. */
  function VCardLines(v: FormValues, states: FieldStates): seq<string> {
    HeaderLines(v) + OptionalLines(v, states) + ["END:VCARD"]
  }

  /** A written line wrapped in the optional form. */
  function OptionalLine(present: bool, line: string): seq<string> {
    if present then [line] else []
  }

  /** TEL, EMAIL and URL, each when written. */
  function OptionalLines(v: FormValues, states: FieldStates): seq<string> {
    OptionalLine(HasTel(v), TelLine(v)) + OptionalLine(HasEmail(v, states), EmailLine(v))
    + OptionalLine(HasUrl(v, states), UrlLine(v))
  }

  /** `lines.join("\n")`. */
  function JoinLines(lines: seq<string>): string {
    if |lines| == 0 then ""
    else if |lines| == 1 then lines[0]
    else lines[0] + "\n" + JoinLines(lines[1..])
  }

  /** Every line followed by a line feed, the way the card is appended to. */
  function Terminated(lines: seq<string>): string {
    if |lines| == 0 then "" else Terminated(lines[..|lines| - 1]) + lines[|lines| - 1] + "\n"
  }

  /** `s.split("\n")`. */
  function SplitLines(s: string): seq<string>
    decreases |s|
  {
    var i := IndexOf(s, '\n');
    if i.None? then [s] else [s[..i.value]] + SplitLines(s[i.value + 1..])
  }

  lemma TerminatedSnoc(lines: seq<string>, last: string)
    ensures Terminated(lines + [last]) == Terminated(lines) + last + "\n"
  {
    assert (lines + [last])[..|lines|] == lines;
  }

  lemma {:induction false} TerminatedCons(first: string, lines: seq<string>)
    ensures Terminated([first] + lines) == first + "\n" + Terminated(lines)
  {
    if |lines| == 0 {
      calc {
        Terminated([first] + lines);
      == { assert [first] + lines == [] + [first]; }
        Terminated([] + [first]);
      == { TerminatedSnoc([], first); }
        "" + first + "\n";
      }
    } else {
      var init := lines[..|lines| - 1];
      var last := lines[|lines| - 1];
      calc {
        Terminated([first] + lines);
      == { assert [first] + lines == ([first] + init) + [last]; }
        Terminated(([first] + init) + [last]);
      == { TerminatedSnoc([first] + init, last); }
        Terminated([first] + init) + last + "\n";
      == { TerminatedCons(first, init); }
        first + "\n" + Terminated(init) + last + "\n";
      == { assert init + [last] == lines; TerminatedSnoc(init, last); }
        first + "\n" + Terminated(lines);
      }
    }
  }

  lemma {:induction false} JoinLast(lines: seq<string>, last: string)
    ensures JoinLines(lines + [last]) == Terminated(lines) + last
  {
    if |lines| == 0 {
      assert lines + [last] == [last];
    } else {
      calc {
        JoinLines(lines + [last]);
      == { assert (lines + [last])[1..] == lines[1..] + [last]; }
        lines[0] + "\n" + JoinLines(lines[1..] + [last]);
      == { JoinLast(lines[1..], last); }
        lines[0] + "\n" + Terminated(lines[1..]) + last;
      == { assert [lines[0]] + lines[1..] == lines; TerminatedCons(lines[0], lines[1..]); }
        Terminated(lines) + last;
      }
    }
  }

  /** Joining lines that hold no line feed and splitting again gives the lines back. */
  lemma {:induction false} SplitJoin(lines: seq<string>)
    requires |lines| > 0
    requires forall l :: l in lines ==> '\n' !in l
    ensures SplitLines(JoinLines(lines)) == lines
  {
    if |lines| > 1 {
      var rest := JoinLines(lines[1..]);
      calc {
        SplitLines(JoinLines(lines));
        SplitLines(lines[0] + ['\n'] + rest);
      == { assert lines[0] in lines; SplitAtFirst(lines[0], '\n', rest); }
        [lines[0]] + SplitLines(rest);
      == { assert forall l :: l in lines[1..] ==> l in lines; SplitJoin(lines[1..]); }
        [lines[0]] + lines[1..];
      == { assert lines == [lines[0]] + lines[1..]; }
        lines;
      }
    } else {
      assert lines[0] in lines;
    }
  }

  /** The header the card starts with is its four header lines, each ended by a line feed. */
  lemma HeaderTerminated(v: FormValues)
    ensures Terminated(HeaderLines(v)) == HeaderText(v)
  {
    var l0, l1, l2, l3 := "BEGIN:VCARD", "VERSION:3.0", NameLine(v), FullNameLine(v);
    calc {
      Terminated(HeaderLines(v));
    == { assert HeaderLines(v) == [l0, l1, l2] + [l3]; TerminatedSnoc([l0, l1, l2], l3); }
      Terminated([l0, l1, l2]) + l3 + "\n";
    == { assert [l0, l1, l2] == [l0, l1] + [l2]; TerminatedSnoc([l0, l1], l2); }
      Terminated([l0, l1]) + l2 + "\n" + l3 + "\n";
    == { assert [l0, l1] == [l0] + [l1]; TerminatedSnoc([l0], l1); }
      Terminated([l0]) + l1 + "\n" + l2 + "\n" + l3 + "\n";
    == { assert [l0] == [] + [l0]; TerminatedSnoc([], l0); assert "" + l0 == l0; }
      l0 + "\n" + l1 + "\n" + l2 + "\n" + l3 + "\n";
    }
  }

  lemma {:induction false} TerminatedAppend(a: seq<string>, b: seq<string>)
    ensures Terminated(a + b) == Terminated(a) + Terminated(b)
    decreases |b|
  {
    if |b| == 0 {
      assert a + b == a;
    } else {
      var init := b[..|b| - 1];
      var last := b[|b| - 1];
      calc {
        Terminated(a + b);
      == { assert a + b == (a + init) + [last]; TerminatedSnoc(a + init, last); }
        Terminated(a + init) + last + "\n";
      == { TerminatedAppend(a, init); }
        Terminated(a) + Terminated(init) + last + "\n";
      == { assert b == init + [last]; TerminatedSnoc(init, last); }
        Terminated(a) + Terminated(b);
      }
    }
  }

  lemma TerminatedOptional(lines: seq<string>, present: bool, line: string)
    ensures Terminated(lines + OptionalLine(present, line)) == AppendLineIf(Terminated(lines), present, line)
  {
    if present {
      TerminatedSnoc(lines, line);
    } else {
      assert lines + OptionalLine(present, line) == lines;
    }
  }

  /** The contact payload is its card's lines joined with line feeds: no line feed after
      the last line. */
  lemma ContactPayloadIsJoinedLines(v: FormValues, states: FieldStates)
    requires v.firstName != "" && v.lastName != ""
    ensures ContactPayload(v, states) == JoinLines(VCardLines(v, states))
  {
    var header := HeaderLines(v);
    var t := header + OptionalLine(HasTel(v), TelLine(v));
    var e := t + OptionalLine(HasEmail(v, states), EmailLine(v));
    var u := e + OptionalLine(HasUrl(v, states), UrlLine(v));
    calc {
      ContactPayload(v, states);
      AppendLineIf(AppendLineIf(AppendLineIf(HeaderText(v), HasTel(v), TelLine(v)),
        HasEmail(v, states), EmailLine(v)), HasUrl(v, states), UrlLine(v)) + "END:VCARD";
    == { HeaderTerminated(v); TerminatedOptional(header, HasTel(v), TelLine(v)); }
      AppendLineIf(AppendLineIf(Terminated(t), HasEmail(v, states), EmailLine(v)), HasUrl(v, states), UrlLine(v))
      + "END:VCARD";
    == { TerminatedOptional(t, HasEmail(v, states), EmailLine(v)); }
      AppendLineIf(Terminated(e), HasUrl(v, states), UrlLine(v)) + "END:VCARD";
    == { TerminatedOptional(e, HasUrl(v, states), UrlLine(v)); }
      Terminated(u) + "END:VCARD";
    == { JoinLast(u, "END:VCARD"); }
      JoinLines(u + ["END:VCARD"]);
    == { assert VCardLines(v, states) == u + ["END:VCARD"]; }
      JoinLines(VCardLines(v, states));
    }
  }

  /** The contact tab gives "" unless both names are given. */
  lemma ContactNeedsBothNames(v: FormValues, states: FieldStates)
    requires v.firstName == "" || v.lastName == ""
    ensures GenerateQrData(ContactTab, v, states) == ""
  {
  }

  /** A contact payload starts with its four header lines (`BEGIN:VCARD`, `VERSION:3.0`,
      `N:<last>;<first>`, `FN:<first> <last>`), each ended by a line feed, and ends with `END:VCARD` with no line feed after it. */
  lemma ContactFraming(v: FormValues, states: FieldStates)
    requires v.firstName != "" && v.lastName != ""
    ensures var r := GenerateQrData(ContactTab, v, states);
      IsPrefix(HeaderText(v), r) && IsSuffix("END:VCARD", r)
  {
    var header := HeaderLines(v);
    var optional := OptionalLines(v, states);
    calc {
      GenerateQrData(ContactTab, v, states);
    == { ContactPayloadIsJoinedLines(v, states); }
      JoinLines(header + optional + ["END:VCARD"]);
    == { JoinLast(header + optional, "END:VCARD"); }
      Terminated(header + optional) + "END:VCARD";
    == { TerminatedAppend(header, optional); }
      Terminated(header) + Terminated(optional) + "END:VCARD";
    }
    FramedAffixes(Terminated(header), Terminated(optional), "END:VCARD");
    HeaderTerminated(v);
  }

  /** When no field holds a line feed, the lines of a contact payload are exactly the card's
      lines: the optional TEL, EMAIL and URL lines appear in that order, TEL exactly when a
      phone is given, EMAIL and URL exactly when given and not flagged invalid. */
  lemma ContactLines(v: FormValues, states: FieldStates)
    requires v.firstName != "" && v.lastName != ""
    requires '\n' !in v.firstName && '\n' !in v.lastName && '\n' !in v.contactPhone
    requires '\n' !in v.email && '\n' !in v.website
    ensures SplitLines(GenerateQrData(ContactTab, v, states)) == VCardLines(v, states)
  {
    calc {
      SplitLines(GenerateQrData(ContactTab, v, states));
    == { ContactPayloadIsJoinedLines(v, states); }
      SplitLines(JoinLines(VCardLines(v, states)));
    == { LinesHaveNoLineFeed(v, states); SplitJoin(VCardLines(v, states)); }
      VCardLines(v, states);
    }
  }

  /** No line of the card holds a line feed when no field does. */
  lemma LinesHaveNoLineFeed(v: FormValues, states: FieldStates)
    requires '\n' !in v.firstName && '\n' !in v.lastName && '\n' !in v.contactPhone
    requires '\n' !in v.email && '\n' !in v.website
    ensures forall l :: l in VCardLines(v, states) ==> '\n' !in l
  {
    assert '\n' !in NameLine(v) && '\n' !in FullNameLine(v);
    assert '\n' !in TelLine(v) && '\n' !in EmailLine(v) && '\n' !in UrlLine(v);
    assert forall l :: l in HeaderLines(v) ==> '\n' !in l;
    assert forall l :: l in OptionalLines(v, states) ==> '\n' !in l;
  }

  // --------------------------------------------------------------------------
  // The effect's computation, as the code runs it

  /** The contact branch: `let vcard = header`, then one `+=` per present line and the
      closing `END:VCARD`. */
  method BuildVCard(v: FormValues, states: FieldStates) returns (vcard: string)
    ensures vcard == ContactPayload(v, states)
  {
    if v.firstName == "" || v.lastName == "" {
      return "";
    }
    vcard := HeaderText(v);
    if HasTel(v) {
      vcard := vcard + TelLine(v) + "\n";
    }
    if HasEmail(v, states) {
      vcard := vcard + EmailLine(v) + "\n";
    }
    if HasUrl(v, states) {
      vcard := vcard + UrlLine(v) + "\n";
    }
    vcard := vcard + "END:VCARD";
  }

  /** `generateQrData()`: the switch on the active tab. */
  method ComputeQrData(tab: QrType, v: FormValues, states: FieldStates) returns (data: string)
    ensures data == GenerateQrData(tab, v, states)
  {
    match tab {
      case UrlTab => data := UrlPayload(v.url, states);
      case TextTab => data := v.text;
      case PhoneTab => data := PhonePayload(v.phone);
      case WifiTab => data := WifiPayload(v.encryption, v.ssid, v.password);
      case ContactTab => data := BuildVCard(v, states);
      case OtherTab(_) => data := "";
    }
  }

  // --------------------------------------------------------------------------
  // The component state the effect writes

  /** The generator's state: the tab, the watched form, the field states and `qrData`,
      which the effect recomputes whenever the tab or the form changes. */
  class QrCodeGenerator {
    var activeTab: QrType
    var values: FormValues
    var states: FieldStates
    var qrData: string

    /** `qrData` is what the effect last computed from the current inputs. */
    predicate Valid()
      reads this
    {
      qrData == GenerateQrData(activeTab, values, states)
    }

    /** The initial state: the URL tab, the default form, no field flagged, and the
        initial `qrData`, which is already the URL tab's payload of the defaults. */
    constructor ()
      ensures Valid()
      ensures activeTab == UrlTab && values == DefaultValues && states == FieldStates(false, false, false)
      ensures qrData == "https://firebase.google.com"
    {
      activeTab := UrlTab;
      values := DefaultValues;
      states := FieldStates(false, false, false);
      qrData := "https://firebase.google.com";
    }

    /** The effect: `setQrData(generateQrData())`. */
    method Refresh()
      modifies this`qrData
      ensures Valid()
      ensures qrData == GenerateQrData(activeTab, values, states)
    {
      qrData := ComputeQrData(activeTab, values, states);
    }

    /** `setActiveTab`, followed by the effect. */
    method SelectTab(tab: QrType)
      modifies this
      ensures Valid()
      ensures activeTab == tab && values == old(values) && states == old(states)
      ensures qrData == GenerateQrData(tab, values, states)
    {
      activeTab := tab;
      Refresh();
    }

    /** A form edit, followed by the effect. */
    method Edit(v: FormValues, s: FieldStates)
      modifies this
      ensures Valid()
      ensures activeTab == old(activeTab) && values == v && states == s
      ensures qrData == GenerateQrData(activeTab, v, s)
    {
      values, states := v, s;
      Refresh();
    }
  }
}
