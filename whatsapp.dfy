/** Phone-number normalisation and the WhatsApp order link. Percent-encoding
    of the message is a parameter `encode`: the model treats it as an opaque
    function. */
module WhatsApp {
  import opened Common

  /** `replace(/\D/g, '')`: the ASCII digits of `s`, in order. */
  function DigitsOf(s: string): (r: string)
    ensures AllDigits(r) && |r| <= |s|
  {
    if s == [] then [] else (if IsDigit(s[0]) then [s[0]] else []) + DigitsOf(s[1..])
  }

  lemma {:induction false} DigitsOfDigits(s: string)
    requires AllDigits(s)
    ensures DigitsOf(s) == s
  {
    if s != [] {
      DigitsOfDigits(s[1..]);
    }
  }

  lemma {:induction false} DigitsOfAppend(a: string, b: string)
    ensures DigitsOf(a + b) == DigitsOf(a) + DigitsOf(b)
  {
    if a == [] {
      assert a + b == b;
    } else {
      assert (a + b)[0] == a[0] && (a + b)[1..] == a[1..] + b;
      DigitsOfAppend(a[1..], b);
    }
  }

  /** `formatWhatsAppNumber`: digits only, with the Indonesian country code. */
  function FormatWhatsAppNumber(phoneNumber: string): (r: string)
    ensures AllDigits(r)
    ensures StartsWith(r, "62")
  {
    var cleaned := DigitsOf(phoneNumber);
    if StartsWith(cleaned, "62") then cleaned
    else if StartsWith(cleaned, "0") then "62" + cleaned[1..]
    else "62" + cleaned
  }

  /** Local and international notation reach the same number: a leading 0 and
      a leading +62 in front of the same digits both give 62 and those digits. */
  lemma {:induction false} FormatLocalAndInternational(d: string)
    requires AllDigits(d)
    ensures FormatWhatsAppNumber("0" + d) == "62" + d
    ensures FormatWhatsAppNumber("+62" + d) == "62" + d
  {
    DigitsOfDigits(d);
    DigitsOfDigits("0");
    DigitsOfDigits("62");
    DigitsOfAppend("0", d);
    DigitsOfAppend("+62", d);
    var plus := "+62";
    assert plus[0] == '+' && plus[1..] == "62";
    assert ("0" + d)[1..] == d;
  }

  /** Normalising a normalised number changes nothing. */
  lemma FormatIdempotent(phoneNumber: string)
    ensures FormatWhatsAppNumber(FormatWhatsAppNumber(phoneNumber)) == FormatWhatsAppNumber(phoneNumber)
  {
    DigitsOfDigits(FormatWhatsAppNumber(phoneNumber));
  }

  /** The digits of a number written "+cc aaa bbbb cccc". */
  lemma {:induction false} DigitsOfSpacedNumber(x1: string, x2: string, x3: string, x4: string)
    requires AllDigits(x1) && AllDigits(x2) && AllDigits(x3) && AllDigits(x4)
    ensures DigitsOf("+" + (x1 + (" " + (x2 + (" " + (x3 + (" " + x4))))))) == x1 + (x2 + (x3 + x4))
  {
    DigitsOfDigits(x1);
    DigitsOfDigits(x2);
    DigitsOfDigits(x3);
    DigitsOfDigits(x4);
    DigitsOfSpace(x3, x4);
    DigitsOfSpace(x2, x3 + (" " + x4));
    DigitsOfSpace(x1, x2 + (" " + (x3 + (" " + x4))));
    var rest := x1 + (" " + (x2 + (" " + (x3 + (" " + x4)))));
    assert ("+" + rest)[0] == '+' && ("+" + rest)[1..] == rest;
  }

  lemma {:induction false} DigitsOfSpace(a: string, b: string)
    ensures DigitsOf(a + (" " + b)) == DigitsOf(a) + DigitsOf(b)
  {
    DigitsOfAppend(a, " " + b);
    assert (" " + b)[0] == ' ' && (" " + b)[1..] == b;
  }

  /** The store number the checkout pages pass in, "+62 818 0330 0441",
      written as its groups. */
  const StoreNumber: string := "+" + ("62" + (" " + ("818" + (" " + ("0330" + (" " + "0441"))))))

  /** The number the contact page and the site's static links use as is. */
  const ContactNumber: string := "6281803300441"

  lemma StoreNumberText()
    ensures StoreNumber == "+62 818 0330 0441"
  {
  }

  /** The checkout number normalises to the contact page's number. */
  lemma StoreNumberNormalised()
    ensures FormatWhatsAppNumber(StoreNumber) == ContactNumber
  {
    DigitsOfSpacedNumber("62", "818", "0330", "0441");
    assert DigitsOf(StoreNumber) == ContactNumber;
    assert StartsWith(ContactNumber, "62");
  }

  /** A number that is already digits with the country code is left as it is
      (the contact page's hard-coded recipient is of this form). */
  lemma FormatKeepsNormalised(number: string)
    requires AllDigits(number) && StartsWith(number, "62")
    ensures FormatWhatsAppNumber(number) == number
  {
    DigitsOfDigits(number);
  }

  // ---------------------------------------------------------------------------
  // The order message and the link

  const Greeting: string := "Halo Maxi, saya ingin membeli softlens "
  const GreetingEnd: string := ", berikut:"
  const NameLabel: string := "Nama: "
  const PhoneLabel: string := "No. WA: "
  const AddressLabel: string := "Alamat: "
  const LinkPrefix: string := "https://wa.me/"
  const TextParam: string := "?text="

  /** The message template, before encoding. */
  function OrderMessage(productName: string, customerName: string, customerPhone: string, customerAddress: string): string {
    Greeting + productName + GreetingEnd + "\n\n"
    + NameLabel + customerName + "\n"
    + PhoneLabel + customerPhone + "\n"
    + AddressLabel + customerAddress
  }

  /** `generateWhatsAppLink`. */
  function GenerateWhatsAppLink(
    encode: string -> string,
    phoneNumber: string, productName: string,
    customerName: string, customerPhone: string, customerAddress: string): string
  {
    LinkPrefix + FormatWhatsAppNumber(phoneNumber) + TextParam
    + encode(OrderMessage(productName, customerName, customerPhone, customerAddress))
  }

  // ---------------------------------------------------------------------------
  // Reading a link and a message back

  /** The longest prefix of `s` made of digits. */
  function LeadingDigits(s: string): (d: string)
    ensures |d| <= |s| && d == s[..|d|] && AllDigits(d)
  {
    if s != [] && IsDigit(s[0]) then [s[0]] + LeadingDigits(s[1..]) else []
  }

  lemma {:induction false} LeadingDigitsOf(d: string, rest: string)
    requires AllDigits(d)
    requires rest == [] || !IsDigit(rest[0])
    ensures LeadingDigits(d + rest) == d
  {
    if d == [] {
      assert d + rest == rest;
    } else {
      assert (d + rest)[0] == d[0] && (d + rest)[1..] == d[1..] + rest;
      LeadingDigitsOf(d[1..], rest);
    }
  }

  /** The recipient number and the encoded text of a wa.me link. */
  function LinkParts(link: string): Option<(string, string)> {
    if !StartsWith(link, LinkPrefix) then None
    else
      var afterPrefix := link[|LinkPrefix|..];
      var number := LeadingDigits(afterPrefix);
      var afterNumber := afterPrefix[|number|..];
      if StartsWith(afterNumber, TextParam) then Some((number, afterNumber[|TextParam|..])) else None
  }

  /** A link built from a digit string and a text gives both back. */
  lemma LinkPartsOf(number: string, text: string)
    requires AllDigits(number)
    ensures LinkParts(LinkPrefix + number + TextParam + text) == Some((number, text))
  {
    var link := LinkPrefix + number + TextParam + text;
    assert link == LinkPrefix + (number + (TextParam + text));
    assert link[|LinkPrefix|..] == number + (TextParam + text);
    LeadingDigitsOf(number, TextParam + text);
    assert (number + (TextParam + text))[|number|..] == TextParam + text;
    assert (TextParam + text)[|TextParam|..] == text;
  }

  /** A generated link gives back the normalised number and the encoded
      order message. */
  lemma LinkRoundTrip(
    encode: string -> string,
    phoneNumber: string, productName: string,
    customerName: string, customerPhone: string, customerAddress: string)
    ensures LinkParts(GenerateWhatsAppLink(encode, phoneNumber, productName, customerName, customerPhone, customerAddress))
      == Some((FormatWhatsAppNumber(phoneNumber),
               encode(OrderMessage(productName, customerName, customerPhone, customerAddress))))
  {
    LinkPartsOf(FormatWhatsAppNumber(phoneNumber),
                encode(OrderMessage(productName, customerName, customerPhone, customerAddress)));
  }

  /** The text before the first newline and the text after it. */
  function SplitLine(s: string): Option<(string, string)> {
    if s == [] then None
    else if s[0] == '\n' then Some(([], s[1..]))
    else
      match SplitLine(s[1..])
      case None => None
      case Some(parts) => Some(([s[0]] + parts.0, parts.1))
  }

  lemma {:induction false} SplitLineAt(a: string, b: string)
    requires '\n' !in a
    ensures SplitLine(a + "\n" + b) == Some((a, b))
  {
    if a == [] {
      assert a + "\n" + b == "\n" + b;
    } else {
      assert (a + "\n" + b)[0] == a[0] && (a + "\n" + b)[1..] == a[1..] + "\n" + b;
      SplitLineAt(a[1..], b);
      assert [a[0]] + a[1..] == a;
    }
  }

  datatype OrderFields = OrderFields(productName: string, customerName: string, customerPhone: string, customerAddress: string)

  /** The first five lines of `m`, the last running to the end. */
  function SplitFiveLines(m: string): Option<(string, string, string, string, string)> {
    match SplitLine(m)
    case None => None
    case Some(l0) =>
      match SplitLine(l0.1)
      case None => None
      case Some(l1) =>
        match SplitLine(l1.1)
        case None => None
        case Some(l2) =>
          match SplitLine(l2.1)
          case None => None
          case Some(l3) => Some((l0.0, l1.0, l2.0, l3.0, l3.1))
  }

  /** Five lines joined by newlines are cut back at those newlines. */
  lemma SplitFiveLinesAt(l0: string, l1: string, l2: string, l3: string, l4: string)
    requires '\n' !in l0 && '\n' !in l1 && '\n' !in l2 && '\n' !in l3
    ensures SplitFiveLines(l0 + "\n" + (l1 + "\n" + (l2 + "\n" + (l3 + "\n" + l4))))
      == Some((l0, l1, l2, l3, l4))
  {
    var r2 := l3 + "\n" + l4;
    var r1 := l2 + "\n" + r2;
    var r0 := l1 + "\n" + r1;
    SplitLineAt(l0, r0);
    SplitLineAt(l1, r1);
    SplitLineAt(l2, r2);
    SplitLineAt(l3, l4);
  }

  /** Reads the four fields back out of an order message. */
  function ParseOrderMessage(m: string): Option<OrderFields> {
    match SplitFiveLines(m)
    case None => None
    case Some(lines) => FieldsOfLines(lines.0, lines.1, lines.2, lines.3, lines.4)
  }

  /** The fields of a message already cut into its five lines. */
  function FieldsOfLines(first: string, blank: string, nameLine: string, phoneLine: string, addressLine: string): Option<OrderFields> {
    if blank == "" && StartsWith(first, Greeting) && |first| >= |Greeting| + |GreetingEnd|
       && first[|first| - |GreetingEnd|..] == GreetingEnd
       && StartsWith(nameLine, NameLabel) && StartsWith(phoneLine, PhoneLabel) && StartsWith(addressLine, AddressLabel)
    then Some(OrderFields(first[|Greeting|..|first| - |GreetingEnd|],
                          nameLine[|NameLabel|..], phoneLine[|PhoneLabel|..], addressLine[|AddressLabel|..]))
    else None
  }

  /** The labelled lines of an order give back the fields they label. */
  lemma FieldsOfOrderLines(productName: string, customerName: string, customerPhone: string, customerAddress: string)
    ensures FieldsOfLines(Greeting + productName + GreetingEnd, "", NameLabel + customerName,
                          PhoneLabel + customerPhone, AddressLabel + customerAddress)
      == Some(OrderFields(productName, customerName, customerPhone, customerAddress))
  {
    var first := Greeting + productName + GreetingEnd;
    assert first[|Greeting|..|first| - |GreetingEnd|] == productName;
    assert first[|first| - |GreetingEnd|..] == GreetingEnd;
    assert (NameLabel + customerName)[|NameLabel|..] == customerName;
    assert (PhoneLabel + customerPhone)[|PhoneLabel|..] == customerPhone;
    assert (AddressLabel + customerAddress)[|AddressLabel|..] == customerAddress;
  }

  /** The order message is its five lines joined by newlines. */
  lemma OrderMessageLines(productName: string, customerName: string, customerPhone: string, customerAddress: string)
    ensures OrderMessage(productName, customerName, customerPhone, customerAddress)
      == (Greeting + productName + GreetingEnd) + "\n" + ("" + "\n" + ((NameLabel + customerName) + "\n"
         + ((PhoneLabel + customerPhone) + "\n" + (AddressLabel + customerAddress))))
  {
  }

  /** The first three lines hold no newline when the values in them hold none. */
  lemma OrderLinesOneLine(productName: string, customerName: string, customerPhone: string)
    requires '\n' !in productName && '\n' !in customerName && '\n' !in customerPhone
    ensures '\n' !in Greeting + productName + GreetingEnd
    ensures '\n' !in NameLabel + customerName
    ensures '\n' !in PhoneLabel + customerPhone
  {
  }

  /** The message embeds product, customer name, phone and address in that
      order and unambiguously: when the first three hold no newline, all four
      can be read back. */
  lemma OrderMessageRoundTrip(productName: string, customerName: string, customerPhone: string, customerAddress: string)
    requires '\n' !in productName && '\n' !in customerName && '\n' !in customerPhone
    ensures ParseOrderMessage(OrderMessage(productName, customerName, customerPhone, customerAddress))
      == Some(OrderFields(productName, customerName, customerPhone, customerAddress))
  {
    OrderMessageLines(productName, customerName, customerPhone, customerAddress);
    OrderLinesOneLine(productName, customerName, customerPhone);
    SplitFiveLinesAt(Greeting + productName + GreetingEnd, "", NameLabel + customerName,
                     PhoneLabel + customerPhone, AddressLabel + customerAddress);
    FieldsOfOrderLines(productName, customerName, customerPhone, customerAddress);
  }
}
