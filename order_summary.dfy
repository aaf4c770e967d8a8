/** The confirmation step's summary: the delivery address on one line and the
    label of the chosen way to pay. */
module OrderSummary {
  import opened Text
  import opened Masks
  import opened Checkout

  const CreditPrefix: string := "Cartão de Crédito ("
  const DebitLabel: string := "Cartão de Débito"
  const PixLabel: string := "PIX"
  const CashLabel: string := "Dinheiro"

  /** What the page hands to the summary: the method, and the card only for 'credit'. */
  datatype Payment = Payment(kind: string, cardData: Option<CardData>)

  // --------------------------------------------------------------- address

  /** `filter(Boolean)` over strings: the empty ones are dropped, order kept. */
  function KeepNonEmpty(parts: seq<string>): (kept: seq<string>)
    ensures |kept| <= |parts|
    ensures forall i :: 0 <= i < |kept| ==> kept[i] != [] && kept[i] in parts
  {
    if parts == [] then []
    else (if parts[0] != [] then [parts[0]] else []) + KeepNonEmpty(parts[1..])
  }

  /** The five fields shown, in display order; the reference is not among them. */
  function AddressParts(a: Address): seq<string> {
    [a.street, a.number, a.complement, a.neighborhood, a.city]
  }

  /** `formatAddress`: the non-empty fields joined by ", ". */
  function FormatAddress(a: Address): string {
    Join(KeepNonEmpty(AddressParts(a)), ", ")
  }

  /** Joining non-empty parts gives the empty string only for no parts at all. */
  lemma JoinNonEmptyParts(parts: seq<string>, sep: string)
    requires forall i :: 0 <= i < |parts| ==> parts[i] != []
    ensures Join(parts, sep) == [] <==> parts == []
  {
    if |parts| > 1 {
      assert |Join(parts, sep)| >= |parts[0]|;
    }
  }

  lemma {:induction false} KeepNonEmptyOfNonEmpty(parts: seq<string>)
    requires forall i :: 0 <= i < |parts| ==> parts[i] != []
    ensures KeepNonEmpty(parts) == parts
  {
    if parts != [] {
      KeepNonEmptyOfNonEmpty(parts[1..]);
      assert [parts[0]] + parts[1..] == parts;
    }
  }

  lemma {:induction false} KeepNonEmptyOfEmpty(parts: seq<string>)
    ensures KeepNonEmpty(parts) == [] <==> forall i :: 0 <= i < |parts| ==> parts[i] == []
  {
    if parts != [] {
      KeepNonEmptyOfEmpty(parts[1..]);
      assert forall i :: 1 <= i < |parts| ==> parts[i] == parts[1..][i - 1];
    }
  }

  /** The address line is empty exactly when all five shown fields are empty. */
  lemma FormatAddressEmptyIff(a: Address)
    ensures FormatAddress(a) == []
        <==> a.street == [] && a.number == [] && a.complement == [] && a.neighborhood == [] && a.city == []
  {
    var parts := AddressParts(a);
    KeepNonEmptyOfEmpty(parts);
    JoinNonEmptyParts(KeepNonEmpty(parts), ", ");
    assert parts[0] == a.street && parts[1] == a.number && parts[2] == a.complement;
    assert parts[3] == a.neighborhood && parts[4] == a.city;
  }

  /** The reference never shows: changing it leaves the line as it was. */
  lemma FormatAddressIgnoresReference(a: Address, reference: string)
    ensures FormatAddress(a.(reference := reference)) == FormatAddress(a)
  {
    assert AddressParts(a.(reference := reference)) == AddressParts(a);
  }

  /** One more part in front adds it and a separator. */
  lemma JoinCons(x: string, rest: seq<string>, sep: string)
    requires rest != []
    ensures Join([x] + rest, sep) == x + sep + Join(rest, sep)
  {
    assert ([x] + rest)[1..] == rest;
  }

  /** Four non-empty parts in front of a fifth, joined in order. */
  lemma JoinFive(p: string, q: string, r: string, s: string, t: string, sep: string)
    ensures Join([p, q, r, s, t], sep) == p + sep + q + sep + r + sep + s + sep + t
  {
    JoinCons(s, [t], sep);
    assert [s, t] == [s] + [t];
    JoinCons(r, [s, t], sep);
    assert [r, s, t] == [r] + [s, t];
    JoinCons(q, [r, s, t], sep);
    assert [q, r, s, t] == [q] + [r, s, t];
    JoinCons(p, [q, r, s, t], sep);
    assert [p, q, r, s, t] == [p] + [q, r, s, t];
  }

  lemma JoinFour(p: string, q: string, s: string, t: string, sep: string)
    ensures Join([p, q, s, t], sep) == p + sep + q + sep + s + sep + t
  {
    JoinCons(s, [t], sep);
    assert [s, t] == [s] + [t];
    JoinCons(q, [s, t], sep);
    assert [q, s, t] == [q] + [s, t];
    JoinCons(p, [q, s, t], sep);
    assert [p, q, s, t] == [p] + [q, s, t];
  }

  /** With every field filled, even by spaces alone, all five show in order. */
  lemma FormatAddressFull(a: Address)
    requires a.street != [] && a.number != [] && a.complement != []
    requires a.neighborhood != [] && a.city != []
    ensures FormatAddress(a)
         == a.street + ", " + a.number + ", " + a.complement + ", " + a.neighborhood + ", " + a.city
  {
    KeepNonEmptyOfNonEmpty(AddressParts(a));
    JoinFive(a.street, a.number, a.complement, a.neighborhood, a.city, ", ");
  }

  /** An empty complement leaves no empty segment: the other four are joined directly. */
  lemma FormatAddressWithoutComplement(a: Address)
    requires a.street != [] && a.number != [] && a.complement == []
    requires a.neighborhood != [] && a.city != []
    ensures FormatAddress(a) == a.street + ", " + a.number + ", " + a.neighborhood + ", " + a.city
  {
    var tail := [a.neighborhood, a.city];
    var fromComplement := [a.complement] + tail;
    var fromNumber := [a.number] + fromComplement;
    var shown := [a.street, a.number, a.neighborhood, a.city];
    calc {
      KeepNonEmpty(AddressParts(a));
      { assert AddressParts(a) == [a.street] + fromNumber; }
      KeepNonEmpty([a.street] + fromNumber);
      { KeepNonEmptyCons(a.street, fromNumber); }
      [a.street] + KeepNonEmpty(fromNumber);
      { KeepNonEmptyCons(a.number, fromComplement); }
      [a.street] + ([a.number] + KeepNonEmpty(fromComplement));
      { KeepNonEmptyCons(a.complement, tail); KeepNonEmptyOfNonEmpty(tail); }
      [a.street] + ([a.number] + tail);
      shown;
    }
    JoinFour(a.street, a.number, a.neighborhood, a.city, ", ");
  }

  /** The filter looks at one part at a time. */
  lemma KeepNonEmptyCons(x: string, rest: seq<string>)
    ensures KeepNonEmpty([x] + rest) == (if x != [] then [x] else []) + KeepNonEmpty(rest)
  {
    assert ([x] + rest)[1..] == rest;
  }

  // --------------------------------------------------------------- payment

  /** `s.slice(-4)`: the last four characters, or all of a shorter string. */
  function LastFour(s: string): (r: string)
    ensures |r| == Min(4, |s|)
    ensures r == s[|s| - |r|..]
  {
    if |s| >= 4 then s[|s| - 4..] else s
  }

  /** `formatPaymentMethod`. An absent card under 'credit' prints as "undefined". */
  function FormatPaymentMethod(p: Payment): string {
    match p.kind
    case "credit" =>
      CreditPrefix + (if p.cardData.Some? then LastFour(p.cardData.value.number) else "undefined") + ")"
    case "debit" => DebitLabel
    case "pix" => PixLabel
    case _ => CashLabel
  }

  /** A credit card's label shows at most its last four characters as typed,
      between the prefix and a closing parenthesis. */
  lemma CreditLabelShowsLastFour(c: CardData)
    ensures var shown := FormatPaymentMethod(Payment("credit", Some(c)));
            && |shown| == |CreditPrefix| + Min(4, |c.number|) + 1
            && shown[..|CreditPrefix|] == CreditPrefix
            && shown[|shown| - 1] == ')'
            && shown[|CreditPrefix|..|shown| - 1] == c.number[|c.number| - Min(4, |c.number|)..]
  {
  }

  /** A fully typed, masked card number shows its last four digits. */
  lemma MaskedCardLabel(c: CardData, typed: string)
    requires |Digits(typed)| == 16 && c.number == MaskCreditCard(typed)
    ensures FormatPaymentMethod(Payment("credit", Some(c))) == CreditPrefix + Digits(typed)[12..] + ")"
  {
    MaskSixteenDigits(typed);
  }

  /** The other labels: debit, PIX, and cash for every other method name. */
  lemma OtherPaymentLabels(p: Payment)
    requires p.kind != "credit"
    ensures p.kind == "debit" ==> FormatPaymentMethod(p) == DebitLabel
    ensures p.kind == "pix" ==> FormatPaymentMethod(p) == PixLabel
    ensures p.kind != "debit" && p.kind != "pix" ==> FormatPaymentMethod(p) == CashLabel
  {
  }

  /** The four labels are told apart: each names one way to pay. */
  lemma PaymentLabelsDistinct(p: Payment, q: Payment)
    requires p.kind in {"credit", "debit", "pix", "cash"} && q.kind in {"credit", "debit", "pix", "cash"}
    requires FormatPaymentMethod(p) == FormatPaymentMethod(q)
    ensures p.kind == q.kind
  {
    var credit, debit := FormatPaymentMethod(Payment("credit", p.cardData)), DebitLabel;
    assert credit[10] == 'C' && DebitLabel[10] == 'D';
  }
}
