/**
 * Payment statements for an agency: the approved commissions of one period
 * summed into a subtotal, consumption tax, withholding tax for individual
 * agencies, the statement number's year-month key, the line items, and the
 * two handlers that issue a statement and resend its email.
 *
 * Amounts are whole yen. The database, the PDF renderer, the mail service and
 * the clock are parameters: each effect's outcome is given, and the model says
 * what is written and answered for every combination.
 */
module Invoice {
  import opened Wrappers
  import opened JsText
  import opened AgencyAuth

  /** A row of `agency_commissions` with the service name joined in. */
  datatype Commission = Commission(
    id: string, agencyId: string, serviceId: string, serviceName: Option<string>,
    periodStart: string, periodEnd: string, status: string,
    amount: Option<int>, totalSales: Option<int>, rate: Option<int>, totalConversions: Option<int>)

  /** The agency row the statement copies its details from. */
  datatype Agency = Agency(id: string, name: string, entityType: Option<string>,
                           contactEmail: Option<string>, isQualifiedIssuer: Option<bool>)

  /** A commission counts toward a statement: same agency, exactly the same period, approved. */
  predicate Eligible(c: Commission, agencyId: string, periodStart: string, periodEnd: string) {
    c.agencyId == agencyId && c.periodStart == periodStart && c.periodEnd == periodEnd && c.status == "approved"
  }

  /** The commissions query: the eligible rows, in table order. */
  function EligibleRows(rows: seq<Commission>, agencyId: string, periodStart: string, periodEnd: string): (r: seq<Commission>)
    ensures |r| <= |rows|
    ensures forall c :: c in r <==> c in rows && Eligible(c, agencyId, periodStart, periodEnd)
  {
    if rows == [] then []
    else
      var rest := EligibleRows(rows[1..], agencyId, periodStart, periodEnd);
      assert forall c :: c in rows <==> c == rows[0] || c in rows[1..];
      if Eligible(rows[0], agencyId, periodStart, periodEnd) then [rows[0]] + rest else rest
  }

  /**
   * The query keeps table order: the rows of a concatenation are the rows of
   * each part in turn, and a single commission is kept exactly when eligible.
   */
  lemma {:induction false} EligibleRowsPreservesOrder(a: seq<Commission>, b: seq<Commission>, c: Commission,
                                                      agencyId: string, periodStart: string, periodEnd: string)
    ensures EligibleRows(a + b, agencyId, periodStart, periodEnd)
         == EligibleRows(a, agencyId, periodStart, periodEnd) + EligibleRows(b, agencyId, periodStart, periodEnd)
    ensures EligibleRows([c], agencyId, periodStart, periodEnd)
         == if Eligible(c, agencyId, periodStart, periodEnd) then [c] else []
    decreases |a|
  {
    assert [c][1..] == [];
    if a == [] {
      assert a + b == b;
    } else {
      var head := if Eligible(a[0], agencyId, periodStart, periodEnd) then [a[0]] else [];
      var restA := EligibleRows(a[1..], agencyId, periodStart, periodEnd);
      var restB := EligibleRows(b, agencyId, periodStart, periodEnd);
      assert (a + b)[0] == a[0];
      assert (a + b)[1..] == a[1..] + b;
      assert EligibleRows(a + b, agencyId, periodStart, periodEnd)
          == head + EligibleRows(a[1..] + b, agencyId, periodStart, periodEnd);
      assert EligibleRows(a, agencyId, periodStart, periodEnd) == head + restA;
      EligibleRowsPreservesOrder(a[1..], b, c, agencyId, periodStart, periodEnd);
      assert head + (restA + restB) == (head + restA) + restB;
    }
  }

  /** `parseFloat(c.commission_amount || 0)`: a missing amount counts as zero. */
  function Amount(c: Commission): int {
    c.amount.GetOr(0)
  }

  /** The `reduce` over the commissions: the sum of their amounts. */
  function Subtotal(cs: seq<Commission>): int
    decreases |cs|
  {
    if cs == [] then 0 else Amount(cs[0]) + Subtotal(cs[1..])
  }

  predicate NonNegativeAmounts(cs: seq<Commission>) {
    forall k :: 0 <= k < |cs| ==> Amount(cs[k]) >= 0
  }

  lemma {:induction false} SubtotalNonNegative(cs: seq<Commission>)
    requires NonNegativeAmounts(cs)
    ensures Subtotal(cs) >= 0
    decreases |cs|
  {
    if cs != [] {
      assert Amount(cs[0]) >= 0;
      SubtotalNonNegative(cs[1..]);
    }
  }

  const TaxRatePercent: int := 10

  /** `Math.floor(subtotal * 0.1)`: ten percent, rounded down. */
  function TaxAmount(subtotal: int): (r: int)
    ensures r * 10 <= subtotal < r * 10 + 10
  {
    subtotal / 10
  }

  /** Withholding tax: the displayed rate in hundredths of a percent, and the amount. */
  datatype Withholding = Withholding(rateHundredths: int, amount: int)

  const WithholdingThreshold: int := 1000000

  /**
   * Withholding on the tax-inclusive total `t` for an individual agency:
   * 10.21% up to one million yen and 20.42% on the part above, each rounded
   * down; nothing for any other entity type.
   */
  function WithholdingTax(entityType: Option<string>, t: int): (w: Withholding)
    ensures entityType != Some("individual") ==> w == Withholding(0, 0)
    ensures entityType == Some("individual") ==> w.rateHundredths == 1021
    ensures entityType == Some("individual") && t <= WithholdingThreshold ==>
      t * 1021 - 10000 < w.amount * 10000 <= t * 1021
    ensures entityType == Some("individual") && t > WithholdingThreshold ==>
      var excess := t - WithholdingThreshold;
      excess * 2042 - 10000 < (w.amount - 102100) * 10000 <= excess * 2042
  {
    if entityType != Some("individual") then Withholding(0, 0)
    else if t <= WithholdingThreshold then Withholding(1021, t * 1021 / 10000)
    else Withholding(1021, 102100 + (t - WithholdingThreshold) * 2042 / 10000)
  }

  /** Withholding never exceeds the amount it is taken from, nor 20.42% of it. */
  lemma WithholdingBounded(entityType: Option<string>, t: int)
    requires t >= 0
    ensures 0 <= WithholdingTax(entityType, t).amount <= t
    ensures WithholdingTax(entityType, t).amount * 10000 <= t * 2042
  {
  }

  /** A larger total never has less withheld. */
  lemma WithholdingMonotone(entityType: Option<string>, t1: int, t2: int)
    requires t1 <= t2
    ensures WithholdingTax(entityType, t1).amount <= WithholdingTax(entityType, t2).amount
  {
    var w1 := WithholdingTax(entityType, t1).amount;
    var w2 := WithholdingTax(entityType, t2).amount;
    if entityType == Some("individual") {
      if t2 <= WithholdingThreshold {
        assert (w1 - w2) * 10000 < (t1 - t2) * 1021 + 10000;
      } else if t1 > WithholdingThreshold {
        assert (w1 - w2) * 10000 < (t1 - t2) * 2042 + 10000;
      } else {
        assert w1 * 10000 <= 102100 * 10000;
        assert (w2 - 102100) * 10000 > -10000;
      }
    }
  }

  /** The two tiers meet without a jump: one million yen and one yen more withhold the same. */
  lemma WithholdingContinuousAtThreshold()
    ensures WithholdingTax(Some("individual"), WithholdingThreshold).amount == 102100
    ensures WithholdingTax(Some("individual"), WithholdingThreshold + 1).amount == 102100
  {
  }

  /** The statement's figures. */
  datatype Amounts = Amounts(subtotal: int, taxRate: int, taxAmount: int,
                             withholdingRate: int, withholdingAmount: int, total: int)

  /**
   * Subtotal of the commissions, tax on it, withholding on subtotal plus
   * tax, and the total payable after withholding.
   */
  function ComputeAmounts(entityType: Option<string>, cs: seq<Commission>): (a: Amounts)
    ensures a.subtotal == Subtotal(cs) && a.taxRate == TaxRatePercent
    ensures a.taxAmount * 10 <= a.subtotal < a.taxAmount * 10 + 10
    ensures a.total == a.subtotal + a.taxAmount - a.withholdingAmount
    ensures Withholding(a.withholdingRate, a.withholdingAmount) == WithholdingTax(entityType, a.subtotal + a.taxAmount)
    ensures entityType != Some("individual") ==> a.withholdingRate == 0 && a.withholdingAmount == 0
    ensures a.subtotal >= 0 ==>
      && 0 <= a.taxAmount && 0 <= a.withholdingAmount
      && 0 <= a.total <= a.subtotal + a.taxAmount
    ensures NonNegativeAmounts(cs) ==> a.subtotal >= 0
  {
    var subtotal := Subtotal(cs);
    var tax := TaxAmount(subtotal);
    var w := WithholdingTax(entityType, subtotal + tax);
    assert NonNegativeAmounts(cs) ==> subtotal >= 0 by {
      if NonNegativeAmounts(cs) {
        SubtotalNonNegative(cs);
      }
    }
    assert subtotal >= 0 ==> 0 <= w.amount <= subtotal + tax by {
      if subtotal >= 0 {
        WithholdingBounded(entityType, subtotal + tax);
      }
    }
    Amounts(subtotal, TaxRatePercent, tax, w.rateHundredths, w.amount, subtotal + tax - w.amount)
  }

  /**
   * The statement number's key: the year in decimal digits followed by the
   * month padded to two digits.
   */
  function YearMonth(year: nat, month: int): (r: string)
    requires 1 <= month <= 12
    ensures |r| == |Decimal(year)| + 2
    ensures forall k :: 0 <= k < |r| ==> IsDigitOf(r[k], 10)
    ensures ParseDigits(r, 10) == year * 100 + month
  {
    var y := Decimal(year);
    var m := Pad2(month);
    var r := y + m;
    assert r == (y + [m[0]]) + [m[1]];
    ParseDigitsSnoc(y, m[0], 10);
    ParseDigitsSnoc(y + [m[0]], m[1], 10);
    assert m == ([] + [m[0]]) + [m[1]];
    ParseDigitsSnoc([], m[0], 10);
    ParseDigitsSnoc([m[0]], m[1], 10);
    ParseDigitsRoundTrip(year, 10);
    assert forall k :: 0 <= k < |r| ==> r[k] == (if k < |y| then y[k] else m[k - |y|]);
    r
  }

  /** Different months never share a key, so statement numbers never collide across months. */
  lemma YearMonthInjective(y1: nat, m1: int, y2: nat, m2: int)
    requires 1 <= m1 <= 12 && 1 <= m2 <= 12
    requires YearMonth(y1, m1) == YearMonth(y2, m2)
    ensures y1 == y2 && m1 == m2
  {
    assert (y1 - y2) * 100 == m2 - m1;
  }

  /** A line of `invoice_items`. */
  datatype Item = Item(invoiceId: string, serviceId: string, serviceName: string, commissionId: string,
                       description: string, quantity: int, conversionCount: Option<int>,
                       totalSales: int, rate: int, unitPrice: int, amount: int, sortOrder: int)

  const DefaultServiceName: string := "サービス"

  /** The line for the commission at position `index`. */
  function ItemFor(invoiceId: string, c: Commission, index: int): (r: Item)
    ensures r.commissionId == c.id && r.serviceId == c.serviceId && r.sortOrder == index
    ensures r.quantity == 1 && r.unitPrice == r.amount == Amount(c)
    ensures r.serviceName == (if Truthy(c.serviceName) then c.serviceName.value else DefaultServiceName)
    ensures r.description == r.serviceName + " コミッション"
  {
    var name := if Truthy(c.serviceName) then c.serviceName.value else DefaultServiceName;
    Item(invoiceId, c.serviceId, name, c.id, name + " コミッション", 1, c.totalConversions,
         c.totalSales.GetOr(0), c.rate.GetOr(0), Amount(c), Amount(c), index)
  }

  /** One line per commission, in the same order, numbered from zero. */
  function Items(invoiceId: string, cs: seq<Commission>): (r: seq<Item>)
    ensures |r| == |cs|
    ensures forall k :: 0 <= k < |r| ==> r[k] == ItemFor(invoiceId, cs[k], k)
  {
    seq(|cs|, k requires 0 <= k < |cs| => ItemFor(invoiceId, cs[k], k))
  }

  function ItemsTotal(items: seq<Item>): int
    decreases |items|
  {
    if items == [] then 0 else items[0].amount + ItemsTotal(items[1..])
  }

  lemma {:induction false} TotalsAgree(items: seq<Item>, cs: seq<Commission>)
    requires |items| == |cs|
    requires forall k :: 0 <= k < |cs| ==> items[k].amount == Amount(cs[k])
    ensures ItemsTotal(items) == Subtotal(cs)
    decreases |cs|
  {
    if cs != [] {
      assert items[0].amount == Amount(cs[0]);
      TotalsAgree(items[1..], cs[1..]);
    }
  }

  /** The lines of a statement add up to its subtotal. */
  lemma ItemsAddUpToSubtotal(invoiceId: string, cs: seq<Commission>)
    ensures ItemsTotal(Items(invoiceId, cs)) == Subtotal(cs)
  {
    TotalsAgree(Items(invoiceId, cs), cs);
  }

  // ---------------------------------------------------------------------------
  // Issuing a statement
  // ---------------------------------------------------------------------------

  /** What the mail service reported: sent, or failed with an error message when it had one. */
  datatype EmailResult = Sent | Failed(error: Option<string>)

  /** A row of `invoices`, with the fields the handlers read or write. */
  datatype StoredInvoice = StoredInvoice(
    id: string, number: string, agencyId: string, agencyName: string, contactEmail: Option<string>,
    entityType: string, periodStart: string, periodEnd: string, amounts: Amounts, isQualified: bool,
    status: string, emailStatus: Option<string>, emailError: Option<string>,
    emailRecipient: Option<string>, emailSent: bool)

  /**
   * The outcome of the issuing steps after the figures are known: the number
   * the numbering procedure returned (None on error), the id of the inserted
   * row (None on error), whether the lines were inserted,
   * whether the commissions were linked to it, whether the PDF was produced,
   * what the mail service said, and whether the final update worked.
   */
  datatype IssueEffects = IssueEffects(number: Option<string>, insertedId: Option<string>, itemsInserted: bool,
                                       linked: bool, pdfMade: bool, email: EmailResult, updated: bool)

  /** Everything the handler answers and writes. */
  datatype Issued = Issued(status: int, yearMonth: Option<string>, invoice: Option<StoredInvoice>,
                           items: seq<Item>, linkedCommissions: seq<string>, reportedStatus: Option<string>)

  function Ids(cs: seq<Commission>): (r: seq<string>)
    ensures |r| == |cs| && forall k :: 0 <= k < |r| ==> r[k] == cs[k].id
  {
    seq(|cs|, k requires 0 <= k < |cs| => cs[k].id)
  }

  function Refused(status: int): Issued {
    Issued(status, None, None, [], [], None)
  }

  /**
   * The issuing handler: after the method and token checks, the period must
   * be given, the agency found and at least one eligible commission exist.
   * Then the number is drawn, a draft row inserted, its lines inserted, the
   * commissions linked, the PDF made and mailed, and the row moved to
   * `issued` with the email outcome. A failure after the insert leaves the
   * draft behind; a failed link-up or final update goes unchecked, and the
   * answer still says `issued`.
   */
  function IssueInvoice(httpMethod: string, authorization: Option<string>, agencyHeader: Option<string>,
                        verify: string -> Jwt, periodStart: Option<string>, periodEnd: Option<string>,
                        agency: Option<Agency>, commissions: Query<seq<Commission>>,
                        year: nat, month: int, fx: IssueEffects): (r: Issued)
    requires 1 <= month <= 12
    ensures httpMethod == "OPTIONS" ==> r == Refused(200)
    ensures httpMethod != "OPTIONS" && httpMethod != "POST" ==> r == Refused(405)
    ensures httpMethod == "POST" && CheckAgencyHeader(authorization, agencyHeader, verify).Reject? ==>
      r == Refused(CheckAgencyHeader(authorization, agencyHeader, verify).status)
    ensures (&& httpMethod == "POST" && CheckAgencyHeader(authorization, agencyHeader, verify).Pass?
             && !(Truthy(periodStart) && Truthy(periodEnd))) ==> r == Refused(400)
    ensures (&& httpMethod == "POST" && CheckAgencyHeader(authorization, agencyHeader, verify).Pass?
             && Truthy(periodStart) && Truthy(periodEnd)
             && (agency.None? || commissions.QueryError?)) ==> r == Refused(500)
    ensures (&& httpMethod == "POST" && CheckAgencyHeader(authorization, agencyHeader, verify).Pass?
             && Truthy(periodStart) && Truthy(periodEnd) && agency.Some? && commissions.Rows?) ==>
      var cs := EligibleRows(commissions.rows, CheckAgencyHeader(authorization, agencyHeader, verify).agencyId,
                             periodStart.value, periodEnd.value);
      && (cs == [] ==> r == Refused(400))
      && (cs != [] && (fx.number.None? || fx.insertedId.None?) ==> r.status == 500 && r.invoice.None?)
      && (cs != [] && fx.number.Some? && fx.insertedId.Some? ==>
            && r.invoice.Some? && r.yearMonth == Some(YearMonth(year, month))
            && (r.status == 200 <==> fx.itemsInserted && fx.pdfMade)
            && (r.status != 200 ==> r.status == 500))
    ensures r.status == 200 && r.invoice.Some? ==> r.items != [] && r.reportedStatus == Some("issued")
    ensures r.invoice.Some? ==>
      && httpMethod == "POST" && agency.Some? && commissions.Rows? && fx.number.Some? && fx.insertedId.Some?
      && var a := agency.value;
         var id := CheckAgencyHeader(authorization, agencyHeader, verify).agencyId;
         var cs := EligibleRows(commissions.rows, id, periodStart.value, periodEnd.value);
         && CheckAgencyHeader(authorization, agencyHeader, verify).Pass?
         && cs != []
         && r.invoice.value.agencyId == id
         && r.invoice.value.id == fx.insertedId.value && r.invoice.value.number == fx.number.value
         && r.invoice.value.amounts == ComputeAmounts(a.entityType, cs)
         && r.yearMonth == Some(YearMonth(year, month))
         && r.items == (if fx.itemsInserted then Items(fx.insertedId.value, cs) else [])
         && r.linkedCommissions == (if fx.itemsInserted && fx.linked then Ids(cs) else [])
         && (r.status == 200 <==> fx.itemsInserted && fx.pdfMade)
         && (r.status != 200 ==> r.status == 500 && r.invoice.value.status == "draft")
         && (r.status == 200 ==>
               && r.invoice.value.status == (if fx.updated then "issued" else "draft")
               && (fx.updated ==> (r.invoice.value.emailStatus == Some("sent") <==> fx.email.Sent?)))
  {
    if httpMethod == "OPTIONS" then Refused(200)
    else if httpMethod != "POST" then Refused(405)
    else match CheckAgencyHeader(authorization, agencyHeader, verify)
      case Reject(s) => Refused(s)
      case Pass(agencyId) =>
        if !Truthy(periodStart) || !Truthy(periodEnd) then Refused(400)
        else if agency.None? then Refused(500)
        else if commissions.QueryError? then Refused(500)
        else
          var cs := EligibleRows(commissions.rows, agencyId, periodStart.value, periodEnd.value);
          if cs == [] then Refused(400)
          else
            var a := agency.value;
            var amounts := ComputeAmounts(a.entityType, cs);
            var ym := YearMonth(year, month);
            if fx.number.None? then Issued(500, Some(ym), None, [], [], None)
            else if fx.insertedId.None? then Issued(500, Some(ym), None, [], [], None)
            else
              var draft := StoredInvoice(
                fx.insertedId.value, fx.number.value, agencyId, a.name, a.contactEmail,
                if Truthy(a.entityType) then a.entityType.value else "corporation",
                periodStart.value, periodEnd.value, amounts, a.isQualifiedIssuer.GetOr(false),
                "draft", None, None, None, false);
              if !fx.itemsInserted then Issued(500, Some(ym), Some(draft), [], [], None)
              else
                var items := Items(draft.id, cs);
                var linked := if fx.linked then Ids(cs) else [];
                if !fx.pdfMade then Issued(500, Some(ym), Some(draft), items, linked, None)
                else
                  var sent := fx.email.Sent?;
                  var error := if fx.email.Failed? && Truthy(fx.email.error) then fx.email.error else None;
                  var final := if fx.updated then
                      draft.(status := "issued", emailStatus := Some(if sent then "sent" else "failed"),
                             emailError := error, emailRecipient := a.contactEmail, emailSent := sent)
                    else draft;
                  Issued(200, Some(ym), Some(final), items, linked, Some("issued"))
  }

  /** Whether the commissions were linked and the final update worked never changes the answer. */
  lemma IssueAnswerIgnoresUncheckedWrites(httpMethod: string, authorization: Option<string>, agencyHeader: Option<string>,
                                          verify: string -> Jwt, periodStart: Option<string>, periodEnd: Option<string>,
                                          agency: Option<Agency>, commissions: Query<seq<Commission>>,
                                          year: nat, month: int, fx: IssueEffects, linked: bool, updated: bool)
    requires 1 <= month <= 12
    ensures var r1 := IssueInvoice(httpMethod, authorization, agencyHeader, verify, periodStart, periodEnd,
                                   agency, commissions, year, month, fx);
            var r2 := IssueInvoice(httpMethod, authorization, agencyHeader, verify, periodStart, periodEnd,
                                   agency, commissions, year, month, fx.(linked := linked, updated := updated));
      r1.status == r2.status && r1.reportedStatus == r2.reportedStatus && r1.items == r2.items
  {
  }

  /** A failed final update leaves a draft that the answer calls issued. */
  lemma FailedUpdateReportsIssuedDraft(authorization: Option<string>, agencyHeader: Option<string>,
                                       verify: string -> Jwt, periodStart: Option<string>, periodEnd: Option<string>,
                                       agency: Option<Agency>, commissions: Query<seq<Commission>>,
                                       year: nat, month: int, fx: IssueEffects)
    requires 1 <= month <= 12 && !fx.updated
    requires IssueInvoice("POST", authorization, agencyHeader, verify, periodStart, periodEnd,
                          agency, commissions, year, month, fx).status == 200
    ensures var r := IssueInvoice("POST", authorization, agencyHeader, verify, periodStart, periodEnd,
                                  agency, commissions, year, month, fx);
      r.invoice.Some? && r.invoice.value.status == "draft" && r.reportedStatus == Some("issued")
  {
  }

  // ---------------------------------------------------------------------------
  // Resending the email
  // ---------------------------------------------------------------------------

  /** The `.single()` lookup of the invoice by id within the caller's agency: exactly one row or nothing. */
  function FindInvoice(rows: Query<seq<StoredInvoice>>, id: string, agencyId: string): (r: Option<StoredInvoice>)
    ensures r.Some? ==> rows.Rows? && r.value in rows.rows && r.value.id == id && r.value.agencyId == agencyId
    ensures r.Some? ==> forall x :: x in rows.rows && x.id == id && x.agencyId == agencyId ==> x == r.value
  {
    if rows.QueryError? then None
    else
      var matches := OwnedMatches(rows.rows, id, agencyId);
      if |matches| == 1 then
        assert matches[0] in matches;
        Some(matches[0])
      else None
  }

  function OwnedMatches(rows: seq<StoredInvoice>, id: string, agencyId: string): (r: seq<StoredInvoice>)
    ensures forall x :: x in r <==> x in rows && x.id == id && x.agencyId == agencyId
    ensures |r| == 1 ==> forall x :: x in r ==> x == r[0]
  {
    if rows == [] then []
    else
      var rest := OwnedMatches(rows[1..], id, agencyId);
      assert forall x :: x in rows <==> x == rows[0] || x in rows[1..];
      if rows[0].id == id && rows[0].agencyId == agencyId then [rows[0]] + rest else rest
  }

  datatype Resent = Resent(status: int, success: Option<bool>, sentTo: Option<string>, invoice: Option<StoredInvoice>)

  /**
   * The row after a send attempt: on success the recipient and `sent` email
   * status are recorded, the error cleared, and an `issued` statement becomes
   * `sent`; on failure only the email status and error change, and an error
   * without a message leaves the stored error as it was.
   */
  function AfterSend(inv: StoredInvoice, to: string, email: EmailResult): (r: StoredInvoice)
    ensures r.id == inv.id && r.number == inv.number && r.agencyId == inv.agencyId && r.amounts == inv.amounts
    ensures email.Sent? ==> r == inv.(emailSent := true, emailRecipient := Some(to), emailStatus := Some("sent"),
                                      emailError := None, status := if inv.status == "issued" then "sent" else inv.status)
    ensures email.Failed? ==> r == inv.(emailStatus := Some("failed"),
                                        emailError := if email.error.Some? then email.error else inv.emailError)
  {
    match email
    case Sent =>
      inv.(emailSent := true, emailRecipient := Some(to), emailStatus := Some("sent"), emailError := None,
           status := if inv.status == "issued" then "sent" else inv.status)
    case Failed(e) =>
      inv.(emailStatus := Some("failed"), emailError := if e.Some? then e else inv.emailError)
  }

  /**
   * The resend handler: after the method and token checks, an invoice id is
   * required (400), the invoice must belong to the caller (404), its lines
   * must load and the PDF be made (500), and a recipient must be known —
   * the one in the request, else the stored contact address (400). The mail
   * is then sent and the row updated, the update's own outcome unchecked;
   * the answer is 200 either way, carrying whether the send worked.
   */
  function ResendInvoiceEmail(httpMethod: string, authorization: Option<string>, agencyHeader: Option<string>,
                              verify: string -> Jwt, invoiceId: Option<string>, recipient: Option<string>,
                              invoices: Query<seq<StoredInvoice>>, itemsLoaded: bool, pdfMade: bool,
                              email: EmailResult, updated: bool): (r: Resent)
    ensures httpMethod == "OPTIONS" ==> r == Resent(200, None, None, None)
    ensures httpMethod != "OPTIONS" && httpMethod != "POST" ==> r == Resent(405, None, None, None)
    ensures httpMethod == "POST" && CheckAgencyHeader(authorization, agencyHeader, verify).Reject? ==>
      r == Resent(CheckAgencyHeader(authorization, agencyHeader, verify).status, None, None, None)
    ensures (&& httpMethod == "POST" && CheckAgencyHeader(authorization, agencyHeader, verify).Pass?
             && !Truthy(invoiceId)) ==> r == Resent(400, None, None, None)
    ensures r.invoice.Some? <==> r.success.Some?
    ensures (&& httpMethod == "POST" && CheckAgencyHeader(authorization, agencyHeader, verify).Pass?
             && Truthy(invoiceId)) ==>
      var before := FindInvoice(invoices, invoiceId.value, CheckAgencyHeader(authorization, agencyHeader, verify).agencyId);
      var to := if before.Some? then OrElse(recipient, before.value.contactEmail) else None;
      && (before.None? ==> r == Resent(404, None, None, None))
      && (before.Some? && !(itemsLoaded && pdfMade) ==> r == Resent(500, None, None, None))
      && (before.Some? && itemsLoaded && pdfMade && !Truthy(to) ==> r == Resent(400, None, None, None))
      && (before.Some? && itemsLoaded && pdfMade && Truthy(to) ==>
            && r.status == 200 && r.success == Some(email.Sent?) && r.sentTo == to
            && r.invoice == Some(if updated then AfterSend(before.value, to.value, email) else before.value))
    ensures r.invoice.Some? ==>
      && httpMethod == "POST" && CheckAgencyHeader(authorization, agencyHeader, verify).Pass?
      && invoiceId.Some?
      && var before := FindInvoice(invoices, invoiceId.value, CheckAgencyHeader(authorization, agencyHeader, verify).agencyId);
         && before.Some? && r.sentTo.Some?
         && r.sentTo == OrElse(recipient, before.value.contactEmail)
         && r.invoice.value == (if updated then AfterSend(before.value, r.sentTo.value, email) else before.value)
         && r.status == 200 && r.success == Some(email.Sent?)
  {
    if httpMethod == "OPTIONS" then Resent(200, None, None, None)
    else if httpMethod != "POST" then Resent(405, None, None, None)
    else match CheckAgencyHeader(authorization, agencyHeader, verify)
      case Reject(s) => Resent(s, None, None, None)
      case Pass(agencyId) =>
        if !Truthy(invoiceId) then Resent(400, None, None, None)
        else match FindInvoice(invoices, invoiceId.value, agencyId)
          case None => Resent(404, None, None, None)
          case Some(inv) =>
            if !itemsLoaded || !pdfMade then Resent(500, None, None, None)
            else
              var to := OrElse(recipient, inv.contactEmail);
              if !Truthy(to) then Resent(400, None, None, None)
              else Resent(200, Some(email.Sent?), to, Some(if updated then AfterSend(inv, to.value, email) else inv))
  }

  /** Whether the row update after the send worked never changes the answer. */
  lemma ResendAnswerIgnoresUpdate(httpMethod: string, authorization: Option<string>, agencyHeader: Option<string>,
                                  verify: string -> Jwt, invoiceId: Option<string>, recipient: Option<string>,
                                  invoices: Query<seq<StoredInvoice>>, itemsLoaded: bool, pdfMade: bool,
                                  email: EmailResult)
    ensures var r1 := ResendInvoiceEmail(httpMethod, authorization, agencyHeader, verify, invoiceId, recipient,
                                         invoices, itemsLoaded, pdfMade, email, true);
            var r2 := ResendInvoiceEmail(httpMethod, authorization, agencyHeader, verify, invoiceId, recipient,
                                         invoices, itemsLoaded, pdfMade, email, false);
      r1.status == r2.status && r1.success == r2.success && r1.sentTo == r2.sentTo
  {
  }

  /** How far along a statement is; a resend never moves one backwards. */
  function StatusRank(s: string): int {
    if s == "draft" then 0 else if s == "issued" then 1 else if s == "sent" then 2 else 3
  }

  /**
   * A resend changes the status at most from `issued` to `sent`, never
   * touches the figures, and a failed send leaves the status alone.
   */
  lemma ResendOnlyAdvances(inv: StoredInvoice, to: string, email: EmailResult)
    ensures var after := AfterSend(inv, to, email);
      && (after.status == inv.status || (inv.status == "issued" && after.status == "sent"))
      && StatusRank(inv.status) <= StatusRank(after.status)
      && after.amounts == inv.amounts
      && (email.Failed? ==> after.status == inv.status && after.emailRecipient == inv.emailRecipient)
  {
  }

  /** Resending a draft, even successfully, does not issue it. */
  lemma ResendKeepsDraft(inv: StoredInvoice, to: string)
    requires inv.status == "draft"
    ensures AfterSend(inv, to, Sent).status == "draft"
  {
  }
}
