/**
 * The invoice routes: the listing filtered by owner and status, and creation, which numbers
 * the new invoice `FTR-nnnnn` one past the number of the invoice created last.
 */
module InvoicesApi {
  import opened Common
  import opened Domain
  import opened Text
  import opened Store
  import opened Permissions
  import opened Validation
  import opened Http

  /** The match of `/\d+$/`: the longest run of decimal digits that ends the string (possibly empty). */
  function TrailingDigits(s: string): (r: string)
    ensures AllDigits(r) && |r| <= |s| && r == s[|s| - |r|..]
    ensures |r| < |s| ==> !IsDigit(s[|s| - |r| - 1])
  {
    if s == [] || !IsDigit(s[|s| - 1]) then []
    else
      var init := s[..|s| - 1];
      var rest := TrailingDigits(init);
      assert s[|s| - |rest| - 1..] == init[|init| - |rest|..] + [s[|s| - 1]];
      assert |rest| < |init| ==> s[|s| - |rest| - 2] == init[|init| - |rest| - 1];
      rest + [s[|s| - 1]]
  }

  /** Digits placed after a string that does not end in a digit are its trailing digits. */
  lemma {:induction false} TrailingDigitsAfter(p: string, d: string)
    requires AllDigits(d)
    requires p == [] || !IsDigit(p[|p| - 1])
    ensures TrailingDigits(p + d) == d
    decreases |d|
  {
    if d == [] {
      assert p + d == p;
    } else {
      assert (p + d)[..|p + d| - 1] == p + d[..|d| - 1];
      TrailingDigitsAfter(p, d[..|d| - 1]);
    }
  }

  /**
   * `parseInt(match[0]) + 1` for the number of the invoice created last, or 1 when there is
   * no invoice or its number does not end in a digit.
   */
  function NextNumber(invoices: seq<Invoice>): (n: nat)
    ensures n >= 1
  {
    if invoices == [] then 1
    else
      var digits := TrailingDigits(invoices[|invoices| - 1].number);
      if digits == [] then 1 else DigitsValue(digits) + 1
  }

  /** `` `FTR-${String(n).padStart(5, "0")}` ``. */
  function InvoiceNumber(n: nat): (r: string)
    ensures |r| >= 9 && r[..4] == "FTR-"
  {
    "FTR-" + PadStart(NatToDigits(n), 5, '0')
  }

  /**
   * The number is never truncated: `n` is written out in full after the prefix, behind
   * leading zeros only while it has fewer than five digits.
   */
  lemma InvoiceNumberShape(n: nat)
    ensures var digits := NatToDigits(n);
      && InvoiceNumber(n)[|InvoiceNumber(n)| - |digits|..] == digits
      && (|digits| >= 5 ==> InvoiceNumber(n) == "FTR-" + digits)
      && (|digits| < 5 ==> |InvoiceNumber(n)| == 9)
  {
  }

  /** Reading the trailing digits of a generated number gives back the integer it was built from. */
  lemma InvoiceNumberRoundTrip(n: nat)
    ensures var digits := TrailingDigits(InvoiceNumber(n));
      digits != [] && DigitsValue(digits) == n
  {
    var s := NatToDigits(n);
    var padded := PadStart(s, 5, '0');
    var k := |padded| - |s|;
    assert padded == Repeat('0', k) + s by {
      if |s| < 5 {
        assert padded == Repeat('0', 5 - |s|) + s;
      } else {
        assert Repeat('0', 0) == [];
        assert padded == s;
      }
    }
    LeadingZerosValue(k, s);
    DigitsRoundTrip(n);
    TrailingDigitsAfter("FTR-", padded);
  }

  /** After an invoice numbered from `n`, the next invoice is numbered from `n + 1`. */
  lemma NumbersFollowOn(invoices: seq<Invoice>, n: nat)
    requires invoices != [] && invoices[|invoices| - 1].number == InvoiceNumber(n)
    ensures NextNumber(invoices) == n + 1
  {
    InvoiceNumberRoundTrip(n);
  }

  /** The row `prisma.invoice.create` stores: a DRAFT owned by the caller, empty email and notes stored as null. */
  function NewInvoice(data: InvoiceData, number: string, userId: string, id: string): (r: Invoice)
    ensures r.status == DRAFT && r.userId == userId && r.number == number
    ensures r.clientEmail.None? <==> data.clientEmail.None? || data.clientEmail == Some("")
    ensures r.notes.None? <==> data.notes.None? || data.notes == Some("")
    ensures r.items == data.items
  {
    Invoice(id, number, DRAFT, data.clientName,
            if data.clientEmail == Some("") then None else data.clientEmail,
            data.issueDate, data.dueDate,
            if data.notes == Some("") then None else data.notes,
            userId, data.items)
  }

  /**
   * `POST /api/invoices` with the corrected schema `ParseInvoice`, which reads the two dates
   * from their strings; with the schema as declared every signed-in request is refused
   * with 400 (`InvoiceAsWrittenRejectsAll`). 401 without a signed-in user, 400 for a body
   * the schema refuses, and 400 when the generated number is already taken (the
   * unique-constraint error); none of these creates anything. Otherwise one DRAFT invoice
   * owned by the caller is appended, numbered one past the invoice created last, with its
   * items as sent.
   */
  method CreateInvoice(db: Db, session: Option<Session>, body: Json, isEmail: string -> bool,
                       parseDate: string -> Option<int>, id: string)
    returns (resp: Response<Invoice>)
    modifies db`invoices
    ensures !SignedIn(session) ==> resp == Failure(401, Given(UnauthorizedAccess)) && db.invoices == old(db.invoices)
    ensures SignedIn(session) && ParseInvoice(body, isEmail, parseDate).Reject? ==>
      resp == Failure(400, Given(InvalidData)) && db.invoices == old(db.invoices)
    ensures SignedIn(session) && ParseInvoice(body, isEmail, parseDate).Pass? ==>
      var number := InvoiceNumber(NextNumber(old(db.invoices)));
      var taken := exists i :: 0 <= i < |old(db.invoices)| && old(db.invoices)[i].number == number;
      && (taken ==> resp == Failure(400, Given("Bu fatura numarası zaten kullanılıyor")) && db.invoices == old(db.invoices))
      && (!taken ==>
            var invoice := NewInvoice(ParseInvoice(body, isEmail, parseDate).value, number, session.value.userId, id);
            db.invoices == old(db.invoices) + [invoice] && resp == Success(201, invoice))
  {
    if !SignedIn(session) {
      return Failure(401, Given(UnauthorizedAccess));
    }
    var parsed := ParseInvoice(body, isEmail, parseDate);
    if parsed.Reject? {
      return Failure(400, Given(InvalidData));
    }
    var number := InvoiceNumber(NextNumber(db.invoices));
    if exists i :: 0 <= i < |db.invoices| && db.invoices[i].number == number {
      return Failure(400, Given("Bu fatura numarası zaten kullanılıyor"));
    }
    var invoice := NewInvoice(parsed.value, number, session.value.userId, id);
    db.invoices := db.invoices + [invoice];
    resp := Success(201, invoice);
  }

  /** The `where` clause: the owner unless the caller is an administrator, the status when one is given. */
  predicate InvoiceMatches(session: Session, status: Option<string>, inv: Invoice) {
    && (GetUserFilter(session).Some? ==> inv.userId == GetUserFilter(session).value)
    && (Truthy(status) ==> InvoiceStatusName(inv.status) == status.value)
  }

  /** The invoices the `where` clause selects, in the order they were created. */
  function MatchingInvoices(invoices: seq<Invoice>, session: Session, status: Option<string>): seq<Invoice> {
    Filter(invoices, (inv: Invoice) => InvoiceMatches(session, status, inv))
  }

  /**
   * `GET /api/invoices`: 401 without a signed-in user; a status naming no invoice status is
   * refused by the database (500); otherwise the matching invoices, newest first
   * (`orderBy: { createdAt: "desc" }`), each as often as the table holds it and nothing
   * else. A non-administrator sees only their own invoices, an administrator everyone's.
   */
  function ListInvoices(invoices: seq<Invoice>, session: Option<Session>, status: Option<string>): (r: Response<seq<Invoice>>)
    ensures !SignedIn(session) <==> r == Failure(401, Given(UnauthorizedAccess))
    ensures SignedIn(session) && Truthy(status) && ParseInvoiceStatus(status.value).None? ==> r == Failure(500, Given("Faturalar alınamadı"))
    ensures r.Success? ==>
      && r.status == 200
      && multiset(r.body) == multiset(MatchingInvoices(invoices, session.value, status))
      && (forall inv :: inv in r.body <==> inv in invoices && InvoiceMatches(session.value, status, inv))
      && (forall i, j :: 0 <= i < j < |r.body| ==>
            exists a, b :: 0 <= b < a < |invoices| && invoices[a] == r.body[i] && invoices[b] == r.body[j])
      && (!IsAdmin(session.value) ==> forall i :: 0 <= i < |r.body| ==> r.body[i].userId == session.value.userId)
  {
    if !SignedIn(session) then Failure(401, Given(UnauthorizedAccess))
    else if Truthy(status) && ParseInvoiceStatus(status.value).None? then Failure(500, Given("Faturalar alınamadı"))
    else
      ReversedFilterNewestFirst(invoices, (inv: Invoice) => InvoiceMatches(session.value, status, inv));
      var r := Reversed(MatchingInvoices(invoices, session.value, status));
      assert forall i :: 0 <= i < |r| ==> r[i] in r;
      Success(200, r)
  }
}
