/** The enquiries list page (`pages/enquiries/EnquiriesListPage.tsx`): the
    new-enquiry form and the seeding of a quotation from an enquiry. */
module Enquiries {
  import opened Types
  import opened Collections
  import opened Api
  import opened DataContext
  import QuotationDetail
  import Text

  // ---------------------------------------------------------------- customer match

  /** A customer is taken for an enquiry when the names agree ignoring case,
      or the customer's phone is the enquiry's contact. */
  predicate Matches(c: Customer, e: Enquiry) {
    Text.Lower(c.name) == Text.Lower(e.customerName) || c.phone == e.contact
  }

  /** Index of the first customer that matches `e`, if any. */
  function FirstMatch(customers: seq<Customer>, e: Enquiry): (r: Option<nat>)
    ensures r.Some? ==> r.value < |customers| && Matches(customers[r.value], e)
    ensures r.Some? ==> forall j :: 0 <= j < r.value ==> !Matches(customers[j], e)
    ensures r.None? <==> forall j :: 0 <= j < |customers| ==> !Matches(customers[j], e)
    decreases |customers|
  {
    if customers == [] then None
    else if Matches(customers[0], e) then Some(0)
    else match FirstMatch(customers[1..], e)
      case None => None
      case Some(k) => Some(k + 1)
  }

  /** The placeholder a quotation is given when no customer matches. */
  const NewCustomerId := "CUST-NEW"

  /** The customer id of the quotation seeded from `e`. */
  function CustomerIdFor(customers: seq<Customer>, e: Enquiry): (id: string)
    ensures (forall j :: 0 <= j < |customers| ==> !Matches(customers[j], e)) ==> id == NewCustomerId
    ensures (exists j :: 0 <= j < |customers| && Matches(customers[j], e)) ==>
      exists j :: 0 <= j < |customers| && Matches(customers[j], e) && id == customers[j].id
        && forall i :: 0 <= i < j ==> !Matches(customers[i], e)
  {
    match FirstMatch(customers, e)
    case None => NewCustomerId
    case Some(k) => customers[k].id
  }

  /** The quotation `handleCreateQuotation` submits (its id is assigned by the
      store). */
  function QuotationSeed(customers: seq<Customer>, e: Enquiry, today: string): Quotation {
    Quotation("", e.id, CustomerIdFor(customers, e), today, [], 0.0, QuotationStatus.Draft, 0.0, 0.0)
  }

  /** The seed references the enquiry, is a Draft with no lines, and its three
      zero totals agree with its (empty) lines. */
  lemma SeedIsEmptyDraft(customers: seq<Customer>, e: Enquiry, today: string)
    ensures var q := QuotationSeed(customers, e, today);
      q.enquiryId == e.id && q.items == [] && q.status == QuotationStatus.Draft && q.date == today
      && q.totalCost == 0.0 && q.fabricationCost == 0.0 && q.grandTotal == 0.0
      && QuotationDetail.TotalsConsistent(q)
  {
  }

  // ---------------------------------------------------------------- offering

  /** `Create Quotation` is shown only for enquiries in status `New`. */
  predicate CanCreateQuotation(e: Enquiry) {
    e.status == New
  }

  /** `handleCreateQuotation` as a change of the store. */
  function CreateQuotationEffect(d: AppData, user: Option<User>, e: Enquiry, env: Env): AppData {
    AddQuotationEffect(d, user, QuotationSeed(d.customers, e, Today(env)), env)
  }

  /** Creating a quotation for a stored enquiry turns it `Quoted`, so the page
      no longer offers a second quotation for it; the seeded quotation is the
      last one stored. */
  lemma CreateQuotationWithdrawsOffer(d: AppData, user: Option<User>, e: Enquiry, env: Env)
    requires FindFirst(d.enquiries, EnquiryKey, e.id).Some?
    ensures var r := CreateQuotationEffect(d, user, e, env);
      && FindFirst(r.enquiries, EnquiryKey, e.id) == Some(FindFirst(d.enquiries, EnquiryKey, e.id).value.(status := Quoted))
      && !CanCreateQuotation(FindFirst(r.enquiries, EnquiryKey, e.id).value)
      && r.quotations == d.quotations + [QuotationSeed(d.customers, e, Today(env)).(id := NewId("QT", env))]
  {
    var s := d.enquiries;
    var k := FirstIndex(s, EnquiryKey, e.id).value;
    var m := MarkQuoted(s, e.id);
    assert m == s[k := s[k].(status := Quoted)];
    assert forall j :: 0 <= j < k ==> EnquiryKey(m[j]) != e.id by {
      forall j | 0 <= j < k ensures EnquiryKey(m[j]) != e.id {
        assert m[j] == s[j];
      }
    }
    assert EnquiryKey(m[k]) == e.id;
    assert FirstIndex(m, EnquiryKey, e.id) == Some(k);
  }

  // ---------------------------------------------------------------- the form

  datatype FormField = CustomerName | Contact | Date | Details

  /** The new-enquiry modal and its form state. */
  class EnquiryForm {
    var isOpen: bool
    var customerName: string
    var contact: string
    var date: string
    var details: string

    /** Every field empty except the date, which is today. */
    predicate IsBlank(today: string)
      reads this
    {
      customerName == "" && contact == "" && date == today && details == ""
    }

    constructor (today: string)
      ensures !isOpen && IsBlank(today)
    {
      isOpen := false;
      customerName, contact, date, details := "", "", today, "";
    }

    method Open()
      modifies this
      ensures isOpen
      ensures customerName == old(customerName) && contact == old(contact)
      ensures date == old(date) && details == old(details)
    {
      isOpen := true;
    }

    /** `handleCloseModal`: close and reset every field, the date to today. */
    method Close(today: string)
      modifies this
      ensures !isOpen && IsBlank(today)
    {
      isOpen := false;
      customerName, contact, date, details := "", "", today, "";
    }

    /** `handleChange`: overwrite the named field only. */
    method Change(field: FormField, value: string)
      modifies this
      ensures isOpen == old(isOpen)
      ensures customerName == (if field == CustomerName then value else old(customerName))
      ensures contact == (if field == Contact then value else old(contact))
      ensures date == (if field == Date then value else old(date))
      ensures details == (if field == Details then value else old(details))
    {
      match field
      case CustomerName => customerName := value;
      case Contact => contact := value;
      case Date => date := value;
      case Details => details := value;
    }

    /** The enquiry the form submits: its fields, in status `New`. */
    function Submitted(): (e: Enquiry)
      reads this
      ensures e.status == New
      ensures e.customerName == customerName && e.contact == contact && e.date == date && e.details == details
    {
      Enquiry("", customerName, contact, date, details, New)
    }

    /** `handleSubmit`: add the enquiry, then close and reset the form. */
    method Submit(ctx: Context, env: Env)
      modifies this, ctx.db
      ensures ctx.db.Data() == AddEnquiryEffect(old(ctx.db.Data()), ctx.user, old(Submitted()), env)
      ensures !isOpen && IsBlank(Today(env))
    {
      var _ := ctx.AddEnquiry(Submitted(), env);
      Close(Today(env));
    }
  }

  /** A submitted enquiry is stored last, with the form's fields, a fresh
      `ENQ-` id and status `New`. */
  lemma SubmitStoresNewEnquiry(d: AppData, user: Option<User>, name: string, contact: string, date: string,
                               details: string, env: Env)
    ensures var r := AddEnquiryEffect(d, user, Enquiry("", name, contact, date, details, New), env);
      r.enquiries == d.enquiries + [Enquiry(NewId("ENQ", env), name, contact, date, details, New)]
      && Text.StartsWith(r.enquiries[|d.enquiries|].id, "ENQ-")
  {
  }

  /** `handleCreateQuotation`: seed a quotation from the enquiry and add it. */
  method HandleCreateQuotation(ctx: Context, e: Enquiry, env: Env) returns (q: Quotation)
    modifies ctx.db
    ensures q == QuotationSeed(old(ctx.db.customers), e, Today(env)).(id := NewId("QT", env))
    ensures ctx.db.Data() == CreateQuotationEffect(old(ctx.db.Data()), ctx.user, e, env)
  {
    q := ctx.AddQuotation(QuotationSeed(ctx.db.customers, e, Today(env)), env);
  }
}
