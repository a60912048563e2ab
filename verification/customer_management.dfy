/** `src/components/CustomerManagement.tsx`: the customer screen's search
    filter and its form: a new customer gets today's join date and a default
    status, editing copies a customer into the form, and a successful save
    resets it. */
module CustomerManagement {
  import opened Text
  import opened Records
  import opened ListOps
  import opened CivilDate
  import opened Cron

  /** The search test: the term in the lower-cased name, in the phone as
      typed, or in the lower-cased e-mail when there is one. */
  predicate Matches(c: Customer, term: string)
  {
    Contains(Lower(c.name), Lower(term))
    || Contains(c.phone, term)
    || (c.email.Some? && c.email.value != "" && Contains(Lower(c.email.value), Lower(term)))
  }

  function MatchTest(term: string): Customer -> bool
  {
    (c: Customer) => Matches(c, term)
  }

  /** `filteredCustomers`. */
  function Search(customers: seq<Customer>, term: string): seq<Customer>
  {
    Filter(customers, MatchTest(term))
  }

  /** The search keeps exactly the matching customers, in their order, and an
      empty term keeps everyone. */
  lemma SearchSpec(customers: seq<Customer>, term: string)
    ensures IsSubsequence(Search(customers, term), customers)
    ensures forall c :: c in Search(customers, term) <==> c in customers && Matches(c, term)
    ensures term == "" ==> Search(customers, term) == customers
  {
    FilterIsSubsequence(customers, MatchTest(term));
    if term == "" {
      forall i | 0 <= i < |customers| ensures Matches(customers[i], term)
      {
        ContainsEmpty(customers[i].phone);
      }
      FilterAll(customers, MatchTest(term));
    }
  }

  /** The name test ignores the case of both the name and the term: a
      customer whose name matches still matches after any change of case in
      the name (`name2`) and in the term (`term2`), lower-casing included. */
  lemma NameMatchIgnoresCase(c: Customer, term: string, name2: string, term2: string)
    requires Lower(name2) == Lower(c.name) && Lower(term2) == Lower(term)
    requires Contains(Lower(c.name), Lower(term))
    ensures Matches(c, term) && Matches(c.(name := name2), term2)
    ensures Matches(c.(name := Lower(c.name)), Lower(term))
  {
    LowerIdempotent(c.name);
    LowerIdempotent(term);
  }

  lemma LowerIdempotent(s: string)
    ensures Lower(Lower(s)) == Lower(s)
  {
  }

  /** The form's fields, all text. */
  datatype CustomerForm = CustomerForm(
    name: string, phone: string, email: string, address: string, filterType: string,
    birthDate: string, guaranteeExpiry: string, lastService: string, nextService: string, status: string)

  const EmptyForm := CustomerForm("", "", "", "", "", "", "", "", "", "Active")

  /** The screen's state: the form, the customer being edited and whether the
      form is shown. */
  datatype Screen = Screen(form: CustomerForm, editing: Option<Customer>, showAddForm: bool)

  /** `resetForm`. */
  function ResetForm(s: Screen): (r: Screen)
    ensures r.form == EmptyForm && r.editing == None && !r.showAddForm
  {
    Screen(EmptyForm, None, false)
  }

  /** `handleEdit`: the form shows the customer, every absent optional field
      as empty text. */
  function HandleEdit(s: Screen, c: Customer): (r: Screen)
    ensures r.editing == Some(c) && r.showAddForm
    ensures r.form.name == c.name && r.form.phone == c.phone && r.form.status == c.status
    ensures c.email.None? ==> r.form.email == ""
    ensures c.email.Some? ==> r.form.email == c.email.value
    ensures c.nextService.None? ==> r.form.nextService == ""
    ensures c.nextService.Some? ==> r.form.nextService == c.nextService.value
    ensures r.form.address == Or(c.address, "") && r.form.filterType == Or(c.filterType, "")
    ensures r.form.birthDate == Or(c.birthDate, "") && r.form.guaranteeExpiry == Or(c.guaranteeExpiry, "")
    ensures r.form.lastService == Or(c.lastService, "")
  {
    Screen(CustomerForm(c.name, c.phone, Or(c.email, ""), Or(c.address, ""), Or(c.filterType, ""),
                        Or(c.birthDate, ""), Or(c.guaranteeExpiry, ""), Or(c.lastService, ""),
                        Or(c.nextService, ""), c.status),
           Some(c), true)
  }

  /** The store call `handleSubmit` makes: an update of the edited customer
      with the form as it is, or an insert with today's join date and the
      status defaulting to 'Active'. */
  datatype CustomerRequest =
    | AddCustomerRequest(fields: CustomerForm, joinDate: string)
    | UpdateCustomerRequest(id: string, fields: CustomerForm)

  function SubmitRequest(s: Screen, today: Today): (r: CustomerRequest)
    ensures r.UpdateCustomerRequest? <==> s.editing.Some?
    ensures r.UpdateCustomerRequest? ==> r.id == s.editing.value.id && r.fields == s.form
    ensures r.AddCustomerRequest? ==>
      r.joinDate == FormatDate(today) && r.fields.status == (if s.form.status == "" then "Active" else s.form.status)
      && r.fields.(status := s.form.status) == s.form
  {
    if s.editing.Some? then UpdateCustomerRequest(s.editing.value.id, s.form)
    else AddCustomerRequest(s.form.(status := if s.form.status == "" then "Active" else s.form.status), FormatDate(today))
  }

  /** `handleSubmit`: the request, and the screen after it: reset when the
      store call succeeded, unchanged when it failed. */
  function HandleSubmit(s: Screen, today: Today, stored: bool): (r: (CustomerRequest, Screen))
    ensures r.0 == SubmitRequest(s, today)
    ensures stored ==> r.1 == ResetForm(s)
    ensures !stored ==> r.1 == s
  {
    (SubmitRequest(s, today), if stored then ResetForm(s) else s)
  }

  /** Editing a customer and saving without changes sends the customer's own
      name, phone, status and optional fields (absent ones as empty text)
      back for that customer's id. */
  lemma EditThenSubmit(s: Screen, c: Customer, today: Today)
    ensures var r := SubmitRequest(HandleEdit(s, c), today);
      r.UpdateCustomerRequest? && r.id == c.id
      && r.fields.name == c.name && r.fields.phone == c.phone && r.fields.status == c.status
      && r.fields.email == Or(c.email, "") && r.fields.nextService == Or(c.nextService, "")
  {
  }
}
