/** The client directory: the search-and-status filter over the client list, and the record
    built when the registration form is submitted. */
module ClientList {
  import opened Wrappers
  import opened Types
  import opened Text
  import Seqs

  /** The status drop-down: 'All', or one client status. */
  datatype StatusFilter = AllStatuses | OnlyStatus(status: ClientStatus)

  /** The name or the company contains the search term, ignoring (ASCII) case. */
  predicate MatchesSearch(c: Client, term: string)
    ensures term == "" ==> MatchesSearch(c, term)
  {
    Contains(ToLower(c.name), ToLower(term)) || Contains(ToLower(c.company), ToLower(term))
  }

  predicate MatchesFilter(c: Client, filter: StatusFilter) {
    filter.AllStatuses? || c.status == filter.status
  }

  function Shown(term: string, filter: StatusFilter): Client -> bool {
    (c: Client) => MatchesSearch(c, term) && MatchesFilter(c, filter)
  }

  /** `filteredClients`: the clients matching both the search term and the status filter,
      in list order. */
  function FilteredClients(cs: seq<Client>, term: string, filter: StatusFilter): (r: seq<Client>)
    ensures Seqs.IsSubseq(r, cs)
    ensures forall c :: c in r <==> c in cs && MatchesSearch(c, term) && MatchesFilter(c, filter)
    ensures forall c :: multiset(r)[c] == if MatchesSearch(c, term) && MatchesFilter(c, filter) then multiset(cs)[c] else 0
    ensures filter.OnlyStatus? ==> forall i :: 0 <= i < |r| ==> r[i].status == filter.status
  {
    var r := Seqs.Filter(cs, Shown(term, filter));
    assert forall i :: 0 <= i < |r| ==> r[i] in r;
    r
  }

  /** An empty search with filter 'All' lists every client. */
  lemma EmptySearchShowsAll(cs: seq<Client>)
    ensures FilteredClients(cs, "", AllStatuses) == cs
  {
    forall i | 0 <= i < |cs| ensures Shown("", AllStatuses)(cs[i]) {
      ContainsEmpty(ToLower(cs[i].name));
    }
    Seqs.FilterKeepsAll(cs, Shown("", AllStatuses));
  }

  /** The search test spelled out: some position of the lower-cased name or company holds the
      lower-cased term. */
  lemma MatchesSearchIff(c: Client, term: string)
    ensures MatchesSearch(c, term) <==>
      (exists i :: OccursAt(ToLower(c.name), ToLower(term), i)) ||
      (exists i :: OccursAt(ToLower(c.company), ToLower(term), i))
  {
    ContainsIffOccurs(ToLower(c.name), ToLower(term));
    ContainsIffOccurs(ToLower(c.company), ToLower(term));
  }

  /** The registration form's fields. */
  datatype ClientForm = ClientForm(name: string, company: string, email: string, phone: string, notes: string, status: ClientStatus)

  /** The form as first shown and as reset after a submit: empty fields, status Fresh Start. */
  const EmptyForm: ClientForm := ClientForm("", "", "", "", "", Lead)

  /** The statuses the form offers. */
  const FormStatusOptions: seq<ClientStatus> := [Lead, Active, Potential]

  lemma FormDefaults()
    ensures EmptyForm.status == Lead && EmptyForm.status in FormStatusOptions
    ensures EmptyForm.name == "" && EmptyForm.company == "" && EmptyForm.email == ""
    ensures EmptyForm.phone == "" && EmptyForm.notes == ""
    ensures Churned !in FormStatusOptions && |FormStatusOptions| == 3
  {
  }

  /** The form fields of a client record. */
  function FormOf(c: Client): ClientForm {
    ClientForm(c.name, c.company, c.email, c.phone, c.notes, c.status)
  }

  /** `handleSubmit`: the new client (copying the form, with no revenue, no projects and no
      mockups) and the reset form. */
  function Submit(form: ClientForm, id: string, now: string): (r: (Client, ClientForm))
    ensures FormOf(r.0) == form
    ensures r.0.id == id && r.0.createdAt == now
    ensures r.0.totalRevenue == 0 && r.0.projects == [] && r.0.mockups.None?
    ensures r.1 == EmptyForm
  {
    (Client(id, form.name, form.company, form.email, form.phone, form.status, 0, form.notes, [], now, None), EmptyForm)
  }
}
