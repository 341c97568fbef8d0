/** The appointment dialog (`AppointmentForm`): status normalisation, the
    required fields, and the client and pet pickers. */
module AppointmentForm {
  import opened Wrappers
  import opened Seqs
  import opened Text
  import opened ReportData
  import Reporting

  /** `ensureStatus`: the three other known statuses are kept; "pending",
      a missing status and every other string become "pending". */
  function EnsureStatus(status: Option<string>): (r: AppointmentStatus)
    ensures status == Some("confirmed") <==> r == Confirmed
    ensures status == Some("cancelled") <==> r == Cancelled
    ensures status == Some("completed") <==> r == Completed
    ensures r == Pending <==> status.None? || status.value !in {"confirmed", "cancelled", "completed"}
  {
    match status
    case Some("confirmed") => Confirmed
    case Some("cancelled") => Cancelled
    case Some("completed") => Completed
    case _ => Pending
  }

  /** A status written back as its string is read back unchanged, so
      normalising twice is normalising once. */
  lemma {:induction false} EnsureStatusIdempotent(s: AppointmentStatus, status: Option<string>)
    ensures EnsureStatus(Some(Reporting.StatusKey(s))) == s
    ensures EnsureStatus(Some(Reporting.StatusKey(EnsureStatus(status)))) == EnsureStatus(status)
  {}

  /** The dialog's values; ids are the select values ("" when none). */
  datatype FormValues = FormValues(time: string, petId: string, clientId: string, serviceId: string,
                                   notes: string, status: AppointmentStatus)

  datatype FormError = MissingFields

  /** `onSubmit`'s first check: client, pet, service and time are required. */
  function ValidateSubmit(values: FormValues): (r: Result<FormValues, FormError>)
    ensures r.Ok? <==> values.clientId != "" && values.petId != "" && values.serviceId != "" && values.time != ""
    ensures r.Ok? ==> r.value == values
  {
    if values.clientId == "" || values.petId == "" || values.serviceId == "" || values.time == ""
    then Err(MissingFields)
    else Ok(values)
  }

  datatype PetOption = PetOption(id: string, name: string, clientId: string)
  datatype ClientOption = ClientOption(id: string, name: string)

  function OwnedBy(clientId: string): PetOption -> bool { (p: PetOption) => p.clientId == clientId }

  /** `filteredPets`: the pets of the selected client; none without a
      selection. */
  function FilteredPets(pets: seq<PetOption>, selectedClientId: string): (r: seq<PetOption>)
    ensures selectedClientId == "" ==> r == []
    ensures forall i :: 0 <= i < |r| ==> r[i] in pets && r[i].clientId == selectedClientId
  {
    if selectedClientId == "" then [] else Filter(pets, OwnedBy(selectedClientId))
  }

  /** Every pet of the selected client is offered. */
  lemma {:induction false} FilteredPetsComplete(pets: seq<PetOption>, selectedClientId: string, p: PetOption)
    requires selectedClientId != ""
    ensures p in FilteredPets(pets, selectedClientId) <==> p in pets && p.clientId == selectedClientId
  {
    FilterMember(pets, OwnedBy(selectedClientId), p);
  }

  function NameMatches(query: string): ClientOption -> bool
  {
    (c: ClientOption) => ContainsIgnoringCase(c.name, query)
  }

  /** The client suggestions: names containing the query, ignoring case. */
  function FilteredClients(clients: seq<ClientOption>, query: string): (r: seq<ClientOption>)
    ensures forall i :: 0 <= i < |r| ==> r[i] in clients && ContainsIgnoringCase(r[i].name, query)
  {
    Filter(clients, NameMatches(query))
  }

  /** A client is suggested iff its name matches; an empty query suggests
      every client. */
  lemma {:induction false} FilteredClientsSpec(clients: seq<ClientOption>, query: string, c: ClientOption)
    ensures c in FilteredClients(clients, query) <==> c in clients && ContainsIgnoringCase(c.name, query)
    ensures FilteredClients(clients, "") == clients
  {
    FilterMember(clients, NameMatches(query), c);
    forall i | 0 <= i < |clients| ensures NameMatches("")(clients[i]) {
      EmptyTermMatches(clients[i].name);
    }
  }
}
