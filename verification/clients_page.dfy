/** The clients page (`Clients`), which keeps its clients and their pets in
    memory: search, client and pet dialogs, and deletion. */
module ClientsPage {
  import opened Wrappers
  import opened Seqs
  import opened Text

  datatype Pet = Pet(id: nat, name: string, kind: string, breed: string, age: int)

  datatype Client = Client(id: nat, name: string, email: string, phone: string, address: string, pets: seq<Pet>)

  /** The client dialog's fields. */
  datatype ClientForm = ClientForm(name: string, email: string, phone: string, address: string)

  /** The pet dialog's fields; the age as typed. */
  datatype PetForm = PetForm(name: string, kind: string, breed: string, age: string)

  /** Why a dialog submission was refused ("Campos obrigatórios" or
      "Idade inválida"). */
  datatype FormError = MissingFields | InvalidAge

  function PetMatches(term: string): Pet -> bool
  {
    (p: Pet) => ContainsIgnoringCase(p.name, term) || ContainsIgnoringCase(p.kind, term)
                || ContainsIgnoringCase(p.breed, term)
  }

  /** A client is listed when the term is in its name or email ignoring
      case, in its phone as typed, or in some pet's name, type or breed
      ignoring case. */
  predicate ClientMatches(c: Client, term: string)
  {
    || ContainsIgnoringCase(c.name, term)
    || ContainsIgnoringCase(c.email, term)
    || Contains(c.phone, term)
    || exists i :: 0 <= i < |c.pets| && PetMatches(term)(c.pets[i])
  }

  function MatchesTerm(term: string): Client -> bool { (c: Client) => ClientMatches(c, term) }

  /** `filteredClients`. */
  function FilterClients(clients: seq<Client>, term: string): (r: seq<Client>)
    ensures forall i :: 0 <= i < |r| ==> r[i] in clients && ClientMatches(r[i], term)
  {
    Filter(clients, MatchesTerm(term))
  }

  /** A client is listed iff it matches, and an empty search lists everyone. */
  lemma {:induction false} FilterClientsSpec(clients: seq<Client>, term: string, c: Client)
    ensures c in FilterClients(clients, term) <==> c in clients && ClientMatches(c, term)
    ensures FilterClients(clients, "") == clients
  {
    FilterMember(clients, MatchesTerm(term), c);
    forall i | 0 <= i < |clients| ensures MatchesTerm("")(clients[i]) {
      EmptyTermMatches(clients[i].name);
    }
  }

  /** The form's fields written over a client; its id and pets are kept. */
  function EditedBy(id: nat, form: ClientForm): Client -> Client
  {
    (c: Client) => if c.id == id then c.(name := form.name, email := form.email, phone := form.phone, address := form.address) else c
  }

  /** `handleClientSubmit`. A missing name, email or phone is refused; with
      a client selected, every client with its id takes the form's fields;
      otherwise a new client with the fresh id and no pets is appended. */
  function SubmitClient(clients: seq<Client>, form: ClientForm, selected: Option<nat>, freshId: nat): (r: Result<seq<Client>, FormError>)
    ensures r.Err? <==> form.name == "" || form.email == "" || form.phone == ""
    ensures r.Err? ==> r.error == MissingFields
    ensures r.Ok? && selected.Some? ==> |r.value| == |clients|
    ensures r.Ok? && selected.Some? ==> forall i :: 0 <= i < |clients| && clients[i].id != selected.value ==> r.value[i] == clients[i]
    ensures r.Ok? && selected.Some? ==> forall i :: 0 <= i < |clients| && clients[i].id == selected.value ==>
              r.value[i] == Client(clients[i].id, form.name, form.email, form.phone, form.address, clients[i].pets)
    ensures r.Ok? && selected.None? ==> r.value == clients + [Client(freshId, form.name, form.email, form.phone, form.address, [])]
  {
    if form.name == "" || form.email == "" || form.phone == "" then Err(MissingFields)
    else match selected
      case Some(id) => Ok(Map(clients, EditedBy(id, form)))
      case None => Ok(clients + [Client(freshId, form.name, form.email, form.phone, form.address, [])])
  }

  /** The pets of the client with id `clientId` rewritten by `f`. */
  function WithPets(clientId: nat, f: seq<Pet> -> seq<Pet>): Client -> Client
  {
    (c: Client) => if c.id == clientId then c.(pets := f(c.pets)) else c
  }

  function PetEdited(petId: nat, form: PetForm, age: int): Pet -> Pet
  {
    (p: Pet) => if p.id == petId then Pet(p.id, form.name, form.kind, form.breed, age) else p
  }

  function EditPet(petId: nat, form: PetForm, age: int): seq<Pet> -> seq<Pet>
  {
    (pets: seq<Pet>) => Map(pets, PetEdited(petId, form, age))
  }

  function AppendPet(pet: Pet): seq<Pet> -> seq<Pet>
  {
    (pets: seq<Pet>) => pets + [pet]
  }

  function PetIdIsNot(petId: nat): Pet -> bool { (p: Pet) => p.id != petId }

  function DropPet(petId: nat): seq<Pet> -> seq<Pet>
  {
    (pets: seq<Pet>) => Filter(pets, PetIdIsNot(petId))
  }

  /** `handlePetSubmit`. An empty field is refused; without a selected
      client nothing happens; an age that does not parse (`None`) or is not
      positive is refused; with a pet selected the selected client's pets
      with that id take the form's fields; otherwise a new pet with the
      fresh id is appended to the selected client's pets. */
  function SubmitPet(clients: seq<Client>, form: PetForm, parsedAge: Option<int>,
                     selectedClient: Option<nat>, selectedPet: Option<nat>, freshId: nat): (r: Result<seq<Client>, FormError>)
    ensures form.name == "" || form.kind == "" || form.breed == "" || form.age == "" ==> r == Err(MissingFields)
    ensures r == Err(InvalidAge) <==> form.name != "" && form.kind != "" && form.breed != "" && form.age != ""
                                      && selectedClient.Some? && (parsedAge.None? || parsedAge.value <= 0)
    ensures r.Ok? ==> |r.value| == |clients|
    ensures r.Ok? ==> forall i :: 0 <= i < |clients| && (selectedClient.None? || clients[i].id != selectedClient.value)
                                 ==> r.value[i] == clients[i]
    ensures r.Ok? ==> forall i :: 0 <= i < |clients| ==> r.value[i].id == clients[i].id
    ensures r.Ok? && selectedClient.Some? && selectedPet.Some? ==>
              forall i :: 0 <= i < |clients| && clients[i].id == selectedClient.value ==>
                && |r.value[i].pets| == |clients[i].pets|
                && forall j :: 0 <= j < |clients[i].pets| ==>
                     r.value[i].pets[j] == if clients[i].pets[j].id == selectedPet.value
                                           then Pet(selectedPet.value, form.name, form.kind, form.breed, parsedAge.value)
                                           else clients[i].pets[j]
    ensures r.Ok? && selectedClient.Some? && selectedPet.None? ==>
              forall i :: 0 <= i < |clients| && clients[i].id == selectedClient.value ==>
                r.value[i].pets == clients[i].pets + [Pet(freshId, form.name, form.kind, form.breed, parsedAge.value)]
  {
    if form.name == "" || form.kind == "" || form.breed == "" || form.age == "" then Err(MissingFields)
    else match selectedClient
      case None => Ok(clients)
      case Some(cid) =>
        if parsedAge.None? || parsedAge.value <= 0 then Err(InvalidAge)
        else
          var age := parsedAge.value;
          match selectedPet
          case Some(pid) => Ok(Map(clients, WithPets(cid, EditPet(pid, form, age))))
          case None => Ok(Map(clients, WithPets(cid, AppendPet(Pet(freshId, form.name, form.kind, form.breed, age)))))
  }

  function ClientIdIsNot(id: nat): Client -> bool { (c: Client) => c.id != id }

  /** `handleDeleteClient`: the clients with the selected id go, with
      their pets; nothing happens without a selection. */
  function DeleteClient(clients: seq<Client>, selected: Option<nat>): (r: seq<Client>)
    ensures selected.None? ==> r == clients
    ensures selected.Some? ==> forall i :: 0 <= i < |r| ==> r[i].id != selected.value
  {
    match selected
    case None => clients
    case Some(id) => Filter(clients, ClientIdIsNot(id))
  }

  /** `handleDeletePet`: the pets with the selected id go from the selected
      client only; nothing happens without both selections. */
  function DeletePet(clients: seq<Client>, selectedClient: Option<nat>, selectedPet: Option<nat>): (r: seq<Client>)
    ensures selectedClient.None? || selectedPet.None? ==> r == clients
    ensures |r| == |clients|
    ensures forall i :: 0 <= i < |clients| ==> r[i].id == clients[i].id
    ensures selectedClient.Some? ==> forall i :: 0 <= i < |clients| && clients[i].id != selectedClient.value ==> r[i] == clients[i]
  {
    if selectedClient.None? || selectedPet.None? then clients
    else Map(clients, WithPets(selectedClient.value, DropPet(selectedPet.value)))
  }

  /** Deleting a pet removes it from the selected client's pets and keeps
      every other pet of that client. */
  lemma {:induction false} DeletePetSpec(clients: seq<Client>, cid: nat, pid: nat, i: nat, p: Pet)
    requires i < |clients| && clients[i].id == cid
    ensures p in DeletePet(clients, Some(cid), Some(pid))[i].pets <==> p in clients[i].pets && p.id != pid
  {
    FilterMember(clients[i].pets, PetIdIsNot(pid), p);
  }

  /** Deleting a client keeps every other client, in order. */
  lemma {:induction false} DeleteClientKeepsOthers(clients: seq<Client>, id: nat, c: Client)
    ensures c in DeleteClient(clients, Some(id)) <==> c in clients && c.id != id
  {
    FilterMember(clients, ClientIdIsNot(id), c);
  }

  /** Adding a client under a fresh id and then deleting that id gives the
      original list back. */
  lemma {:induction false} AddThenDeleteClient(clients: seq<Client>, form: ClientForm, freshId: nat)
    requires forall i :: 0 <= i < |clients| ==> clients[i].id != freshId
    requires SubmitClient(clients, form, None, freshId).Ok?
    ensures DeleteClient(SubmitClient(clients, form, None, freshId).value, Some(freshId)) == clients
  {
    var added := Client(freshId, form.name, form.email, form.phone, form.address, []);
    FilterAppend(clients, [added], ClientIdIsNot(freshId));
    assert Filter(clients, ClientIdIsNot(freshId)) == clients;
    assert Filter([added], ClientIdIsNot(freshId)) == [];
  }

  /** Adding a pet under an id its client does not use and then deleting
      that pet gives the original clients back. */
  lemma {:induction false} AddThenDeletePet(clients: seq<Client>, form: PetForm, parsedAge: Option<int>, cid: nat, freshId: nat)
    requires forall i :: 0 <= i < |clients| && clients[i].id == cid ==>
               forall j :: 0 <= j < |clients[i].pets| ==> clients[i].pets[j].id != freshId
    requires SubmitPet(clients, form, parsedAge, Some(cid), None, freshId).Ok?
    ensures DeletePet(SubmitPet(clients, form, parsedAge, Some(cid), None, freshId).value, Some(cid), Some(freshId)) == clients
  {
    var added := SubmitPet(clients, form, parsedAge, Some(cid), None, freshId).value;
    var back := DeletePet(added, Some(cid), Some(freshId));
    var pet := Pet(freshId, form.name, form.kind, form.breed, parsedAge.value);
    forall i | 0 <= i < |clients| ensures back[i] == clients[i] {
      if clients[i].id == cid {
        var pets := clients[i].pets;
        assert added[i].pets == pets + [pet];
        FilterAppend(pets, [pet], PetIdIsNot(freshId));
        assert Filter([pet], PetIdIsNot(freshId)) == [];
        assert Filter(pets, PetIdIsNot(freshId)) == pets;
      }
    }
  }
}
