/** The application shell: the client list and the selected client held in component state,
    the handlers that change them and save the list after every change, and the session check
    made when the app mounts. */
module AppShell {
  import opened Wrappers
  import opened Types
  import Seqs
  import opened Storage
  import ClientDetail
  import Seed

  /** The access key the session is compared with: the configured key, or `admin123` when the
      environment variable is missing or empty (`process.env.APP_ACCESS_KEY || 'admin123'`). */
  function MasterKey(env: Option<string>): (k: string)
    ensures env.Some? && env.value != "" ==> k == env.value
    ensures env.None? || env.value == "" ==> k == "admin123"
  {
    if env.Some? && env.value != "" then env.value else "admin123"
  }

  /** The session check at mount: authenticated exactly when a session is stored and it equals
      the master key. */
  predicate SessionValid(items: map<string, Stored>, env: Option<string>)
    requires WellTyped(items)
  {
    AuthKey in items && items[AuthKey].text == MasterKey(env)
  }

  /** `clients.map(c => c.id === u.id ? u : c)`: every client with `u`'s id replaced, order and length kept. */
  function ReplaceById(cs: seq<Client>, u: Client): (r: seq<Client>)
    ensures |r| == |cs|
    ensures forall i :: 0 <= i < |cs| ==> r[i].id == cs[i].id
    ensures forall i :: 0 <= i < |cs| && cs[i].id != u.id ==> r[i] == cs[i]
    ensures forall i :: 0 <= i < |cs| && cs[i].id == u.id ==> r[i] == u
  {
    seq(|cs|, i requires 0 <= i < |cs| => if cs[i].id == u.id then u else cs[i])
  }

  function KeepClient(id: string): Client -> bool {
    (c: Client) => c.id != id
  }

  /** `clients.filter(c => c.id !== id)`: every client with that id removed, the rest kept in order. */
  function RemoveById(cs: seq<Client>, id: string): (r: seq<Client>)
    ensures Seqs.IsSubseq(r, cs)
    ensures forall c :: c in r <==> c in cs && c.id != id
    ensures forall c :: multiset(r)[c] == if c.id != id then multiset(cs)[c] else 0
  {
    Seqs.Filter(cs, KeepClient(id))
  }

  /** Updating with an id no client has changes nothing. */
  lemma ReplaceAbsentId(cs: seq<Client>, u: Client)
    requires forall i :: 0 <= i < |cs| ==> cs[i].id != u.id
    ensures ReplaceById(cs, u) == cs
  {
  }

  /** Deleting an id no client has changes nothing. */
  lemma RemoveAbsentId(cs: seq<Client>, id: string)
    requires forall i :: 0 <= i < |cs| ==> cs[i].id != id
    ensures RemoveById(cs, id) == cs
  {
    Seqs.FilterKeepsAll(cs, KeepClient(id));
  }

  /** After a delete no client with that id is left, and deleting again changes nothing. */
  lemma RemoveIdempotent(cs: seq<Client>, id: string)
    ensures forall i :: 0 <= i < |RemoveById(cs, id)| ==> RemoveById(cs, id)[i].id != id
    ensures RemoveById(RemoveById(cs, id), id) == RemoveById(cs, id)
  {
    var r := RemoveById(cs, id);
    assert forall i :: 0 <= i < |r| ==> r[i] in r;
    RemoveAbsentId(r, id);
  }

  /** The shell's replace-every-match and the store's replace-first-match agree when at most one
      client has the id; with a duplicate the shell replaces both and the store only the first. */
  lemma ReplaceByIdVsReplaceFirst(cs: seq<Client>, u: Client)
    ensures (forall i, j :: 0 <= i < j < |cs| && cs[i].id == u.id ==> cs[j].id != u.id)
      ==> ReplaceById(cs, u) == ReplaceFirst(cs, u)
    ensures forall j :: 0 <= j < |cs| && cs[j].id == u.id && j != FirstIndex(cs, u.id) && cs[j] != u ==>
      ReplaceById(cs, u) != ReplaceFirst(cs, u)
  {
    var k := FirstIndex(cs, u.id);
    forall j | 0 <= j < |cs| && cs[j].id == u.id && j != k && cs[j] != u
      ensures ReplaceById(cs, u) != ReplaceFirst(cs, u)
    {
      assert ReplaceById(cs, u)[j] == u;
      assert ReplaceFirst(cs, u)[j] == cs[j];
    }
  }

  /** An edit sent while a mockup was being generated is lost. The mockup update is built from
      the client as it was when generation started, so replacing that client by id puts back its
      old projects and status over whatever the edit had set. */
  lemma MockupOverwritesConcurrentEdit(cs: seq<Client>, i: int, started: Client,
                                        prompt: string, image: Option<string>, mid: string, now: string)
    requires 0 <= i < |cs| && cs[i].id == started.id
    requires ClientDetail.HandleGenerateMockup(started, prompt, image, mid, now).Some?
    ensures var after := ReplaceById(cs, ClientDetail.HandleGenerateMockup(started, prompt, image, mid, now).value);
      && after[i].projects == started.projects && after[i].status == started.status
      && (cs[i].projects != started.projects ==> after[i] != cs[i])
  {
  }

  /** A concrete case: generation starts on the first seeded client, its first task is toggled
      while the image is awaited, and the mockup update then un-toggles it. */
  lemma ToggleDuringMockupIsLost()
    ensures var c := Seed.MockClients[0];
      var edited := ClientDetail.HandleToggleTask(c, "p1", "t1").value;
      var u := ClientDetail.HandleGenerateMockup(c, "landing page", Some("data:image/png;base64,AA"), "m1", "t").value;
      && edited.projects[0].tasks[0].completed != c.projects[0].tasks[0].completed
      && ReplaceById([edited], u) == [u]
      && u.projects[0].tasks[0].completed == c.projects[0].tasks[0].completed
  {
    var c := Seed.MockClients[0];
    var edited := ClientDetail.HandleToggleTask(c, "p1", "t1").value;
    assert c.projects[0].id == "p1" && c.projects[0].tasks[0].id == "t1";
    assert edited.projects[0].tasks == ClientDetail.ToggleTasks(c.projects[0].tasks, "t1");
  }

  /** A delete made while a mockup was being generated is undone. The update callback holds the
      list from when generation started, so the client the delete removed comes back with its
      mockup, although the current list has no client with that id. */
  lemma MockupUndoesConcurrentDelete(seen: seq<Client>, i: int, u: Client)
    requires 0 <= i < |seen| && seen[i].id == u.id
    ensures u in ReplaceById(seen, u)
    ensures forall c :: c in RemoveById(seen, u.id) ==> c.id != u.id
  {
    assert ReplaceById(seen, u)[i] == u;
  }

  /** A client added while a mockup was being generated is dropped: the list the update is
      applied to does not hold it. */
  lemma {:induction false} MockupDropsConcurrentAdd(seen: seq<Client>, c: Client, u: Client)
    requires c !in seen && c != u
    ensures c in seen + [c]
    ensures c !in ReplaceById(seen, u)
  {
    var r := ReplaceById(seen, u);
    forall i | 0 <= i < |r| ensures r[i] != c {
      assert seen[i] in seen;
    }
    assert (seen + [c])[|seen|] == c;
  }

  /** A concrete case: generation starts on the first seeded client and that client is deleted
      while the image is awaited; the update then puts it back, with its mockup. */
  lemma DeleteDuringMockupIsUndone()
    ensures var c := Seed.MockClients[0];
      var u := ClientDetail.HandleGenerateMockup(c, "landing page", Some("data:image/png;base64,AA"), "m1", "t").value;
      && (forall k :: 0 <= k < |RemoveById(Seed.MockClients, c.id)| ==> RemoveById(Seed.MockClients, c.id)[k].id != c.id)
      && ReplaceById(Seed.MockClients, u)[0] == u && u.id == c.id
  {
    var c := Seed.MockClients[0];
    var r := RemoveById(Seed.MockClients, c.id);
    forall k | 0 <= k < |r| ensures r[k].id != c.id {
      assert r[k] in r;
    }
  }

  /** The shell's component state. `store` is the browser storage and `env` the configured access key. */
  class App {
    var authenticated: bool
    var loading: bool
    var clients: seq<Client>
    var selected: Option<Client>
    const store: LocalStore
    const env: Option<string>

    /** Once mounted, the persisted list is the list in memory. */
    ghost predicate Valid()
      reads this, store
    {
      store.Valid() && (!loading ==> ClientsKey in store.items && store.items[ClientsKey] == ClientsValue(clients))
    }

    /** The selected client, if any, is one of the clients. */
    ghost predicate SelectionListed()
      reads this
    {
      selected.Some? ==> selected.value in clients
    }

    /** The initial state, before the mount effect runs. */
    constructor (store: LocalStore, env: Option<string>)
      requires store.Valid()
      ensures Valid() && this.store == store && this.env == env
      ensures !authenticated && loading && clients == [] && selected.None?
    {
      this.store := store;
      this.env := env;
      authenticated := false;
      loading := true;
      clients := [];
      selected := None;
    }

    /** The mount effect, run once from the initial state: the session check, then the
        (possibly seeded) client list loaded. */
    method Mount()
      requires Valid() && loading && !authenticated
      modifies this, store
      ensures Valid() && !loading
      ensures authenticated == SessionValid(old(store.items), env)
      ensures clients == LoadClients(old(store.items)) && store.items == Seeded(old(store.items))
      ensures selected == old(selected)
    {
      if AuthKey in store.items && store.items[AuthKey].text == MasterKey(env) {
        authenticated := true;
      }
      var data := store.GetClients();
      clients := data;
      loading := false;
    }

    /** `handleLogin`: the key is stored as the session and the user is let in. */
    method Login(key: string)
      requires Valid()
      modifies this, store
      ensures Valid() && authenticated
      ensures store.items == old(store.items)[AuthKey := TextValue(key)]
      ensures clients == old(clients) && selected == old(selected) && loading == old(loading)
    {
      KeysDistinct();
      store.SetSession(key);
      authenticated := true;
    }

    /** `handleUpdateClient` as a closure made at an earlier render, when the list was `seen` and
        the selection `seenSelected`: the update is applied to `seen`, not to the current list,
        the result saved, and the selection set to the update when `seenSelected` had its id
        (otherwise the current selection stays). This is the callback a mockup generation holds
        across its `await`. */
    method UpdateClientFrom(seen: seq<Client>, seenSelected: Option<Client>, u: Client)
      requires Valid()
      modifies this, store
      ensures Valid()
      ensures clients == ReplaceById(seen, u)
      ensures store.items == old(store.items)[ClientsKey := ClientsValue(clients)]
      ensures selected == if seenSelected.Some? && seenSelected.value.id == u.id then Some(u) else old(selected)
      ensures authenticated == old(authenticated) && loading == old(loading)
    {
      var newClients := ReplaceById(seen, u);
      clients := newClients;
      store.SaveClients(newClients);
      if seenSelected.Some? && seenSelected.value.id == u.id {
        selected := Some(u);
      }
    }

    /** `handleUpdateClient` from the current render: every client with the updated id replaced,
        the list saved, and the selection replaced only when it has that id. */
    method UpdateClient(u: Client)
      requires Valid()
      modifies this, store
      ensures Valid()
      ensures clients == ReplaceById(old(clients), u)
      ensures store.items == old(store.items)[ClientsKey := ClientsValue(clients)]
      ensures selected == if old(selected).Some? && old(selected).value.id == u.id then Some(u) else old(selected)
      ensures old(SelectionListed()) ==> SelectionListed()
      ensures authenticated == old(authenticated) && loading == old(loading)
    {
      ghost var before := clients;
      UpdateClientFrom(clients, selected, u);
      if old(SelectionListed()) && selected.Some? {
        var i :| 0 <= i < |before| && before[i] == old(selected).value;
        assert clients[i] == selected.value;
      }
    }

    /** `handleAddClient`: the client appended at the end (no duplicate check) and the list saved. */
    method AddClient(c: Client)
      requires Valid()
      modifies this, store
      ensures Valid()
      ensures clients == old(clients) + [c] && |clients| == |old(clients)| + 1
      ensures store.items == old(store.items)[ClientsKey := ClientsValue(clients)]
      ensures selected == old(selected) && (old(SelectionListed()) ==> SelectionListed())
      ensures authenticated == old(authenticated) && loading == old(loading)
    {
      var newClients := clients + [c];
      clients := newClients;
      store.SaveClients(newClients);
    }

    /** `handleDeleteClient`: every client with that id removed, the list saved, the selection cleared. */
    method DeleteClient(id: string)
      requires Valid()
      modifies this, store
      ensures Valid()
      ensures clients == RemoveById(old(clients), id)
      ensures store.items == old(store.items)[ClientsKey := ClientsValue(clients)]
      ensures selected.None?
      ensures authenticated == old(authenticated) && loading == old(loading)
    {
      var newClients := RemoveById(clients, id);
      clients := newClients;
      store.SaveClients(newClients);
      selected := None;
    }

    /** `onSelectClient`: a client picked from a list becomes the selection. */
    method Select(c: Client)
      modifies this`selected
      ensures selected == Some(c)
    {
      selected := Some(c);
    }

    /** `onBack`: the selection is cleared. */
    method Back()
      modifies this`selected
      ensures selected.None?
    {
      selected := None;
    }
  }
}
