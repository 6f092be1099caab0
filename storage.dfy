/** The storage facade over the browser's key-value store. The store is a map from key to
    stored value; encoding to and from JSON is taken to be the identity, so a stored value is
    the record itself. */
module Storage {
  import opened Wrappers
  import opened Types
  import Seed

  const ClientsKey: string := "zenith_crm_clients"
  const ProfileKey: string := "zenith_crm_profile"
  /** The login session key, written by the app shell. */
  const AuthKey: string := "recnxt_auth_session"

  datatype Stored = ClientsValue(clients: seq<Client>) | ProfileValue(profile: AgencyProfile) | TextValue(text: string)

  /** Each key the application writes holds the kind of value written under it. */
  predicate WellTyped(items: map<string, Stored>) {
    && (ClientsKey in items ==> items[ClientsKey].ClientsValue?)
    && (ProfileKey in items ==> items[ProfileKey].ProfileValue?)
    && (AuthKey in items ==> items[AuthKey].TextValue?)
  }

  /** What `getClients` returns: the stored list, or the seed clients when nothing is stored. */
  function LoadClients(items: map<string, Stored>): (cs: seq<Client>)
    requires WellTyped(items)
    ensures ClientsKey !in items ==> cs == Seed.MockClients
    ensures ClientsKey in items ==> items[ClientsKey] == ClientsValue(cs)
  {
    if ClientsKey in items then items[ClientsKey].clients else Seed.MockClients
  }

  /** The store after `getClients`: the seed clients written when nothing was stored. */
  function Seeded(items: map<string, Stored>): (s: map<string, Stored>)
    requires WellTyped(items)
    ensures WellTyped(s)
    ensures ClientsKey in s && s[ClientsKey] == ClientsValue(LoadClients(items))
    ensures forall k :: k in items && k != ClientsKey ==> k in s && s[k] == items[k]
    ensures s.Keys == items.Keys + {ClientsKey}
  {
    if ClientsKey in items then items else items[ClientsKey := ClientsValue(Seed.MockClients)]
  }

  /** The profile written to an empty store. */
  function DefaultProfile(now: string): (p: AgencyProfile)
    ensures p.name == "Re:CNXT Agency" && p.website == "https://re-cnxt.agency" && p.plan == Pro
    ensures p.lastBackup == Some(now)
  {
    AgencyProfile("Re:CNXT Agency", "https://re-cnxt.agency", Pro, Some(now))
  }

  /** The reference meaning of `findIndex(c => c.id === id)`: the least index holding `id`, or -1. */
  function FirstIndex(cs: seq<Client>, id: string): (k: int)
    ensures -1 <= k < |cs|
    ensures k == -1 <==> forall i :: 0 <= i < |cs| ==> cs[i].id != id
    ensures 0 <= k ==> cs[k].id == id && forall i :: 0 <= i < k ==> cs[i].id != id
  {
    if cs == [] then -1
    else if cs[0].id == id then 0
    else
      var k := FirstIndex(cs[1..], id);
      if k == -1 then -1 else k + 1
  }

  /** `updateClient`'s list: the first client with `u`'s id replaced by `u`, everything else kept. */
  function ReplaceFirst(cs: seq<Client>, u: Client): (r: seq<Client>)
    ensures |r| == |cs|
    ensures FirstIndex(cs, u.id) == -1 ==> r == cs
    ensures FirstIndex(cs, u.id) != -1 ==> r == cs[FirstIndex(cs, u.id) := u]
  {
    var k := FirstIndex(cs, u.id);
    if k == -1 then cs else cs[k := u]
  }

  /** `findIndex`, scanning from the left. */
  method FindIndex(cs: seq<Client>, id: string) returns (index: int)
    ensures index == FirstIndex(cs, id)
  {
    index := 0;
    while index < |cs|
      invariant 0 <= index <= |cs|
      invariant forall i :: 0 <= i < index ==> cs[i].id != id
    {
      if cs[index].id == id {
        return;
      }
      index := index + 1;
    }
    index := -1;
  }

  /** The browser storage as `StorageService` and the app shell use it. */
  class LocalStore {
    var items: map<string, Stored>

    ghost predicate Valid()
      reads this
    {
      WellTyped(items)
    }

    constructor (initial: map<string, Stored>)
      requires WellTyped(initial)
      ensures Valid() && items == initial
    {
      items := initial;
    }

    /** `getClients`: an empty store is seeded with the mock clients, which are returned. */
    method GetClients() returns (cs: seq<Client>)
      requires Valid()
      modifies this
      ensures Valid()
      ensures cs == LoadClients(old(items)) && items == Seeded(old(items))
    {
      if ClientsKey !in items {
        SaveClients(Seed.MockClients);
        return Seed.MockClients;
      }
      cs := items[ClientsKey].clients;
    }

    /** `saveClients`: overwrites the clients entry and no other. */
    method SaveClients(cs: seq<Client>)
      requires Valid()
      modifies this
      ensures Valid()
      ensures items == old(items)[ClientsKey := ClientsValue(cs)]
      ensures LoadClients(items) == cs
    {
      items := items[ClientsKey := ClientsValue(cs)];
    }

    /** `getProfile`: an empty store is given the default profile, which is returned. */
    method GetProfile(now: string) returns (p: AgencyProfile)
      requires Valid()
      modifies this
      ensures Valid()
      ensures ProfileKey !in old(items) ==> p == DefaultProfile(now) && items == old(items)[ProfileKey := ProfileValue(p)]
      ensures ProfileKey in old(items) ==> old(items)[ProfileKey] == ProfileValue(p) && items == old(items)
    {
      if ProfileKey !in items {
        p := DefaultProfile(now);
        SaveProfile(p);
        return;
      }
      p := items[ProfileKey].profile;
    }

    /** `saveProfile`: overwrites the profile entry and no other. */
    method SaveProfile(p: AgencyProfile)
      requires Valid()
      modifies this
      ensures Valid()
      ensures items == old(items)[ProfileKey := ProfileValue(p)]
      ensures ClientsKey in items <==> ClientsKey in old(items)
      ensures ClientsKey in items ==> items[ClientsKey] == old(items)[ClientsKey]
    {
      items := items[ProfileKey := ProfileValue(p)];
    }

    /** `addClient`: the (possibly seeded) stored list with `c` pushed on the end. */
    method AddClient(c: Client)
      requires Valid()
      modifies this
      ensures Valid()
      ensures items == Seeded(old(items))[ClientsKey := ClientsValue(LoadClients(old(items)) + [c])]
      ensures |LoadClients(items)| == |LoadClients(old(items))| + 1
    {
      var clients := GetClients();
      clients := clients + [c];
      SaveClients(clients);
    }

    /** `updateClient`: the first stored client with `u`'s id is overwritten in place and the
        list saved; when no client has that id nothing is written beyond the seeding. */
    method UpdateClient(u: Client)
      requires Valid()
      modifies this
      ensures Valid()
      ensures FirstIndex(LoadClients(old(items)), u.id) == -1 ==> items == Seeded(old(items))
      ensures FirstIndex(LoadClients(old(items)), u.id) != -1 ==>
        items == Seeded(old(items))[ClientsKey := ClientsValue(ReplaceFirst(LoadClients(old(items)), u))]
    {
      var clients := GetClients();
      var index := FindIndex(clients, u.id);
      if index != -1 {
        var a := new Client[|clients|](i requires 0 <= i < |clients| => clients[i]);
        assert a[..] == clients;
        a[index] := u;
        SaveClients(a[..]);
      }
    }

    /** `localStorage.setItem(AUTH_KEY, key)`. */
    method SetSession(key: string)
      requires Valid()
      modifies this
      ensures Valid()
      ensures items == old(items)[AuthKey := TextValue(key)]
    {
      items := items[AuthKey := TextValue(key)];
    }
  }

  /** Saving a list and loading it back gives the same list. */
  lemma SaveThenLoad(items: map<string, Stored>, cs: seq<Client>)
    requires WellTyped(items)
    ensures WellTyped(items[ClientsKey := ClientsValue(cs)])
    ensures LoadClients(items[ClientsKey := ClientsValue(cs)]) == cs
    ensures Seeded(items[ClientsKey := ClientsValue(cs)]) == items[ClientsKey := ClientsValue(cs)]
  {
  }

  /** The three keys are distinct, so writing one entry never changes another. */
  lemma KeysDistinct()
    ensures ClientsKey != ProfileKey && ClientsKey != AuthKey && ProfileKey != AuthKey
  {
    assert ClientsKey[0] == 'z' && AuthKey[0] == 'r';
    assert ClientsKey[11] == 'c' && ProfileKey[11] == 'p';
  }

  /** Replacing the first match keeps length, changes at most one position, and
      leaves any later client with the same id untouched. */
  lemma ReplaceFirstKeepsLaterDuplicates(cs: seq<Client>, u: Client, j: int)
    requires 0 <= j < |cs| && cs[j].id == u.id && j != FirstIndex(cs, u.id)
    ensures ReplaceFirst(cs, u)[j] == cs[j]
    ensures FirstIndex(cs, u.id) < j
  {
  }
}
