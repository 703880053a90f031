/** The cached client and the client service as objects. Each method of the cache
    runs under its mutex, so it appears as one step to the others. */
module CachedClients {
  import opened Prelude
  import opened CredentialEvents

  // A client of the engine, which connects with the credentials it was built from.
  class Client {
    const builtFrom: Option<Credentials>
    // Whether it reaches the engine at the moment.
    var reaches: bool

    constructor (c: Option<Credentials>)
      ensures builtFrom == c && reaches
    {
      builtFrom, reaches := c, true;
    }

    method Test() returns (failed: bool)
      ensures failed <==> !reaches
    {
      failed := !reaches;
    }
  }

  class CachedOVirtClient {
    const name: string
    var credentials: Option<Credentials>
    var client: Option<Client>
    // Whether a function other than the default one builds the clients.
    var customCreate: bool
    // How many times building one may still fail.
    var faults: nat

    // Outside the lock, a client was built from the current credentials, and
    // from nil ones only by a custom function.
    ghost predicate Agrees()
      reads this
    {
      client.Some? ==> client.value.builtFrom == credentials && (credentials.Some? || customCreate)
    }

    constructor (n: string, misfortunes: nat)
      ensures name == n && Agrees() && credentials.None? && client.None? && !customCreate && faults == misfortunes
    {
      name, credentials, client, customCreate, faults := n, None, None, false, misfortunes;
    }

    method WithCreateFunc()
      modifies this`customCreate
      ensures customCreate && (old(Agrees()) ==> Agrees())
    {
      customCreate := true;
    }

    // The default function refuses nil credentials; otherwise either may fail.
    method Build() returns (built: Option<Client>)
      modifies this`faults
      ensures built.Some? ==> fresh(built.value) && built.value.builtFrom == credentials && built.value.reaches
      ensures credentials.None? && !customCreate ==> built.None?
      ensures faults <= old(faults)
      ensures built.None? ==> faults < old(faults) || (credentials.None? && !customCreate)
    {
      if credentials.None? && !customCreate { return None; }
      if * {
        if faults > 0 {
          faults := faults - 1;
          return None;
        }
      }
      var c := new Client(credentials);
      built := Some(c);
    }

    // A client that could not be replaced is invalidated.
    method BuildClient() returns (failed: bool)
      modifies this`client, this`faults
      ensures Agrees() && (failed <==> client.None?) && faults <= old(faults)
      ensures client.Some? ==> fresh(client.value) && client.value.reaches
      ensures failed ==> faults < old(faults) || (credentials.None? && !customCreate)
      ensures credentials.None? && !customCreate ==> failed
    {
      var newClient := Build();
      if newClient.None? {
        client := None;
        return true;
      }
      client := newClient;
      return false;
    }

    // Without a fault there is a new client afterwards.
    method SetCredentials(newCredentials: Credentials)
      modifies this`credentials, this`client, this`faults
      ensures Agrees() && credentials == Some(newCredentials)
      ensures client.Some? ==> fresh(client.value) && client.value.reaches
      ensures client.None? ==> faults < old(faults)
    {
      credentials := Some(newCredentials);
      var _ := BuildClient();
    }

    /** The cached client if it still reaches the engine, and otherwise one that was
        built by this call from the current credentials; without a fault there is
        none only for nil credentials. */
    method Get() returns (c: Option<Client>)
      requires Agrees()
      modifies this`client, this`faults
      ensures Agrees() && c == client
      ensures c.Some? ==> c.value.builtFrom == credentials
      ensures old(client.Some? && client.value.reaches) ==> c == old(client) && faults == old(faults)
      ensures !old(client.Some? && client.value.reaches) && c.Some? ==> fresh(c.value) && c.value.reaches
      ensures c.None? ==> faults < old(faults) || (credentials.None? && !customCreate)
      ensures credentials.None? && !customCreate ==> c.None?
    {
      var failed := true;
      if client.Some? { failed := client.value.Test(); }
      if client.None? || failed {
        failed := BuildClient();
        if failed { return None; }
      }
      c := client;
    }
  }

  class ClientService {
    var listeners: seq<CachedOVirtClient>
    ghost var handled: seq<Event>

    // Between two events every listener holds the newest valid credentials.
    ghost predicate Settled()
      reads this, listeners
    {
      forall l :: l in listeners ==> l.Agrees() && l.credentials == Newest(handled)
    }

    constructor ()
      ensures Settled() && listeners == [] && handled == []
    {
      listeners, handled := [], [];
    }

    // Listeners are added before the first event, when none holds credentials.
    method AddListener(l: CachedOVirtClient)
      requires Settled() && handled == [] && l.Agrees() && l.credentials.None?
      modifies this`listeners
      ensures Settled() && listeners == old(listeners) + [l]
    {
      listeners := listeners + [l];
    }

    method AddListeners(ls: seq<CachedOVirtClient>)
      requires Settled() && handled == []
      requires forall l :: l in ls ==> l.Agrees() && l.credentials.None?
      modifies this`listeners
      ensures Settled() && listeners == old(listeners) + ls
    {
      for i := 0 to |ls|
        invariant Settled() && listeners == old(listeners) + ls[..i]
      {
        AddListener(ls[i]);
        assert ls[..i + 1] == ls[..i] + [ls[i]];
      }
      assert ls[..|ls|] == ls;
    }

    method NewCachedClient(name: string, misfortunes: nat) returns (c: CachedOVirtClient)
      requires Settled() && handled == []
      modifies this`listeners
      ensures Settled() && fresh(c) && c.name == name && listeners == old(listeners) + [c]
    {
      c := new CachedOVirtClient(name, misfortunes);
      AddListener(c);
    }

    // Meanwhile the controllers call Get on their own clients.
    method OthersGet()
      requires forall l :: l in listeners ==> l.Agrees()
      modifies set l | l in listeners :: l`client, set l | l in listeners :: l`faults
      ensures forall l :: l in listeners ==> l.Agrees()
    {
    }

    // The first k listeners hold the new credentials, the others the previous ones.
    ghost predicate MidFanOut(k: nat, next: Credentials, previous: Option<Credentials>)
      requires k <= |listeners|
      reads this, listeners
    {
      forall l :: l in listeners ==>
        l.Agrees() && l.credentials == if l in listeners[..k] then Some(next) else previous
    }

    method FanOut(creds: Credentials, ghost previous: Option<Credentials>)
      requires forall l :: l in listeners ==> l.Agrees() && l.credentials == previous
      modifies listeners
      ensures forall l :: l in listeners ==> l.Agrees() && l.credentials == Some(creds)
    {
      for i := 0 to |listeners|
        invariant MidFanOut(i, creds, previous)
      {
        OthersGet();
        assert listeners[..i + 1] == listeners[..i] + [listeners[i]];
        listeners[i].SetCredentials(creds);
      }
      assert listeners[..|listeners|] == listeners;
    }

    // The loop, until the context ends after these events.
    method ProcessCredentialUpdate(events: seq<Event>)
      requires Settled()
      modifies this`handled, listeners
      ensures Settled() && handled == old(handled) + events
    {
      hide FromK8sSecret, WriteCA, ValidOnes;
      for i := 0 to |events|
        invariant Settled() && handled == old(handled) + events[..i]
      {
        ghost var previous := Newest(handled);
        var event := events[i];
        ValidOnesNext(handled, event);
        if event.Secret? {
          var parsed := FromK8sSecret(event.data);
          if parsed.Some? {
            var creds := WriteCA(parsed.value, event.file);
            if creds.Some? {
              FanOut(creds.value, previous);
            }
          }
        }
        handled := handled + [event];
        assert events[..i + 1] == events[..i] + [event];
      }
      assert events[..|events|] == events;
    }
  }
}
