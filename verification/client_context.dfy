/** The transport switchboard: which client (REST or socket) the
    application talks through, persisted in browser storage. */
module ClientContext {
  import opened Outcomes
  import opened Storage

  const DefaultClientType: string := "rest"
  const MissingProviderText: string := "useClient must be used within a ClientProvider"

  /** The two configured clients. */
  datatype Client = RestClient | SocketClient

  /** What the provider exposes to its children. */
  datatype ContextValue = ContextValue(client: Client, clientType: string)

  /** The selection on first render: the stored value when there is a
      window and the stored value is non-empty (taken as it is, without
      checking it names a transport), `rest` otherwise. */
  function InitialClientType(hasWindow: bool, stored: Option<string>): (t: string)
    ensures t != ""
    ensures hasWindow && Truthy(stored) ==> t == stored.value
    ensures !(hasWindow && Truthy(stored)) ==> t == DefaultClientType
  {
    if hasWindow && Truthy(stored) then stored.value else DefaultClientType
  }

  /** `rest` selects the REST client; every other selection, including
      an unrecognised stored one, selects the socket client. */
  function GetClient(clientType: string): (c: Client)
    ensures c == RestClient <==> clientType == DefaultClientType
    ensures c == SocketClient <==> clientType != DefaultClientType
  {
    if clientType == DefaultClientType then RestClient else SocketClient
  }

  /** `useClient`: the provider's value, or an error outside a provider. */
  function UseClient(context: Option<ContextValue>): (r: Outcome<ContextValue>)
    ensures r.Err? <==> context.None?
    ensures r.Err? ==> r.message == MissingProviderText
    ensures r.Ok? ==> r.value == context.value
  {
    match context
    case None => Err(MissingProviderText)
    case Some(value) => Ok(value)
  }

  /** Storage after `switchClient(t)`: only the selection key is written,
      and only when there is a window. */
  function SwitchedStorage(hasWindow: bool, items: map<string, string>, t: string): map<string, string> {
    if hasWindow then items[ClientTypeKey := t] else items
  }

  /** Switching twice to the same transport is switching once. */
  lemma SwitchIdempotent(hasWindow: bool, items: map<string, string>, t: string)
    ensures SwitchedStorage(hasWindow, SwitchedStorage(hasWindow, items, t), t) == SwitchedStorage(hasWindow, items, t)
  {
  }

  /** Switching writes no key but the selection: the stored token in
      particular is untouched, and the selection reads back as `t`. */
  lemma SwitchKeepsOtherKeys(hasWindow: bool, items: map<string, string>, t: string, key: string)
    requires key != ClientTypeKey
    ensures Lookup(SwitchedStorage(hasWindow, items, t), key) == Lookup(items, key)
    ensures hasWindow ==> Lookup(SwitchedStorage(hasWindow, items, t), ClientTypeKey) == Some(t)
  {
  }

  class ClientProvider {
    var clientType: string
    const hasWindow: bool
    const storage: LocalStorage

    /** The value handed to `useClient`. */
    function Value(): (v: ContextValue)
      reads this
      ensures v.clientType == clientType
      ensures v.client == RestClient <==> clientType == DefaultClientType
    {
      ContextValue(GetClient(clientType), clientType)
    }

    constructor (hasWindow: bool, storage: LocalStorage)
      ensures this.hasWindow == hasWindow && this.storage == storage
      ensures clientType == InitialClientType(hasWindow, Lookup(storage.items, ClientTypeKey))
    {
      this.hasWindow := hasWindow;
      this.storage := storage;
      var stored: Option<string> := None;
      if hasWindow {
        stored := storage.GetItem(ClientTypeKey);
      }
      clientType := InitialClientType(hasWindow, stored);
    }

    /** Persist and select transport `t`; the exposed client follows. */
    method SwitchClient(t: string)
      modifies this, storage
      ensures clientType == t && Value().client == GetClient(t)
      ensures storage.items == SwitchedStorage(hasWindow, old(storage.items), t)
      ensures Lookup(storage.items, TokenKey) == Lookup(old(storage.items), TokenKey)
    {
      if hasWindow {
        storage.SetItem(ClientTypeKey, t);
      }
      clientType := t;
    }
  }
}
