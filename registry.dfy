/**
 * `DeviceRegistrationService`: registers a device in the IoT hub registry
 * (create if absent, else fetch the existing one) and hands back its
 * connection string; deregistration removes it and ignores a missing one.
 */
module Registry {
  import opened Wrappers
  import opened Text

  /** A device's primary symmetric key; the hub generates it when the device is added. */
  type Key = string

  /** A registry call that fails for any reason other than already-exists or not-found. */
  datatype RegistryError = RegistryError(message: string)

  /** `HostName={host};DeviceId={id};SharedAccessKey={key}` */
  function ConnectionString(host: string, id: string, key: Key): string {
    "HostName=" + host + ";DeviceId=" + id + ";SharedAccessKey=" + key
  }

  /** The three settings a device reads back from its connection string. */
  datatype ConnectionSettings = ConnectionSettings(hostName: string, deviceId: string, key: Key)

  /** Reading a connection string of the three fields, in that order. */
  function ParseConnectionString(s: string): Option<ConnectionSettings> {
    var parts := Split(s, ';');
    if |parts| == 3
      && StartsWith(parts[0], "HostName=")
      && StartsWith(parts[1], "DeviceId=")
      && StartsWith(parts[2], "SharedAccessKey=")
    then Some(ConnectionSettings(parts[0][9..], parts[1][9..], parts[2][16..]))
    else None
  }

  /** A field: a name then a value, neither holding a ';'. */
  lemma FieldFree(name: string, value: string)
    requires Free(name, ';') && Free(value, ';')
    ensures Free(name + value, ';')
  {
    var field := name + value;
    forall i | 0 <= i < |field|
      ensures field[i] != ';'
    {
      if i >= |name| {
        assert field[i] == value[i - |name|];
      }
    }
  }

  /** Splitting three ';'-free fields joined by ';' gives the three fields back. */
  lemma SplitFields(a: string, b: string, c: string)
    requires Free(a, ';') && Free(b, ';') && Free(c, ';')
    ensures Split(a + [';'] + (b + [';'] + c), ';') == [a, b, c]
  {
    SplitAfter(a, ';', b + [';'] + c);
    SplitAfter(b, ';', c);
    SplitFree(c, ';');
  }

  /** A field starts with its name, and the value follows it. */
  lemma FieldValue(name: string, value: string)
    ensures StartsWith(name + value, name) && (name + value)[|name|..] == value
  {
    assert (name + value)[..|name|] == name;
  }

  /** Regrouping three fields whose separators lead the second and third. */
  lemma JoinFields(a: string, x: string, b: string, y: string, c: string, z: string)
    ensures a + x + ([';'] + b) + y + ([';'] + c) + z == (a + x) + [';'] + ((b + y) + [';'] + (c + z))
  {
    var f, g, h := a + x, b + y, c + z;
    assert a + x + ([';'] + b) + y == f + [';'] + g;
    assert f + [';'] + g + ([';'] + c) + z == f + [';'] + g + [';'] + h;
  }

  /** The connection string is its three fields joined by ';'. */
  lemma ConnectionStringFields(host: string, id: string, key: Key)
    ensures ConnectionString(host, id, key)
      == ("HostName=" + host) + [';'] + (("DeviceId=" + id) + [';'] + ("SharedAccessKey=" + key))
  {
    assert ";DeviceId=" == [';'] + "DeviceId=";
    assert ";SharedAccessKey=" == [';'] + "SharedAccessKey=";
    JoinFields("HostName=", host, "DeviceId=", id, "SharedAccessKey=", key);
  }

  /** The connection string gives back host, device id and key, when none holds a ';'. */
  lemma ConnectionStringRoundTrip(host: string, id: string, key: Key)
    requires Free(host, ';') && Free(id, ';') && Free(key, ';')
    ensures ParseConnectionString(ConnectionString(host, id, key)) == Some(ConnectionSettings(host, id, key))
  {
    var a, b, c := "HostName=" + host, "DeviceId=" + id, "SharedAccessKey=" + key;
    FieldFree("HostName=", host);
    FieldFree("DeviceId=", id);
    FieldFree("SharedAccessKey=", key);
    ConnectionStringFields(host, id, key);
    SplitFields(a, b, c);
    FieldValue("HostName=", host);
    FieldValue("DeviceId=", id);
    FieldValue("SharedAccessKey=", key);
  }

  /**
   * `RegisterDeviceAsync` on a registry of device keys. `generated` is the
   * key the hub would give a new device; `failure` is a registry fault that
   * makes the first call throw.
   */
  function Register(registry: map<string, Key>, id: string, host: string, generated: Key, failure: Option<RegistryError>)
    : (map<string, Key>, Result<string, RegistryError>)
  {
    if failure.Some? then (registry, Err(failure.value))
    else if id in registry then (registry, Ok(ConnectionString(host, id, registry[id])))
    else (registry[id := generated], Ok(ConnectionString(host, id, generated)))
  }

  /** `DeregisterDeviceAsync`: a missing device is not an error. */
  function Deregister(registry: map<string, Key>, id: string, failure: Option<RegistryError>)
    : (map<string, Key>, Result<(), RegistryError>)
  {
    if failure.Some? then (registry, Err(failure.value))
    else if id in registry then (registry - {id}, Ok(()))
    else (registry, Ok(()))
  }

  /**
   * Registering adds at most one device, the requested one, and returns
   * the connection string built from the key the registry then holds.
   */
  lemma RegisterEffect(registry: map<string, Key>, id: string, host: string, generated: Key, failure: Option<RegistryError>)
    ensures var (after, r) := Register(registry, id, host, generated, failure);
      && registry.Keys <= after.Keys
      && after.Keys <= registry.Keys + {id}
      && (forall k :: k in registry ==> after[k] == registry[k])
      && (r.Ok? <==> failure.None?)
      && (r.Ok? ==> id in after && r.value == ConnectionString(host, id, after[id]))
      && (r.Err? ==> after == registry)
      && (id !in registry && r.Ok? ==> |after| == |registry| + 1)
  {
  }

  /** Registering twice yields the same string and the same single device. */
  lemma RegisterIdempotent(registry: map<string, Key>, id: string, host: string, generated: Key, generated': Key)
    ensures var (once, r1) := Register(registry, id, host, generated, None);
      var (twice, r2) := Register(once, id, host, generated', None);
      twice == once && r2 == r1
  {
  }

  /** Deregistering removes the named device only; a missing one leaves the registry as it was. */
  lemma DeregisterEffect(registry: map<string, Key>, id: string, failure: Option<RegistryError>)
    ensures var (after, r) := Deregister(registry, id, failure);
      && (r.Ok? <==> failure.None?)
      && (r.Ok? ==> id !in after)
      && (forall k :: k != id ==> (k in after <==> k in registry))
      && (forall k :: k in after ==> after[k] == registry[k])
      && (id !in registry ==> after == registry)
  {
  }

  /** Deregistering a device that registering just added restores the registry. */
  lemma DeregisterUndoesRegister(registry: map<string, Key>, id: string, host: string, generated: Key)
    requires id !in registry
    ensures Deregister(Register(registry, id, host, generated, None).0, id, None).0 == registry
  {
    assert registry[id := generated] - {id} == registry;
  }

  /** The service over the hub's registry, which its calls add to and remove from. */
  class DeviceRegistrationService {
    /** The registry: device id to primary key. */
    var registry: map<string, Key>

    constructor(initial: map<string, Key>)
      ensures registry == initial
    {
      registry := initial;
    }

    /**
     * Add the device; on already-exists fetch it instead; any other failure
     * propagates. Returns the device's connection string.
     */
    method RegisterDevice(id: string, host: string, generated: Key, failure: Option<RegistryError>)
      returns (r: Result<string, RegistryError>)
      modifies this
      ensures (registry, r) == Register(old(registry), id, host, generated, failure)
    {
      var key: Key;
      // AddDeviceAsync
      if failure.Some? {
        return Err(failure.value);
      }
      if id !in registry {
        registry := registry[id := generated];
        key := generated;
      } else {
        // DeviceAlreadyExistsException: GetDeviceAsync
        key := registry[id];
      }
      r := Ok(ConnectionString(host, id, key));
    }

    /** Fetch and remove the device; a not-found failure is swallowed. */
    method DeregisterDevice(id: string, failure: Option<RegistryError>) returns (r: Result<(), RegistryError>)
      modifies this
      ensures (registry, r) == Deregister(old(registry), id, failure)
    {
      // GetDeviceAsync
      if failure.Some? {
        return Err(failure.value);
      }
      if id in registry {
        // RemoveDeviceAsync
        registry := registry - {id};
      }
      // DeviceNotFoundException: logged and ignored
      r := Ok(());
    }
  }
}
