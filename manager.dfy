/**
 * The iot-manager web application's own decisions: which settings it
 * requires at startup, which credential and Service Bus client it builds,
 * and the negotiate endpoint that trades the API key for a Web PubSub
 * access URI scoped to one group.
 */
module Manager {
  import opened Wrappers
  import opened Text
  import opened Protocol

  /** The credential every Azure client of the application uses. */
  datatype Credential = DefaultAzureCredential(includeInteractive: bool) | ManagedIdentityCredential(clientId: string)

  /** How the Service Bus client is built. */
  datatype ServiceBusClientChoice =
    | FromConnectionString(connectionString: string)
    | FromNamespace(fullyQualifiedNamespace: string, credential: Credential)

  /** The settings the application starts with. */
  datatype ManagerSettings = ManagerSettings(
    pubsubHostname: string,
    hubName: string,
    apiKey: string,
    credential: Credential,
    serviceBus: ServiceBusClientChoice)

  /** No client id selects the default credential chain; a client id selects that managed identity. */
  function ChooseCredential(azureClientId: Option<string>): (c: Credential)
    ensures c.DefaultAzureCredential? <==> azureClientId.None?
    ensures c.DefaultAzureCredential? ==> c.includeInteractive
    ensures c.ManagedIdentityCredential? ==> Some(c.clientId) == azureClientId
  {
    if azureClientId.None? then DefaultAzureCredential(true) else ManagedIdentityCredential(azureClientId.value)
  }

  /**
   * A setting that mentions "SharedAccessKey" in any letter case is a
   * connection string; anything else is a namespace used with the credential.
   */
  function ChooseServiceBusClient(setting: string, credential: Credential): (c: ServiceBusClientChoice)
    ensures c.FromConnectionString? <==> ContainsIgnoreCase(setting, "SharedAccessKey")
    ensures c.FromConnectionString? ==> c.connectionString == setting
    ensures c.FromNamespace? ==> c.fullyQualifiedNamespace == setting && c.credential == credential
  {
    if ContainsIgnoreCase(setting, "SharedAccessKey") then FromConnectionString(setting)
    else FromNamespace(setting, credential)
  }

  /** The test reads the setting without regard to letter case. */
  lemma ServiceBusChoiceIgnoresCase(setting: string, credential: Credential)
    ensures ChooseServiceBusClient(Upper(setting), credential).FromConnectionString?
        == ChooseServiceBusClient(setting, credential).FromConnectionString?
  {
    ContainsIgnoreCaseOfUpper(setting, "SharedAccessKey");
  }

  /** A connection string with a lower-case key name still selects the connection-string client. */
  lemma LowerCaseKeySelectsConnectionString(prefix: string, suffix: string, credential: Credential)
    ensures ChooseServiceBusClient(prefix + "sharedaccesskey" + suffix, credential).FromConnectionString?
  {
    var s := prefix + "sharedaccesskey" + suffix;
    var u := Upper(s);
    assert u[|prefix|..|prefix| + 15] == Upper("SharedAccessKey");
    assert OccursAt(u, Upper("SharedAccessKey"), |prefix|);
    OccursContains(u, Upper("SharedAccessKey"), |prefix|);
  }

  const MissingHostname := "Web PubSub hostname (WebPubSub:Hostname) is missing"
  const MissingHubName := "Web PubSub hub name (WebPubSub:HubName) is missing"
  const MissingApiKey := "API key (ApiKey) is missing"
  const MissingNamespace := "Service Bus namespace (ServiceBus:Namespace) is missing"

  /**
   * Startup: the hostname, the hub name and the API key are read in that
   * order and a missing one stops startup; the Service Bus namespace is
   * required when the clients are registered.
   */
  function LoadSettings(config: map<string, string>): (r: Result<ManagerSettings, string>)
    ensures r.Ok? <==> ("WebPubSub:Hostname" in config && "WebPubSub:HubName" in config
                        && "ApiKey" in config && "ServiceBus:Namespace" in config)
    ensures "WebPubSub:Hostname" !in config ==> r == Err(MissingHostname)
    ensures "WebPubSub:Hostname" in config && "WebPubSub:HubName" !in config ==> r == Err(MissingHubName)
    ensures "WebPubSub:Hostname" in config && "WebPubSub:HubName" in config && "ApiKey" !in config ==> r == Err(MissingApiKey)
    ensures ("WebPubSub:Hostname" in config && "WebPubSub:HubName" in config && "ApiKey" in config
             && "ServiceBus:Namespace" !in config) ==> r == Err(MissingNamespace)
    ensures r.Ok? ==> (r.value.pubsubHostname == config["WebPubSub:Hostname"]
                       && r.value.hubName == config["WebPubSub:HubName"]
                       && r.value.apiKey == config["ApiKey"])
    // the credential follows azureClientId, and the Service Bus client is chosen from the namespace with it
    ensures r.Ok? ==> (r.value.credential
                         == ChooseCredential(if "azureClientId" in config then Some(config["azureClientId"]) else None)
                       && r.value.serviceBus == ChooseServiceBusClient(config["ServiceBus:Namespace"], r.value.credential))
  {
    if "WebPubSub:Hostname" !in config then Err(MissingHostname)
    else if "WebPubSub:HubName" !in config then Err(MissingHubName)
    else if "ApiKey" !in config then Err(MissingApiKey)
    else
      var credential := ChooseCredential(if "azureClientId" in config then Some(config["azureClientId"]) else None);
      if "ServiceBus:Namespace" !in config then Err(MissingNamespace)
      else Ok(ManagerSettings(config["WebPubSub:Hostname"], config["WebPubSub:HubName"], config["ApiKey"],
                              credential, ChooseServiceBusClient(config["ServiceBus:Namespace"], credential)))
  }

  // ---------------------------------------------------------------------
  // GET /negotiate/{userId}/{groupName}

  /** The `GetClientAccessUriAsync` request: user, roles and groups. */
  datatype AccessRequest = AccessRequest(userId: string, roles: seq<string>, groups: seq<string>)

  /** The endpoint's answers. */
  datatype NegotiateResponse = Unauthorized | NegotiateOk(url: string) | ServerError

  /** What the endpoint asks of the service and what it answers. */
  datatype Negotiation = Negotiation(request: Option<AccessRequest>, response: NegotiateResponse)

  /** Send to and join or leave exactly the named group. */
  function GroupRoles(group: string): seq<string> {
    ["webpubsub.sendToGroup." + group, "webpubsub.joinLeaveGroup." + group]
  }

  /**
   * The negotiate handler. `appKey` is the `x-api-key` header (absent when
   * not sent); `issued` is what `GetClientAccessUriAsync` gives: the access
   * URI's `AbsoluteUri`, or a failure.
   */
  function Negotiate(applicationKey: string, appKey: Option<string>, userId: string, groupName: string,
                     issued: Result<string, string>): (n: Negotiation)
    // a wrong or missing key is refused before the service is asked anything
    ensures n.response == Unauthorized <==> appKey != Some(applicationKey)
    ensures n.request.None? <==> appKey != Some(applicationKey)
    // with the right key the URI is requested for that user, scoped to that one group
    ensures n.request.Some? ==> n.request.value == AccessRequest(userId, GroupRoles(groupName), [groupName])
    ensures n.response.NegotiateOk? <==> appKey == Some(applicationKey) && issued.Ok?
    ensures n.response.NegotiateOk? ==> n.response.url == issued.value
  {
    if appKey != Some(applicationKey) then Negotiation(None, Unauthorized)
    else
      var request := AccessRequest(userId, GroupRoles(groupName), [groupName]);
      match issued
      case Ok(uri) => Negotiation(Some(request), NegotiateOk(uri))
      case Err(_) => Negotiation(Some(request), ServerError)
  }

  /** The roles granted name the requested group and no other. */
  lemma RolesScopedToGroup(group: string, other: string)
    requires other != group
    ensures forall role :: role in GroupRoles(group) ==> role !in GroupRoles(other)
  {
    var send, join := "webpubsub.sendToGroup.", "webpubsub.joinLeaveGroup.";
    assert |send| == 22 && |join| == 25;
    forall role | role in GroupRoles(group) ensures role !in GroupRoles(other) {
      if role == send + group {
        assert (send + group)[..22] == send && (send + group)[22..] == group;
        assert (send + other)[22..] == other;
        assert (send + group)[21] != (join + other)[21];
      } else {
        assert (join + group)[25..] == group && (join + other)[25..] == other;
        if |group| == |other| - 3 {
          assert (join + group)[21] != (send + other)[21];
        }
      }
    }
  }

  /**
   * The route `/negotiate/{userId}/{groupName}`: a path of exactly two
   * non-empty segments after "negotiate".
   */
  function MatchNegotiateRoute(path: string): Option<(string, string)> {
    var parts := Split(path, '/');
    if |parts| == 4 && parts[0] == "" && parts[1] == "negotiate" && parts[2] != "" && parts[3] != ""
    then Some((parts[2], parts[3]))
    else None
  }

  /** A two-segment negotiate path is matched, and the route gives back user and group. */
  lemma NegotiateRouteRoundTrip(user: string, group: string)
    requires user != "" && group != "" && Free(user, '/') && Free(group, '/')
    ensures MatchNegotiateRoute(NegotiatePath(user, group)) == Some((user, group))
  {
    var path := NegotiatePath(user, group);
    assert path == [] + ['/'] + ("negotiate" + ['/'] + (user + ['/'] + group));
    SplitAfter([], '/', "negotiate" + ['/'] + (user + ['/'] + group));
    SplitAfter("negotiate", '/', user + ['/'] + group);
    SplitAfter(user, '/', group);
    SplitFree(group, '/');
  }

  /**
   * A one-segment path `/negotiate/{id}`, the address the device simulator
   * asks for, is matched by no route of the application.
   */
  lemma OneSegmentPathNotMapped(id: string)
    requires Free(id, '/')
    ensures MatchNegotiateRoute("/negotiate/" + id) == None
  {
    var path := "/negotiate/" + id;
    assert path == [] + ['/'] + ("negotiate" + ['/'] + id);
    SplitAfter([], '/', "negotiate" + ['/'] + id);
    SplitAfter("negotiate", '/', id);
    SplitFree(id, '/');
  }
}
