/**
 * internal/plugin/scim/plugin.go: the identity-management plugin. It is configured once
 * (filter attributes and a SCIM client), then answers "users of a group", "groups of a
 * user" and "all groups" by listing SCIM resources and keeping their display names.
 */
module Plugin {
  import opened Wrappers
  import opened Text
  import opened Errors
  import opened Filter
  import opened Http
  import opened Resources
  import opened Helpers
  import Configuration
  import Scim

  const DefaultFilterAttribute := "displayName"
  const DefaultUsersFilterAttribute := DefaultFilterAttribute
  const DefaultGroupsFilterAttribute := DefaultFilterAttribute

  /** The filter attributes Configure loads; empty means the default. */
  datatype Params = Params(groupAttribute: string, userAttribute: string)

  /** A user of the plugin's response; only the name is filled in. */
  datatype IdmUser = IdmUser(name: string)

  /** A group of the plugin's response; only the name is filled in. */
  datatype IdmGroup = IdmGroup(name: string)

  /**
   * getFilter: no filter for an empty value; otherwise an equality on the value, over
   * the set attribute when there is one and over the default attribute otherwise.
   */
  function GetFilter(defaultAttribute: string, value: string, setAttribute: string): (f: FilterExpr)
    ensures f == Null <==> value == ""
    ensures value != "" ==>
      f.Comparison? && f.op == Equal && f.value == value
      && f.attribute == (if setAttribute != "" then setAttribute else defaultAttribute)
  {
    if value == "" then
      Null
    else
      var filter := Comparison(defaultAttribute, Equal, value);
      if setAttribute != "" then filter.(attribute := setAttribute) else filter
  }

  /** The filter text sent for a non-empty id: `<attribute> eq "<id>"`. */
  lemma FilterText(value: string, setAttribute: string)
    requires value != ""
    ensures ToString(GetFilter(DefaultFilterAttribute, value, setAttribute))
      == (if setAttribute != "" then setAttribute else "displayName") + " eq \"" + value + "\""
  {
  }

  /**
   * The plugin's POST searches are never refused for a missing filter: for a non-empty
   * id the body is the marshalled document whose filter is the comparison's text.
   */
  lemma PluginSearchHasFilter(value: string, setAttribute: string, marshal: Marshal)
    requires value != ""
    ensures var f := GetFilter(DefaultFilterAttribute, value, setAttribute);
      var built := BuildQueryStringAndBody(true, Some(f), None, None, marshal);
      built != Failure(Sentinel(ErrNoFilter))
      && SearchDocument(f, None, None).filter == Some(ToString(f))
      && (marshal(SearchDocument(f, None, None)).Success? ==> built.Success?)
  {
  }

  /**
   * The response users: one entry per SCIM user, in the same order, carrying that user's
   * display name.
   */
  method ProjectUsers(resources: seq<User>) returns (users: seq<IdmUser>)
    ensures |users| == |resources|
    ensures forall i :: 0 <= i < |resources| ==> users[i] == IdmUser(resources[i].displayName)
  {
    var responseUsers := new IdmUser[|resources|];
    for i := 0 to |resources|
      invariant forall j :: 0 <= j < i ==> responseUsers[j] == IdmUser(resources[j].displayName)
    {
      responseUsers[i] := IdmUser(resources[i].displayName);
    }
    users := responseUsers[..];
  }

  /**
   * The response groups: one entry per SCIM group, in the same order, carrying that
   * group's display name.
   */
  method ProjectGroups(resources: seq<Group>) returns (groups: seq<IdmGroup>)
    ensures |groups| == |resources|
    ensures forall i :: 0 <= i < |resources| ==> groups[i] == IdmGroup(resources[i].displayName)
  {
    var responseGroups := new IdmGroup[|resources|];
    for i := 0 to |resources|
      invariant forall j :: 0 <= j < i ==> responseGroups[j] == IdmGroup(resources[j].displayName)
    {
      responseGroups[i] := IdmGroup(resources[i].displayName);
    }
    groups := responseGroups[..];
  }

  /** The messages Configure puts in front of a reading failure, one per step. */
  const ConfigureMessages: set<string> := {
    "Failed to get yaml Configuration", "Failed loading host", "Failed unmarshalling group attribute",
    "Failed loading user attribute", "Failed unmarshalling user attribute"}

  /** The configuration and the parameters Configure reads before building the client. */
  datatype Loaded = Loaded(cfg: Configuration.Config, params: Params)

  /**
   * The reading steps of Configure, in order: the YAML, then the group attribute (loaded,
   * then parsed as a JSON string), then the user attribute. The first failure is the
   * result, prefixed with the step's message.
   */
  function LoadConfiguration(yaml: string, loader: Configuration.Loader): (r: Result<Loaded, Error>)
    ensures r.Success? ==>
      loader.parseYaml(yaml) == Success(r.value.cfg)
      && loader.loadValue(r.value.cfg.params.groupAttribute).Success?
      && loader.unmarshalString(loader.loadValue(r.value.cfg.params.groupAttribute).value)
         == Success(r.value.params.groupAttribute)
      && loader.loadValue(r.value.cfg.params.userAttribute).Success?
      && loader.unmarshalString(loader.loadValue(r.value.cfg.params.userAttribute).value)
         == Success(r.value.params.userAttribute)
    ensures loader.parseYaml(yaml).Failure? ==>
      r == Failure(Prefixed("Failed to get yaml Configuration", loader.parseYaml(yaml).error))
    ensures loader.parseYaml(yaml).Success? && loader.loadValue(loader.parseYaml(yaml).value.params.groupAttribute).Failure? ==>
      r == Failure(Prefixed("Failed loading host", loader.loadValue(loader.parseYaml(yaml).value.params.groupAttribute).error))
    ensures var y := loader.parseYaml(yaml);
      y.Success? && loader.loadValue(y.value.params.groupAttribute).Success? ==>
        var g := loader.unmarshalString(loader.loadValue(y.value.params.groupAttribute).value);
        (g.Failure? ==> r == Failure(Prefixed("Failed unmarshalling group attribute", g.error)))
        && (g.Success? ==>
              var ub := loader.loadValue(y.value.params.userAttribute);
              (ub.Failure? ==> r == Failure(Prefixed("Failed loading user attribute", ub.error)))
              && (ub.Success? ==>
                    var u := loader.unmarshalString(ub.value);
                    (u.Failure? ==> r == Failure(Prefixed("Failed unmarshalling user attribute", u.error)))
                    && (u.Success? ==> r == Success(Loaded(y.value, Params(g.value, u.value))))))
    ensures r.Failure? ==> r.error.Prefixed? && r.error.prefix in ConfigureMessages
  {
    match loader.parseYaml(yaml)
    case Failure(err) => Failure(Prefixed("Failed to get yaml Configuration", err))
    case Success(cfg) =>
      match loader.loadValue(cfg.params.groupAttribute)
      case Failure(err) => Failure(Prefixed("Failed loading host", err))
      case Success(groupAttrBytes) =>
        match loader.unmarshalString(groupAttrBytes)
        case Failure(err) => Failure(Prefixed("Failed unmarshalling group attribute", err))
        case Success(groupAttr) =>
          match loader.loadValue(cfg.params.userAttribute)
          case Failure(err) => Failure(Prefixed("Failed loading user attribute", err))
          case Success(userAttrBytes) =>
            match loader.unmarshalString(userAttrBytes)
            case Failure(err) => Failure(Prefixed("Failed unmarshalling user attribute", err))
            case Success(userAttr) => Success(Loaded(cfg, Params(groupAttr, userAttr)))
  }

  /** The plugin: its SCIM client (none until configured) and its filter attributes. */
  class Plugin {
    var scimClient: Scim.Client?
    var params: Params

    /** NewPlugin: no client, empty attributes. */
    constructor()
      ensures scimClient == null && params == Params("", "")
    {
      scimClient := null;
      params := Params("", "");
    }

    /**
     * Configure: reads the YAML and both attributes, stores the attributes, then builds
     * the client and stores it. A reading failure changes nothing; a client failure
     * leaves the new attributes in place and the old client.
     */
    method Configure(yaml: string, loader: Configuration.Loader, roundTrip: RoundTripper)
      returns (err: Option<Error>)
      modifies this
      ensures LoadConfiguration(yaml, loader).Failure? ==>
        err == Some(LoadConfiguration(yaml, loader).error)
        && params == old(params) && scimClient == old(scimClient)
      ensures LoadConfiguration(yaml, loader).Success? ==>
        var loaded := LoadConfiguration(yaml, loader).value;
        var mode := Scim.SelectAuth(loaded.cfg.auth, loader);
        params == loaded.params
        && (mode.Failure? ==> err == Some(mode.error) && scimClient == old(scimClient))
        && (mode.Success? ==>
              err == None && scimClient != null && fresh(scimClient) && fresh(scimClient.httpClient)
              && scimClient.scimHost == loaded.cfg.host && scimClient.httpClient.sent == []
              && scimClient.httpClient.roundTrip == roundTrip
              && scimClient.basicAuth == (if mode.value.BasicMode? then Some(mode.value.basic) else None)
              && scimClient.httpClient.certificates == (if mode.value.MutualTls? then [mode.value.cert] else []))
    {
      var cfg := loader.parseYaml(yaml);
      if cfg.Failure? {
        return Some(Prefixed("Failed to get yaml Configuration", cfg.error));
      }
      var groupAttrBytes := loader.loadValue(cfg.value.params.groupAttribute);
      if groupAttrBytes.Failure? {
        return Some(Prefixed("Failed loading host", groupAttrBytes.error));
      }
      var groupAttr := loader.unmarshalString(groupAttrBytes.value);
      if groupAttr.Failure? {
        return Some(Prefixed("Failed unmarshalling group attribute", groupAttr.error));
      }
      var userAttrBytes := loader.loadValue(cfg.value.params.userAttribute);
      if userAttrBytes.Failure? {
        return Some(Prefixed("Failed loading user attribute", userAttrBytes.error));
      }
      var userAttr := loader.unmarshalString(userAttrBytes.value);
      if userAttr.Failure? {
        return Some(Prefixed("Failed unmarshalling user attribute", userAttr.error));
      }

      params := Params(groupAttr.value, userAttr.value);

      var client := Scim.NewClientFromAPI(cfg.value, loader, roundTrip);
      if client.Failure? {
        return Some(client.error);
      }

      scimClient := client.value;
      return None;
    }

    /**
     * GetAllGroups: lists every group with a GET and no filter; a failure is wrapped
     * under ErrGetGroupsForUser.
     */
    method GetAllGroups(rt: Scim.Runtime) returns (r: Result<seq<IdmGroup>, Error>)
      requires scimClient != null
      modifies scimClient.httpClient
      ensures var o := scimClient.ListGroupsCall(rt, false, Some(Null), None, None);
        scimClient.httpClient.sent == old(scimClient.httpClient.sent) + o.sent
        && (o.result.Failure? ==> r == Failure(Wrap(Sentinel(ErrGetGroupsForUser), o.result.error)))
        && (o.result.Success? ==>
              r.Success? && |r.value| == |o.result.value.resources|
              && forall i :: 0 <= i < |r.value| ==> r.value[i] == IdmGroup(o.result.value.resources[i].displayName))
    {
      var groups := scimClient.ListGroups(rt, false, Some(Null), None, None);
      if groups.Failure? {
        return Failure(Wrap(Sentinel(ErrGetGroupsForUser), groups.error));
      }
      var responseGroups := ProjectGroups(groups.value.resources);
      return Success(responseGroups);
    }

    /**
     * GetUsersForGroup: refused without a client; an empty group id is refused with
     * ErrNoID before any request; otherwise the users matching the group filter are
     * listed with a POST search, and a failure is wrapped under ErrGetUsersForGroup.
     */
    method GetUsersForGroup(rt: Scim.Runtime, groupId: string) returns (r: Result<seq<IdmUser>, Error>)
      modifies if scimClient != null then {scimClient.httpClient} else {}
      ensures scimClient == null ==> r == Failure(Sentinel(ErrNoScimClient))
      ensures scimClient != null && groupId == "" ==>
        r == Failure(Wrap(Sentinel(ErrGetUsersForGroup), Sentinel(ErrNoID)))
        && scimClient.httpClient.sent == old(scimClient.httpClient.sent)
      ensures scimClient != null && groupId != "" ==>
        var filter := GetFilter(DefaultGroupsFilterAttribute, groupId, params.groupAttribute);
        var o := scimClient.ListUsersCall(rt, true, Some(filter), None, None);
        scimClient.httpClient.sent == old(scimClient.httpClient.sent) + o.sent
        && (o.result.Failure? ==> r == Failure(Wrap(Sentinel(ErrGetUsersForGroup), o.result.error)))
        && (o.result.Success? ==>
              r.Success? && |r.value| == |o.result.value.resources|
              && forall i :: 0 <= i < |r.value| ==> r.value[i] == IdmUser(o.result.value.resources[i].displayName))
    {
      if scimClient == null {
        return Failure(Sentinel(ErrNoScimClient));
      }
      var attr := params.groupAttribute;
      var filter := GetFilter(DefaultGroupsFilterAttribute, groupId, attr);
      if filter == Null {
        return Failure(Wrap(Sentinel(ErrGetUsersForGroup), Sentinel(ErrNoID)));
      }
      var users := scimClient.ListUsers(rt, true, Some(filter), None, None);
      if users.Failure? {
        return Failure(Wrap(Sentinel(ErrGetUsersForGroup), users.error));
      }
      var responseUsers := ProjectUsers(users.value.resources);
      return Success(responseUsers);
    }

    /**
     * GetGroupsForUser: refused without a client; an empty user id is refused with
     * ErrNoID before any request; otherwise the groups matching the user filter are
     * listed with a POST search, and a failure is wrapped under ErrGetGroupsForUser.
     */
    method GetGroupsForUser(rt: Scim.Runtime, userId: string) returns (r: Result<seq<IdmGroup>, Error>)
      modifies if scimClient != null then {scimClient.httpClient} else {}
      ensures scimClient == null ==> r == Failure(Sentinel(ErrNoScimClient))
      ensures scimClient != null && userId == "" ==>
        r == Failure(Wrap(Sentinel(ErrGetGroupsForUser), Sentinel(ErrNoID)))
        && scimClient.httpClient.sent == old(scimClient.httpClient.sent)
      ensures scimClient != null && userId != "" ==>
        var filter := GetFilter(DefaultUsersFilterAttribute, userId, params.userAttribute);
        var o := scimClient.ListGroupsCall(rt, true, Some(filter), None, None);
        scimClient.httpClient.sent == old(scimClient.httpClient.sent) + o.sent
        && (o.result.Failure? ==> r == Failure(Wrap(Sentinel(ErrGetGroupsForUser), o.result.error)))
        && (o.result.Success? ==>
              r.Success? && |r.value| == |o.result.value.resources|
              && forall i :: 0 <= i < |r.value| ==> r.value[i] == IdmGroup(o.result.value.resources[i].displayName))
    {
      if scimClient == null {
        return Failure(Sentinel(ErrNoScimClient));
      }
      var attr := params.userAttribute;
      var filter := GetFilter(DefaultUsersFilterAttribute, userId, attr);
      if filter == Null {
        return Failure(Wrap(Sentinel(ErrGetGroupsForUser), Sentinel(ErrNoID)));
      }
      var groups := scimClient.ListGroups(rt, true, Some(filter), None, None);
      if groups.Failure? {
        return Failure(Wrap(Sentinel(ErrGetGroupsForUser), groups.error));
      }
      var responseGroups := ProjectGroups(groups.value.resources);
      return Success(responseGroups);
    }
  }
}
