/** The SCIM resource records of pkg/clients/scim/definitions.go. */
module Resources {

  /** A multi-valued attribute entry (an email, a group or a member reference). */
  datatype MultiValuedAttribute = MultiValuedAttribute(primary: bool, display: string, value: string)

  /** A SCIM user; the empty `name` and `meta` objects carry nothing and are not modelled. */
  datatype User = User(
    id: string,
    externalId: string,
    schemas: seq<string>,
    userName: string,
    displayName: string,
    active: bool,
    emails: seq<MultiValuedAttribute>,
    groups: seq<MultiValuedAttribute>,
    userType: string)

  /** A SCIM group. */
  datatype Group = Group(
    id: string,
    externalId: string,
    schemas: seq<string>,
    displayName: string,
    members: seq<MultiValuedAttribute>)

  /** A list response: the `Resources` array. */
  datatype UserList = UserList(resources: seq<User>)

  datatype GroupList = GroupList(resources: seq<Group>)
}
