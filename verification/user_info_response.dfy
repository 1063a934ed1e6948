/** The identity claims a userinfo endpoint returns: email, groups, name, subject,
    tenant and username. `groups` is one provider-defined string, never split. */
module UserInfo {
  import opened Java

  /** The six claims, as a value. */
  datatype Claims = Claims(
    email: Option<string>,
    groups: Option<string>,
    name: Option<string>,
    sub: Option<string>,
    tenant: Option<Int32>,
    username: Option<string>)

  /** The mutable response object the JSON parser fills in; each setter touches one field. */
  class UserInfoResponse {
    var email: Option<string>
    var groups: Option<string>
    var name: Option<string>
    var sub: Option<string>
    var tenant: Option<Int32>
    var username: Option<string>

    constructor ()
      ensures Snapshot() == Claims(None, None, None, None, None, None)
    {
      email, groups, name, sub, tenant, username := None, None, None, None, None, None;
    }

    /** The current claims. */
    function Snapshot(): Claims
      reads this
    {
      Claims(email, groups, name, sub, tenant, username)
    }

    function GetEmail(): Option<string>
      reads this
    {
      email
    }

    function GetGroups(): Option<string>
      reads this
    {
      groups
    }

    function GetName(): Option<string>
      reads this
    {
      name
    }

    function GetSub(): Option<string>
      reads this
    {
      sub
    }

    function GetUsername(): Option<string>
      reads this
    {
      username
    }

    /** The zero-argument `setTenant()` overload, which is the only way to read the
        tenant back: there is no getTenant. */
    function SetTenantAccessor(): Option<Int32>
      reads this
    {
      tenant
    }

    method SetEmail(value: Option<string>)
      modifies this`email
      ensures GetEmail() == value
      ensures Snapshot() == old(Snapshot()).(email := value)
    {
      email := value;
    }

    /** The groups string is stored as given, with no splitting into a list. */
    method SetGroups(value: Option<string>)
      modifies this`groups
      ensures GetGroups() == value
      ensures Snapshot() == old(Snapshot()).(groups := value)
    {
      groups := value;
    }

    method SetName(value: Option<string>)
      modifies this`name
      ensures GetName() == value
      ensures Snapshot() == old(Snapshot()).(name := value)
    {
      name := value;
    }

    method SetSub(value: Option<string>)
      modifies this`sub
      ensures GetSub() == value
      ensures Snapshot() == old(Snapshot()).(sub := value)
    {
      sub := value;
    }

    method SetUsername(value: Option<string>)
      modifies this`username
      ensures GetUsername() == value
      ensures Snapshot() == old(Snapshot()).(username := value)
    {
      username := value;
    }

    /** The one-argument `setTenant(Integer)`; null is stored as well. */
    method SetTenant(value: Option<Int32>)
      modifies this`tenant
      ensures SetTenantAccessor() == value
      ensures Snapshot() == old(Snapshot()).(tenant := value)
    {
      tenant := value;
    }
  }
}
