/** Levels of permission: their names, and which level is enough for which. */
module Authenticators {
  import opened Base64
  import opened Authorization

  datatype Permissions = NoPermissions | ReadOnly | ReadWrite | Administrator

  /** How an attempt to establish who the caller is can end. */
  datatype AuthResult = Authenticated | InvalidCredentials | ServerError

  function PermissionsToString(permissions: Permissions): Bytes {
    match permissions
    case NoPermissions => "none"
    case ReadOnly => "read_only"
    case ReadWrite => "read_write"
    case Administrator => "admin"
  }

  function Lowered(s: Bytes): (t: Bytes)
    ensures |t| == |s|
  {
    seq(|s|, i requires 0 <= i < |s| => Lower(s[i]))
  }

  function StringToPermissions(name: Bytes): Permissions {
    var permissions := Lowered(name);
    if permissions == "none" then NoPermissions
    else if permissions == "read_only" || permissions == "read-only" || permissions == "readonly" then ReadOnly
    else if permissions == "read_write" || permissions == "read-write" || permissions == "readwrite" then ReadWrite
    else if permissions == "admin" || permissions == "administrator" then Administrator
    else NoPermissions
  }

  /** A level's name, in any casing, reads back as that level. */
  lemma NameRoundTrip(permissions: Permissions, name: Bytes)
    requires EqualsIgnoringCase(name, PermissionsToString(permissions))
    ensures StringToPermissions(name) == permissions
  {
    var printed := PermissionsToString(permissions);
    forall i | 0 <= i < |name|
      ensures Lowered(name)[i] == printed[i]
    {
      assert Lower(name[i]) == Lower(printed[i]);
    }
    assert Lowered(name) == printed;
  }

  lemma LoweredIs(name: Bytes, printed: Bytes)
    requires Lowered(printed) == printed
    ensures Lowered(name) == printed <==> EqualsIgnoringCase(name, printed)
  {
    if Lowered(name) == printed {
      forall i | 0 <= i < |name|
        ensures Lower(name[i]) == Lower(printed[i])
      {
        assert Lowered(name)[i] == printed[i] && Lowered(printed)[i] == printed[i];
      }
    }
    if EqualsIgnoringCase(name, printed) {
      forall i | 0 <= i < |name|
        ensures Lowered(name)[i] == printed[i]
      {
        assert Lowered(printed)[i] == printed[i];
      }
    }
  }

  /** All the spellings of each level; every other text grants nothing. */
  lemma NamesAre(name: Bytes)
    ensures PermissionsToString(ReadOnly) == "read_only" && PermissionsToString(ReadWrite) == "read_write"
    ensures PermissionsToString(Administrator) == "admin" && PermissionsToString(NoPermissions) == "none"
    ensures StringToPermissions(name) == ReadOnly
            <==> exists s :: s in ["read_only", "read-only", "readonly"] && EqualsIgnoringCase(name, s)
    ensures StringToPermissions(name) == ReadWrite
            <==> exists s :: s in ["read_write", "read-write", "readwrite"] && EqualsIgnoringCase(name, s)
    ensures StringToPermissions(name) == Administrator
            <==> exists s :: s in ["admin", "administrator"] && EqualsIgnoringCase(name, s)
  {
    hide EqualsIgnoringCase;
    LoweredIs(name, "read_only");
    LoweredIs(name, "read-only");
    LoweredIs(name, "readonly");
    LoweredIs(name, "read_write");
    LoweredIs(name, "read-write");
    LoweredIs(name, "readwrite");
    LoweredIs(name, "admin");
    LoweredIs(name, "administrator");
  }

  function Rank(permissions: Permissions): nat {
    match permissions
    case ReadOnly => 1
    case ReadWrite => 2
    case Administrator => 3
    case NoPermissions => 0
  }

  predicate Satisfies(held: Permissions, required: Permissions) {
    Rank(held) >= 1 && Rank(required) >= 1 && Rank(held) >= Rank(required)
  }

  /** The whole order: more is enough for less, and nothing is enough for a route that asks for no level. */
  lemma LevelsAreOrdered(held: Permissions, required: Permissions)
    ensures Satisfies(held, required)
            <==> || (required == ReadOnly && held in {ReadOnly, ReadWrite, Administrator})
                 || (required == ReadWrite && held in {ReadWrite, Administrator})
                 || (required == Administrator && held == Administrator)
  {
  }

  /**
   One level satisfies another exactly when that other one grants something and everything it
   grants is granted by the first.  Requiring no permissions at all is satisfied by nobody.
   */
  lemma SatisfiesIsInclusion(held: Permissions, required: Permissions)
    ensures Satisfies(held, required)
            <==> required != NoPermissions && forall p :: Satisfies(required, p) ==> Satisfies(held, p)
  {
    if required != NoPermissions && forall p :: Satisfies(required, p) ==> Satisfies(held, p) {
      assert Satisfies(required, required);
    }
  }
}
