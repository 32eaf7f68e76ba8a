/** The authentication stub (`AuthProvider`): logging in picks one of three
    fixed users by role, logging out forgets the user. */
module AuthContext {
  import opened Seqs

  datatype UserRole = SuperAdmin | Admin | Caixa

  datatype User = User(id: string, name: string, role: UserRole, email: string)

  /** The fixed user behind each role; each role has its own id. */
  function UserFor(role: UserRole): (u: User)
    ensures u.role == role
    ensures u.id == match role case SuperAdmin => "1" case Admin => "2" case Caixa => "3"
  {
    match role
    case SuperAdmin => User("1", "Super Admin", SuperAdmin, "super@daora.com")
    case Admin => User("2", "Admin Loja", Admin, "admin@daora.com")
    case Caixa => User("3", "Operador Caixa", Caixa, "caixa@daora.com")
  }

  /** Distinct roles log in as distinct users. */
  lemma UserIdsDistinct(r1: UserRole, r2: UserRole)
    requires r1 != r2
    ensures UserFor(r1).id != UserFor(r2).id
  {
  }

  class Auth {
    var user: Option<User>

    constructor ()
      ensures user == None && !IsAuthenticated()
    {
      user := None;
    }

    /** `isAuthenticated` is derived from the user field: `!!user`. */
    predicate IsAuthenticated()
      reads this
    {
      user.Some?
    }

    method Login(role: UserRole)
      modifies this
      ensures user == Some(UserFor(role)) && IsAuthenticated()
      ensures user.value.role == role
    {
      user := Some(UserFor(role));
    }

    method Logout()
      modifies this
      ensures user == None && !IsAuthenticated()
    {
      user := None;
    }
  }
}
