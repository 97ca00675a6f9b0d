/** User registration (`UsuarioService.crearUsuario`) and the seeding of
    the super administrator (`crearSuperAdmin`) over the user table, with
    the Cliente and Proveedor companion records each registration adds. */
module Users {
  import opened Wrappers
  import opened Catalog
  import opened JavaStrings

  const ClientType: string := "CLIENTE"
  const SupplierType: string := "PROVEEDOR"
  const DefaultRole: string := "USER"

  const SuperAdminEmail: string := "ra@beerstar.com"
  const SuperAdminPassword: string := "12345678"
  const SuperAdminRole: string := "SUPERADMIN"

  /** A user row. Role and type are nullable columns of the entity. */
  datatype Usuario = Usuario(id: UserId, email: string, password: string, role: Option<string>, userType: Option<string>)

  /** The optional client or supplier form data of a registration, field
      name to value. */
  datatype Profile = Profile(fields: map<string, string>)

  /** `UsuarioRequestDTO`. */
  datatype UserRequest = UserRequest(
    email: string,
    password: string,
    role: Option<string>,
    userType: Option<string>,
    clientData: Option<Profile>,
    supplierData: Option<Profile>)

  /** A Cliente or Proveedor record linked to its user; `data` is `None`
      for the minimal record made when the request carried no form data. */
  datatype Companion = Companion(user: UserId, data: Option<Profile>)

  datatype UserError =
    | EmailAlreadyExists   // the normalised email is taken
    | InvalidUserType      // a type other than CLIENTE or PROVEEDOR

  /** `UsuarioResponseDTO`: the user without the password. */
  datatype UserView = UserView(id: UserId, email: string, role: Option<string>, userType: Option<string>)

  function ViewOf(u: Usuario): UserView {
    UserView(u.id, u.email, u.role, u.userType)
  }

  /** `usuarioRepository.findByEmail`: the first user with that email. */
  function FindByEmail(users: seq<Usuario>, email: string): (r: Option<Usuario>)
    ensures r.Some? ==> r.value in users && r.value.email == email
    ensures r.None? <==> forall i :: 0 <= i < |users| ==> users[i].email != email
  {
    if users == [] then None
    else match FindByEmail(users[..|users| - 1], email)
      case Some(u) => Some(u)
      case None => if users[|users| - 1].email == email then Some(users[|users| - 1]) else None
  }

  /** The user-type check: a missing type means CLIENTE, and a given type
      must be exactly CLIENTE or PROVEEDOR, case included. */
  function ResolveType(userType: Option<string>): (r: Result<string, UserError>)
    ensures r.Success? <==> userType.None? || userType.value == ClientType || userType.value == SupplierType
    ensures r.Success? ==> r.value == userType.GetOr(ClientType)
    ensures r.Failure? ==> r.error == InvalidUserType
  {
    match userType
    case None => Success(ClientType)
    case Some(t) => if t == ClientType || t == SupplierType then Success(t) else Failure(InvalidUserType)
  }

  /** The ids of the stored users. */
  function UserIds(users: seq<Usuario>): set<UserId> {
    set i | 0 <= i < |users| :: users[i].id
  }

  /** The user table with the identity column's next value: ids are
      positive, increasing and below `nextId`; emails are unique and in
      normal form. */
  predicate SoundUsers(users: seq<Usuario>, nextId: int) {
    && 0 < nextId
    && (forall i :: 0 <= i < |users| ==> 0 < users[i].id < nextId)
    && (forall i, j :: 0 <= i < j < |users| ==> users[i].id < users[j].id)
    && (forall i, j :: 0 <= i < j < |users| ==> users[i].email != users[j].email)
    && (forall i :: 0 <= i < |users| ==> NormalizeEmail(users[i].email) == users[i].email)
  }

  /** Appending a user adds exactly its id to the stored ids. */
  lemma UserIdsAppend(users: seq<Usuario>, u: Usuario)
    ensures UserIds(users + [u]) == UserIds(users) + {u.id}
  {
    var r := users + [u];
    assert r[|users|] == u;
    forall i | 0 <= i < |users| ensures users[i].id in UserIds(r) {
      assert r[i] == users[i];
    }
  }

  /** Saving a user with the next id and a free, normalised email keeps the
      table sound. */
  lemma AppendKeepsSound(users: seq<Usuario>, nextId: int, u: Usuario)
    requires SoundUsers(users, nextId) && u.id == nextId
    requires FindByEmail(users, u.email).None? && NormalizeEmail(u.email) == u.email
    ensures SoundUsers(users + [u], nextId + 1)
  {
    var r := users + [u];
    assert r[|users|] == u;
    forall i | 0 <= i < |users| ensures r[i] == users[i] {
    }
    forall i | 0 <= i < |r| ensures 0 < r[i].id < nextId + 1 && NormalizeEmail(r[i].email) == r[i].email {
    }
    forall i, j | 0 <= i < j < |r| ensures r[i].id < r[j].id && r[i].email != r[j].email {
      if j == |users| {
        assert r[i] == users[i];
      }
    }
  }

  /** The seeded address is already in normal form, so the seeding and the
      registration check see the same key. */
  lemma SuperAdminEmailIsNormal()
    ensures NormalizeEmail(SuperAdminEmail) == SuperAdminEmail
  {
    TrimIsTheCut(SuperAdminEmail, 0, |SuperAdminEmail|);
    assert Trim(SuperAdminEmail) == SuperAdminEmail;
    assert ToLower(SuperAdminEmail) == SuperAdminEmail by {
      forall k | 0 <= k < |SuperAdminEmail|
        ensures ToLower(SuperAdminEmail)[k] == SuperAdminEmail[k]
      {
        assert !('A' <= SuperAdminEmail[k] <= 'Z');
      }
    }
  }

  /** The user table and the two companion tables. */
  class UserStore {
    var users: seq<Usuario>
    var clients: seq<Companion>
    var suppliers: seq<Companion>
    /** The identity column's next value. */
    var nextId: UserId

    /** Ids are positive, increasing and below `nextId`; emails are unique
        and in normal form; every companion belongs to a stored user. */
    predicate Valid()
      reads this
    {
      && SoundUsers(users, nextId)
      && (forall i :: 0 <= i < |clients| ==> clients[i].user in UserIds(users))
      && (forall i :: 0 <= i < |suppliers| ==> suppliers[i].user in UserIds(users))
    }

    constructor ()
      ensures Valid()
      ensures users == [] && clients == [] && suppliers == []
    {
      users, clients, suppliers := [], [], [];
      nextId := 1;
    }

    /** `usuarioRepository.save` of a new user: the identity column gives
        the id, and the email must be free and in normal form. */
    method SaveUser(email: string, password: string, role: Option<string>, userType: Option<string>)
      returns (u: Usuario)
      requires Valid()
      requires FindByEmail(users, email).None? && NormalizeEmail(email) == email
      modifies this
      ensures Valid()
      ensures u == Usuario(old(nextId), email, password, role, userType)
      ensures users == old(users) + [u] && u.id in UserIds(users)
      ensures clients == old(clients) && suppliers == old(suppliers)
    {
      u := Usuario(nextId, email, password, role, userType);
      AppendKeepsSound(users, nextId, u);
      UserIdsAppend(users, u);
      users := users + [u];
      nextId := nextId + 1;
    }

    /** `clienteService.crearCliente` or `proveedorService.crearProveedor`:
        one companion record for a stored user. */
    method AddCompanion(isClient: bool, c: Companion)
      requires Valid() && c.user in UserIds(users)
      modifies this
      ensures Valid()
      ensures users == old(users) && nextId == old(nextId)
      ensures isClient ==> clients == old(clients) + [c] && suppliers == old(suppliers)
      ensures !isClient ==> suppliers == old(suppliers) + [c] && clients == old(clients)
    {
      if isClient {
        clients := clients + [c];
      } else {
        suppliers := suppliers + [c];
      }
    }

    /** `crearUsuario`: the email is trimmed and lower-cased; a taken email
        fails first, then an invalid type; otherwise the user is saved with
        the encoded password, the given role or USER, and the resolved
        type, and exactly one companion record of that type is added. */
    method CreateUser(req: UserRequest, encode: string -> string) returns (r: Result<UserView, UserError>)
      requires Valid()
      modifies this
      ensures Valid()
      ensures FindByEmail(old(users), NormalizeEmail(req.email)).Some? ==> r == Failure(EmailAlreadyExists)
      ensures FindByEmail(old(users), NormalizeEmail(req.email)).None? && ResolveType(req.userType).Failure? ==>
        r == Failure(InvalidUserType)
      ensures r.Success? <==> FindByEmail(old(users), NormalizeEmail(req.email)).None? && ResolveType(req.userType).Success?
      ensures r.Failure? ==> unchanged(this)
      ensures r.Success? ==>
        var t := ResolveType(req.userType).value;
        var u := Usuario(old(nextId), NormalizeEmail(req.email), encode(req.password),
                         Some(req.role.GetOr(DefaultRole)), Some(t));
        && users == old(users) + [u]
        && r.value == ViewOf(u)
        && (t == ClientType ==> clients == old(clients) + [Companion(u.id, req.clientData)] && suppliers == old(suppliers))
        && (t == SupplierType ==> suppliers == old(suppliers) + [Companion(u.id, req.supplierData)] && clients == old(clients))
    {
      var email := NormalizeEmail(req.email);
      if FindByEmail(users, email).Some? {
        return Failure(EmailAlreadyExists);
      }
      var resolved := ResolveType(req.userType);
      if resolved.Failure? {
        return Failure(InvalidUserType);
      }
      var t := resolved.value;

      var role := if req.role.Some? then req.role.value else DefaultRole;
      NormalizeEmailIdempotent(req.email);
      var u := SaveUser(email, encode(req.password), Some(role), Some(t));

      if t == ClientType {
        AddCompanion(true, Companion(u.id, req.clientData));
      } else {
        AddCompanion(false, Companion(u.id, req.supplierData));
      }
      r := Success(ViewOf(u));
    }

    /** `crearSuperAdmin`: when no user has the seeded address, a PROVEEDOR
        user with role SUPERADMIN and the encoded default password is
        saved, with no companion record; otherwise nothing changes. Either
        way the address is taken afterwards, so a second call changes
        nothing. */
    method CreateSuperAdmin(encode: string -> string)
      requires Valid()
      modifies this
      ensures Valid()
      ensures FindByEmail(users, SuperAdminEmail).Some?
      ensures old(FindByEmail(users, SuperAdminEmail)).Some? ==> unchanged(this)
      ensures old(FindByEmail(users, SuperAdminEmail)).None? ==>
        && users == old(users) + [Usuario(old(nextId), SuperAdminEmail, encode(SuperAdminPassword),
                                          Some(SuperAdminRole), Some(SupplierType))]
        && clients == old(clients) && suppliers == old(suppliers)
    {
      if FindByEmail(users, SuperAdminEmail).None? {
        SuperAdminEmailIsNormal();
        var u := SaveUser(SuperAdminEmail, encode(SuperAdminPassword), Some(SuperAdminRole), Some(SupplierType));
        assert FindByEmail(users, SuperAdminEmail).Some? by {
          assert users[|users| - 1].email == SuperAdminEmail;
        }
      }
    }
  }
}
