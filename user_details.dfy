/** The security principal (`UserDetailsImpl`): the user's id, email,
    password and type, and the authorities derived from the role and the
    type. The principal is immutable once built. */
module UserDetails {
  import opened Wrappers
  import opened Catalog
  import opened JavaStrings
  import opened Users

  const RolePrefix: string := "ROLE_"
  const TypePrefix: string := "TYPE_"

  datatype Principal = Principal(
    id: UserId,
    email: string,
    password: string,
    userType: Option<string>,
    authorities: seq<string>)
  {
    /** `getUsername`: the email is the login name. */
    function Username(): string {
      email
    }

    /** The four account-status checks, none of which can fail. */
    predicate IsAccountNonExpired() { true }
    predicate IsAccountNonLocked() { true }
    predicate IsCredentialsNonExpired() { true }
    predicate IsEnabled() { true }
  }

  /** The role gives an authority when it is present and not blank. */
  predicate RoleGranted(u: Usuario) {
    u.role.Some? && !IsBlank(u.role.value)
  }

  /** The type gives an authority when it is present and not blank. */
  predicate TypeGranted(u: Usuario) {
    u.userType.Some? && !IsBlank(u.userType.value)
  }

  /** `build`: the user's fields are copied; `"ROLE_" + role` is granted
      exactly when the role is present and not blank, `"TYPE_" + type`
      exactly when the type is, nothing else is granted, each at most
      once, and the role authority comes first. The resulting account is always usable. */
  method Build(u: Usuario) returns (d: Principal)
    ensures d.id == u.id && d.email == u.email && d.password == u.password && d.userType == u.userType
    ensures d.Username() == u.email
    ensures |d.authorities| == (if RoleGranted(u) then 1 else 0) + (if TypeGranted(u) then 1 else 0)
    ensures RoleGranted(u) <==> u.role.Some? && RolePrefix + u.role.value in d.authorities
    ensures TypeGranted(u) <==> u.userType.Some? && TypePrefix + u.userType.value in d.authorities
    ensures forall a :: a in d.authorities ==>
      || (RoleGranted(u) && a == RolePrefix + u.role.value)
      || (TypeGranted(u) && a == TypePrefix + u.userType.value)
    ensures RoleGranted(u) ==> d.authorities[0] == RolePrefix + u.role.value
    ensures d.IsAccountNonExpired() && d.IsAccountNonLocked() && d.IsCredentialsNonExpired() && d.IsEnabled()
  {
    var authorities: seq<string> := [];
    if u.role.Some? && !IsBlank(u.role.value) {
      authorities := authorities + [RolePrefix + u.role.value];
    }
    if u.userType.Some? && !IsBlank(u.userType.value) {
      authorities := authorities + [TypePrefix + u.userType.value];
    }
    if u.role.Some? && u.userType.Some? {
      // A role authority and a type authority differ in their first letter.
      assert (RolePrefix + u.role.value)[0] != (TypePrefix + u.userType.value)[0];
    }
    d := Principal(u.id, u.email, u.password, u.userType, authorities);
  }

  /** Whatever it was built from, a principal logs in with its email and
      is never expired, locked or disabled. */
  lemma PrincipalAlwaysActive(d: Principal)
    ensures d.Username() == d.email
    ensures d.IsAccountNonExpired() && d.IsAccountNonLocked()
    ensures d.IsCredentialsNonExpired() && d.IsEnabled()
  {
  }

  /** `equals`: two principals are equal when their user ids are, and
      then they also share a hash code. */
  predicate Equals(a: Principal, b: Principal): (r: bool)
    ensures r <==> a.id == b.id
    ensures r ==> HashCode(a) == HashCode(b)
  {
    a.id == b.id
  }

  const TwoTo32: int := 0x1_0000_0000
  const TwoTo64: int := 0x1_0000_0000_0000_0000

  /** A 32-bit pattern, given as its unsigned value, read as a Java `int`. */
  function ToInt32(w: int): (r: int)
    requires 0 <= w < TwoTo32
    ensures -0x8000_0000 <= r < 0x8000_0000
    ensures r == w || r == w - TwoTo32
  {
    if w < 0x8000_0000 then w else w - TwoTo32
  }

  /** `Long.hashCode`: the low 32 bits of the value xor its high 32 bits,
      on the two's-complement pattern of the value. */
  function LongHash(v: int): (r: int)
    ensures -0x8000_0000 <= r < 0x8000_0000
  {
    var pattern := v % TwoTo64;
    var low := pattern % TwoTo32;
    var high := pattern / TwoTo32;
    assert high < TwoTo32;
    ToInt32(((low as bv32) ^ (high as bv32)) as int)
  }

  /** `hashCode`, that is `Objects.hash(idUsuario)`: `31 + Long.hashCode(id)`
      in wrapping 32-bit arithmetic, where only the top 31 values wrap.
      It reads the id and nothing else. */
  function HashCode(d: Principal): (r: int)
    ensures -0x8000_0000 <= r < 0x8000_0000
    ensures r == 31 + LongHash(d.id) || r == 31 + LongHash(d.id) - TwoTo32
  {
    var sum := 31 + LongHash(d.id);
    if sum < 0x8000_0000 then sum else sum - TwoTo32
  }

  /** Equality and hash agree, and neither looks past the id: two
      principals built from different rows with the same id are equal. */
  lemma EqualsAgreesWithHashCode(a: Principal, b: Principal)
    ensures Equals(a, b) ==> HashCode(a) == HashCode(b)
    ensures Equals(a, b) <==> Equals(b, a)
    ensures Equals(a, a.(email := b.email, password := b.password, userType := b.userType, authorities := b.authorities))
  {
  }

  /** Different ids may share a hash: 1 and 2^32 both hash to 32. */
  lemma HashCollisionExample()
    ensures HashCode(Principal(1, "", "", None, [])) == 32
    ensures HashCode(Principal(TwoTo32, "", "", None, [])) == 32
    ensures !Equals(Principal(1, "", "", None, []), Principal(TwoTo32, "", "", None, []))
  {
    assert 1 % TwoTo64 == 1 && 1 % TwoTo32 == 1 && 1 / TwoTo32 == 0;
    assert (1 as bv32 ^ 0 as bv32) as int == 1;
    assert LongHash(1) == 1;
    assert TwoTo32 % TwoTo64 == TwoTo32 && TwoTo32 % TwoTo32 == 0 && TwoTo32 / TwoTo32 == 1;
    assert (0 as bv32 ^ 1 as bv32) as int == 1;
    assert LongHash(TwoTo32) == 1;
  }
}
