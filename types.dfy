/** The data shapes exchanged with the backend that the modelled code inspects. */
module Types {
  import opened Wrappers
  import opened Text

  datatype UserRole = RoleUser | RolePremium | RoleEnterprise | RoleAdmin

  function RoleName(r: UserRole): string {
    match r
    case RoleUser => "user"
    case RolePremium => "premium"
    case RoleEnterprise => "enterprise"
    case RoleAdmin => "admin"
  }

  datatype User = User(
    id: nat,
    email: string,
    phone: Option<string>,
    role: UserRole,
    avatar: Option<string>,
    nickname: Option<string>,
    createdAt: string,
    updatedAt: Option<string>)

  datatype AuthResponse = AuthResponse(
    accessToken: string,
    refreshToken: Option<string>,
    tokenType: string,
    expiresIn: Option<int>,
    user: Option<User>)

  datatype RegisterRequest = RegisterRequest(
    email: string,
    password: string,
    phone: Option<string>,
    username: Option<string>,
    verificationCode: Option<string>)

  function Quote(s: string): string {
    "\"" + s + "\""
  }

  function OptionalField(name: string, v: Option<string>): string {
    match v
    case None => ""
    case Some(s) => ",\"" + name + "\":" + Quote(s)
  }

  /**
   * `JSON.stringify(user)` for a user whose keys arrive in declaration order:
   * absent optional fields are omitted, as `JSON.stringify` omits `undefined`.
   */
  function Stringify(u: User): (text: string)
    ensures |text| >= 2 && text[0] == '{' && text[|text| - 1] == '}'
  {
    "{\"id\":" + NatToString(u.id)
    + ",\"email\":" + Quote(u.email)
    + OptionalField("phone", u.phone)
    + ",\"role\":" + Quote(RoleName(u.role))
    + OptionalField("avatar", u.avatar)
    + OptionalField("nickname", u.nickname)
    + ",\"created_at\":" + Quote(u.createdAt)
    + OptionalField("updated_at", u.updatedAt)
    + "}"
  }
}
