/**
 * The claims codec of the JWT middleware: the `PayloadFunc`, `IdentityHandler`
 * and `Authorizator` closures that `JwtAuth` hands to the token library.
 *
 * A claim set is a map from claim names to claim values. The token library
 * serialises it as JSON, so a claim value is either a number or a string here;
 * the identity travels as an integer (the round trip of a JSON number through
 * a 64-bit float is not part of this model).
 */
module Claims {

  datatype Option<T> = None | Some(value: T)

  /** A claim value: a JSON number or a JSON string. */
  datatype ClaimValue = Num(n: int) | Str(s: string)

  type ClaimMap = map<string, ClaimValue>

  /** `model.UserClaims`: the identity that a successful login yields. */
  datatype UserClaims = UserClaims(id: int, name: string)

  /**
   * The dynamically typed `interface{}` values that flow between the
   * authenticators and the codec: a `UserClaims` value, a string (the
   * authenticators return "" on some failures) or nil.
   */
  datatype Data = UserClaimsData(claims: UserClaims) | StringData(s: string) | NilData

  /** The four claim names that an encoded identity carries. */
  const IdentityKeys: set<string> := {"id", "name", "uid", "uname"}

  /** The claims that `IdentityHandler` reads back are present and well typed. */
  predicate Decodable(m: ClaimMap)
  {
    && "name" in m && m["name"].Str?
    && "id" in m && m["id"].Num?
  }

  /**
   * `PayloadFunc`: a `UserClaims` value is encoded under both naming schemes
   * (`id`/`name` and `uid`/`uname`); any other value encodes to no claims.
   */
  function PayloadFunc(data: Data): (m: ClaimMap)
    ensures data.UserClaimsData? ==> m.Keys == IdentityKeys
    ensures data.UserClaimsData? ==>
              && m["id"] == m["uid"] == Num(data.claims.id)
              && m["name"] == m["uname"] == Str(data.claims.name)
    ensures !data.UserClaimsData? ==> m == map[]
  {
    match data
    case UserClaimsData(v) =>
      map["id" := Num(v.id), "name" := Str(v.name), "uid" := Num(v.id), "uname" := Str(v.name)]
    case _ => map[]
  }

  /**
   * `IdentityHandler`: rebuilds the identity from `name` and `id`. The source
   * casts without checking and panics when a claim is missing or has another
   * type; that panic is `None` here.
   */
  function IdentityHandler(m: ClaimMap): (r: Option<UserClaims>)
    ensures r.Some? <==> Decodable(m)
    ensures r.Some? ==> r.value.id == m["id"].n && r.value.name == m["name"].s
  {
    if Decodable(m) then Some(UserClaims(m["id"].n, m["name"].s)) else None
  }

  /** `Authorizator`: admits exactly the values that are `UserClaims`. */
  function Authorizator(data: Data): (ok: bool)
    ensures ok <==> data.UserClaimsData?
  {
    match data
    case UserClaimsData(_) => true
    case _ => false
  }

  /** Decoding the encoding of an identity gives that identity back. */
  lemma RoundTrip(c: UserClaims)
    ensures IdentityHandler(PayloadFunc(UserClaimsData(c))) == Some(c)
  {
  }

  /**
   * The round trip survives the registered claims that the token library adds
   * beside the payload (expiry, original issue time, ...), as long as they do
   * not reuse `id` or `name`.
   */
  lemma RoundTripWithRegisteredClaims(c: UserClaims, registered: ClaimMap)
    requires "id" !in registered && "name" !in registered
    ensures IdentityHandler(PayloadFunc(UserClaimsData(c)) + registered) == Some(c)
  {
  }

  /**
   * Encoding what was decoded reproduces the claims the decoder read, and
   * mirrors them under the second naming scheme.
   */
  lemma DecodeThenEncode(m: ClaimMap)
    requires Decodable(m)
    ensures var e := PayloadFunc(UserClaimsData(IdentityHandler(m).value));
            e["id"] == e["uid"] == m["id"] && e["name"] == e["uname"] == m["name"]
  {
  }

  /** Every identity that decodes is authorised: there is no finer check at this layer. */
  lemma DecodedIdentityAuthorized(m: ClaimMap)
    requires Decodable(m)
    ensures Authorizator(UserClaimsData(IdentityHandler(m).value))
  {
  }

  /** A value that is not `UserClaims` neither encodes to any claim nor is authorised. */
  lemma NonClaimsRejected(data: Data)
    requires !data.UserClaimsData?
    ensures PayloadFunc(data) == map[] && !Authorizator(data)
    ensures IdentityHandler(PayloadFunc(data)).None?
  {
  }
}
