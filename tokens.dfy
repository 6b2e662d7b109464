/** internal/data/tokens.go: token construction, the token validation rule
    and the result mapping of New and GetToken. Time is an explicit instant
    in nanoseconds; the CSPRNG, SHA-256 and the database are inputs. */
module Tokens {
  import opened Wrappers
  import opened Models
  import opened Validator
  import opened Base32

  const ScopeActivation: string := "activation"

  datatype Token = Token(plaintext: string, hash: seq<byte>, userID: int, expiry: int, scope: string)

  /** The columns a tokens row holds. */
  datatype TokenRow = TokenRow(hash: seq<byte>, scope: string, expiry: int, userID: int)

  /** The error map after ValidateToken: "must be provided" for "", "must be
      exactly 26 bytes long" for any other length but 26, nothing at 26. */
  function TokenChecks(errors: map<string, string>, token: string): (r: map<string, string>)
    ensures forall k :: k != "token" ==> (k in r <==> k in errors) && (k in r ==> r[k] == errors[k])
    ensures "token" in errors ==> "token" in r && r["token"] == errors["token"]
    ensures "token" !in errors ==> ("token" in r <==> |token| != 26)
    ensures "token" !in errors && token == "" ==> r["token"] == "must be provided"
    ensures "token" !in errors && token != "" && |token| != 26 ==> r["token"] == "must be exactly 26 bytes long"
  {
    var e := Checked(errors, token != "", "token", "must be provided");
    Checked(e, |token| == 26, "token", "must be exactly 26 bytes long")
  }

  method ValidateToken(v: Validator, token: string)
    modifies v
    ensures v.errors == TokenChecks(old(v.errors), token)
  {
    v.Check(token != "", "token", "must be provided");
    v.Check(|token| == 26, "token", "must be exactly 26 bytes long");
  }

  /** generateToken. randomRead is what crypto/rand.Read did with the 16-byte
      buffer: the bytes it wrote, or its error; sha256 stands for sha256.Sum256. */
  method GenerateToken(scope: string, userID: int, ttl: int, now: int,
                       randomRead: Result<seq<byte>, string>, sha256: string -> seq<byte>)
    returns (r: Result<Token, AppError>)
    requires randomRead.Ok? ==> |randomRead.value| == 16
    ensures randomRead.Err? ==> r == Err(Failed(randomRead.error))
    ensures randomRead.Ok? ==> r.Ok?
    ensures r.Ok? ==> r.value.expiry == now + ttl && r.value.scope == scope && r.value.userID == userID
    ensures r.Ok? ==> r.value.plaintext == EncodeNoPadding(randomRead.value)
    ensures r.Ok? ==> |r.value.plaintext| == 26
    ensures r.Ok? ==> forall i :: 0 <= i < 26 ==> InAlphabet(r.value.plaintext[i])
    ensures r.Ok? ==> r.value.hash == sha256(r.value.plaintext)
  {
    var token := Token("", [], userID, now + ttl, scope);
    if randomRead.Err? {
      return Err(Failed(randomRead.error));
    }
    var randomBytes := randomRead.value;
    token := token.(plaintext := EncodeNoPadding(randomBytes));
    token := token.(hash := sha256(token.plaintext));
    return Ok(token);
  }

  /** Every generated plaintext passes ValidateToken. */
  lemma GeneratedTokenIsValid(randomBytes: seq<byte>, errors: map<string, string>)
    requires |randomBytes| == 16
    ensures TokenChecks(errors, EncodeNoPadding(randomBytes)) == errors
  {
    var t := EncodeNoPadding(randomBytes);
    assert |t| == 26;
    var e := Checked(errors, t != "", "token", "must be provided");
    assert e == errors;
  }

  /** TokenModel.New: the generated token once it has been inserted; the
      generation error, or the insert error, otherwise. */
  method New(scope: string, userID: int, ttl: int, now: int,
             randomRead: Result<seq<byte>, string>, sha256: string -> seq<byte>,
             insertErr: Option<DbError>)
    returns (r: Result<Token, AppError>)
    requires randomRead.Ok? ==> |randomRead.value| == 16
    ensures randomRead.Err? ==> r == Err(Failed(randomRead.error))
    ensures randomRead.Ok? && insertErr.Some? ==> r == Err(Db(insertErr.value))
    ensures randomRead.Ok? && insertErr.None? ==> r.Ok?
    ensures r.Ok? ==> r.value.expiry == now + ttl && r.value.scope == scope && r.value.userID == userID
    ensures r.Ok? ==> r.value.plaintext == EncodeNoPadding(randomRead.value)
    ensures r.Ok? ==> r.value.hash == sha256(r.value.plaintext)
  {
    var generated := GenerateToken(scope, userID, ttl, now, randomRead, sha256);
    if generated.Err? {
      return generated;
    }
    if insertErr.Some? {
      return Err(Db(insertErr.value));
    }
    return generated;
  }

  /** GetToken: the row's fields with the caller's plaintext put back, or
      ErrRecordNotFound for a missing row and any other error unchanged. */
  function GetToken(plaintext: string, scan: Result<TokenRow, DbError>): (r: Result<Token, AppError>)
    ensures scan.Ok? <==> r.Ok?
    ensures r.Ok? ==> r.value.plaintext == plaintext
    ensures r.Ok? ==> r.value.hash == scan.value.hash && r.value.scope == scan.value.scope
    ensures r.Ok? ==> r.value.expiry == scan.value.expiry && r.value.userID == scan.value.userID
    ensures scan.Err? ==> (r == Err(RecordNotFound) <==> scan.error == ErrNoRows)
    ensures scan.Err? && scan.error != ErrNoRows ==> r == Err(Db(scan.error))
  {
    match scan
    case Err(e) => Err(LookupError(e))
    case Ok(row) => Ok(Token(plaintext, row.hash, row.userID, row.expiry, row.scope))
  }
}
