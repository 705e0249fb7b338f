/**
 The proof of work: the relay checks a hexadecimal prefix, the solver checks bytes and a
 nibble, and both must mean the same thing for every digest. SHA-256 is any function from
 text to 32 bytes; a token is the claims that its signature vouches for.
 */
module ProofOfWork {
  import opened Options
  import opened Decimal

  type Digest = d: seq<bv8> | |d| == 32 witness seq(32, _ => 0)
  type Hash = string -> Digest

  /** Difficulty counts hexadecimal digits, and a digest has 64 of them. */
  const DIGEST_DIGITS: nat := 64

  const HEX_DIGITS := "0123456789abcdef"

  /** MyClaims: expiry in whole seconds. */
  datatype Claims = Claims(salt: string, diff: nat, exp: int)

  // ---- The relay's check ----

  function HexDigit(nibble: bv8): char
    requires nibble < 16
  {
    HEX_DIGITS[nibble as int]
  }

  /** Lower-case hexadecimal digits. */
  lemma HexDigitsAreLowerCase(nibble: bv8)
    requires nibble < 16
    ensures HexDigit(nibble) == if nibble < 10 then '0' + nibble as char else 'a' + (nibble - 10) as char
  {
    var k := nibble as int;
    assert forall j :: 0 <= j < 10 ==> HEX_DIGITS[j] == '0' + j as char;
    assert forall j :: 10 <= j < 16 ==> HEX_DIGITS[j] == 'a' + (j - 10) as char;
  }

  /** hex.EncodeToString. */
  function EncodeToString(bytes: seq<bv8>): string {
    if bytes == [] then ""
    else [HexDigit(bytes[0] >> 4), HexDigit(bytes[0] & 0x0F)] + EncodeToString(bytes[1..])
  }

  /** The server's test of a nonce: the digest's text begins with strings.Repeat("0", diff). */
  predicate HasWorkPrefix(digest: Digest, diff: nat) {
    Zeros(diff) <= EncodeToString(digest)
  }

  // ---- What both checks mean ----

  /** The i-th half-byte of a digest, high half first. */
  function Nibble(digest: Digest, i: nat): bv8
    requires i < DIGEST_DIGITS
  {
    if i % 2 == 0 then digest[i / 2] >> 4 else digest[i / 2] & 0x0F
  }

  predicate ZeroNibbles(digest: Digest, diff: nat) {
    diff <= DIGEST_DIGITS && forall i: nat :: i < diff ==> Nibble(digest, i) == 0
  }

  lemma HexZero(b: bv8)
    ensures b >> 4 < 16 && b & 0x0F < 16
    ensures HexDigit(b >> 4) == '0' <==> b >> 4 == 0
    ensures HexDigit(b & 0x0F) == '0' <==> b & 0x0F == 0
  {
    DigitZero(b >> 4);
    DigitZero(b & 0x0F);
  }

  lemma DigitZero(n: bv8)
    requires n < 16
    ensures HexDigit(n) == '0' <==> n == 0
  {
    var k := n as int;
    assert HEX_DIGITS[0] == '0' && forall j :: 1 <= j < 16 ==> HEX_DIGITS[j] != '0';
  }

  lemma {:induction false} EncodedDigits(bytes: seq<bv8>, k: nat)
    requires k < |bytes|
    ensures |EncodeToString(bytes)| == 2 * |bytes|
    ensures EncodeToString(bytes)[2 * k] == HexDigit(bytes[k] >> 4)
    ensures EncodeToString(bytes)[2 * k + 1] == HexDigit(bytes[k] & 0x0F)
  {
    if |bytes| > 1 {
      EncodedDigits(bytes[1..], if k > 0 then k - 1 else 0);
    }
  }

  /** For every digest and every difficulty, the hexadecimal prefix test is the test for leading zero half-bytes. */
  lemma PrefixMeansZeroNibbles(digest: Digest, diff: nat)
    ensures HasWorkPrefix(digest, diff) <==> ZeroNibbles(digest, diff)
  {
    var hex := EncodeToString(digest);
    EncodedDigits(digest, 0);
    forall i: nat | i < DIGEST_DIGITS
      ensures hex[i] == '0' <==> Nibble(digest, i) == 0
    {
      EncodedDigits(digest, i / 2);
      HexZero(digest[i / 2]);
    }
    if ZeroNibbles(digest, diff) {
      assert hex[..diff] == Zeros(diff);
    }
    if Zeros(diff) <= hex {
      assert forall i: nat :: i < diff ==> hex[i] == Zeros(diff)[i];
    }
  }

  // ---- What an accepted token proves ----

  /** The two kinds of token that the relay signs, with one and the same key. */
  datatype Token = WorkToken(claims: Claims) | ReuseToken(code: string, exp: int)

  /** What a token reads as where a proof of work is expected: a claim it does not carry is empty or zero. */
  function ReadAsWork(token: Token): Claims {
    match token
    case WorkToken(claims) => claims
    case ReuseToken(_, exp) => Claims("", 0, exp)
  }

  /** What a token reads as where a reuse token is expected; no room has the empty code. */
  function ReadAsReuse(token: Token): string {
    match token
    case WorkToken(_) => ""
    case ReuseToken(code, _) => code
  }

  /** A digest that no positive difficulty accepts. */
  const ONES: Digest := seq(32, _ => 0xFF)

  /**
   When an accepted token stands for work, exactly: the check turns down some nonce for some
   hash function if and only if the token's difficulty is positive. The relay's work tokens
   ask for 5 to 7; a reuse token reads as difficulty 0, and every nonce passes.
   */
  lemma AcceptanceTakesWorkExactly(token: Token)
    ensures (exists sha256: Hash, nonce: int ::
               !HasWorkPrefix(sha256(ReadAsWork(token).salt + FormatInt(nonce)), ReadAsWork(token).diff))
            <==> ReadAsWork(token).diff > 0
    ensures token.ReuseToken? ==> ReadAsWork(token).diff == 0
  {
    var claims := ReadAsWork(token);
    if claims.diff > 0 {
      var sha256: Hash := _ => ONES;
      PrefixMeansZeroNibbles(ONES, claims.diff);
      assert Nibble(ONES, 0) == 0xFF >> 4;
      assert !HasWorkPrefix(sha256(claims.salt + FormatInt(0)), claims.diff);
    }
  }

  // ---- The solver ----

  lemma ByteZero(b: bv8)
    ensures b == 0 <==> b >> 4 == 0 && b & 0x0F == 0
    ensures (b & 0xFF) <= 0x0F <==> b >> 4 == 0
  {
  }

  /** A byte is zero exactly when its two half-bytes are. */
  lemma ByteAndNibbles(digest: Digest, k: nat)
    requires k < |digest|
    ensures digest[k] == 0 <==> Nibble(digest, 2 * k) == 0 && Nibble(digest, 2 * k + 1) == 0
    ensures (digest[k] & 0xFF) <= 0x0F <==> Nibble(digest, 2 * k) == 0
  {
    ByteZero(digest[k]);
  }

  /** One more byte: two more half-bytes when it is zero, and an end to the zeros when it is not. */
  lemma OneMoreByte(digest: Digest, i: nat, difficulty: nat)
    requires i < |digest| && ZeroNibbles(digest, 2 * i) && difficulty <= DIGEST_DIGITS
    ensures digest[i] == 0 ==> ZeroNibbles(digest, 2 * i + 2)
    ensures digest[i] != 0 && difficulty >= 2 * i + 2 ==> !ZeroNibbles(digest, difficulty)
    ensures difficulty == 2 * i + 1 ==> (ZeroNibbles(digest, difficulty) <==> (digest[i] & 0xFF) <= 0x0F)
  {
    ByteAndNibbles(digest, i);
  }

  /** checkProofOfWork: whole bytes first, then the odd half-byte. */
  method CheckProofOfWork(sha256: Hash, salt: string, nonce: int, difficulty: nat) returns (valid: bool)
    requires difficulty <= DIGEST_DIGITS
    ensures valid <==> ZeroNibbles(sha256(salt + FormatInt(nonce)), difficulty)
  {
    var hash := sha256(salt + FormatInt(nonce));
    var fullBytesCheck := difficulty / 2;
    for i := 0 to fullBytesCheck
      invariant ZeroNibbles(hash, 2 * i)
    {
      OneMoreByte(hash, i, difficulty);
      if hash[i] != 0 {
        return false;
      }
    }
    if difficulty % 2 != 0 {
      OneMoreByte(hash, fullBytesCheck, difficulty);
      return (hash[fullBytesCheck] & 0xFF) <= 0x0F;
    }
    return true;
  }

  predicate Solves(sha256: Hash, salt: string, difficulty: nat, nonce: int) {
    ZeroNibbles(sha256(salt + FormatInt(nonce)), difficulty)
  }

  /**
   SolveProofOfWork. It ends whenever some non-negative int64 solves the puzzle, and then
   with the least one, before the counter can overflow.
   */
  method SolveProofOfWork(sha256: Hash, salt: string, difficulty: nat) returns (nonce: nat)
    requires difficulty <= DIGEST_DIGITS
    requires exists w: nat :: w <= MAX_INT64 && Solves(sha256, salt, difficulty, w)
    ensures nonce <= MAX_INT64 && Solves(sha256, salt, difficulty, nonce)
    ensures forall m: nat :: m < nonce ==> !Solves(sha256, salt, difficulty, m)
  {
    ghost var w: nat :| w <= MAX_INT64 && Solves(sha256, salt, difficulty, w);
    nonce := 0;
    while true
      invariant nonce <= w
      invariant forall m: nat :: m < nonce ==> !Solves(sha256, salt, difficulty, m)
      decreases w - nonce
    {
      var valid := CheckProofOfWork(sha256, salt, nonce, difficulty);
      if valid {
        break;
      }
      nonce := nonce + 1;
    }
  }

  // ---- The replay table ----

  /** isReplay as a function of the table: the verdict and the new table. */
  function Admit(used: map<string, int>, salt: string, expiry: int): (bool, map<string, int>) {
    if salt in used then (true, used) else (false, used[salt := expiry])
  }

  /** What StartCleanupLoop leaves of the table at a given second. */
  function Purged(used: map<string, int>, now: int): map<string, int> {
    map salt | salt in used && now <= used[salt] :: used[salt]
  }

  /** IsProofOfWorkValid's verdict, for a table of used salts. */
  predicate Accepts(used: map<string, int>, sha256: Hash, token: Option<Claims>, nonce: int) {
    token.Some? && token.value.salt !in used && Solves(sha256, token.value.salt, token.value.diff, nonce)
  }

  /** A token as presented: its claims where a proof of work is expected, if signature and expiry hold. */
  function Presented(token: Token, verifies: bool): Option<Claims> {
    if verifies then Some(ReadAsWork(token)) else None
  }

  /** A reuse token is redeemed with every nonce if and only if it verifies and the empty salt is not on the table. */
  lemma ReuseTokensRedeemExactly(
      used: map<string, int>, sha256: Hash, code: string, exp: int, verifies: bool, nonce: int)
    ensures Accepts(used, sha256, Presented(ReuseToken(code, exp), verifies), nonce) <==> verifies && "" !in used
  {
  }

  /** A work token is redeemed with a nonce only if it gives the digest a leading zero. */
  lemma WorkTokensTakeWork(used: map<string, int>, claims: Claims, verifies: bool)
    requires claims.diff > 0
    ensures forall sha256: Hash, nonce: int ::
              Accepts(used, sha256, Presented(WorkToken(claims), verifies), nonce) ==>
                claims.diff <= DIGEST_DIGITS && Nibble(sha256(claims.salt + FormatInt(nonce)), 0) == 0
  {
  }

  class UsedSalts {
    var used: map<string, int>

    constructor ()
      ensures used == map[]
    {
      used := map[];
    }

    method IsReplay(salt: string, expiry: int) returns (replay: bool)
      modifies this
      ensures (replay, used) == Admit(old(used), salt, expiry)
    {
      if salt in used {
        return true;
      }
      used := used[salt := expiry];
      replay := false;
    }

    /** One tick of StartCleanupLoop: entries are deleted while the map is traversed. */
    method Purge(now: int)
      modifies this
      ensures used == Purged(old(used), now)
    {
      var rest := used.Keys;
      while rest != {}
        invariant rest <= used.Keys <= old(used).Keys
        invariant forall salt :: salt in used ==> used[salt] == old(used)[salt]
        invariant forall salt :: salt in old(used) && salt !in rest ==> (salt in used <==> now <= old(used)[salt])
        invariant rest <= old(used).Keys
        decreases rest
      {
        var salt :| salt in rest;
        if now > used[salt] {
          used := used - {salt};
        }
        rest := rest - {salt};
      }
    }

    /** IsProofOfWorkValid on the claims of a token, None when its signature or its expiry does not hold. */
    method IsProofOfWorkValid(sha256: Hash, token: Option<Claims>, nonce: int) returns (valid: bool)
      modifies this
      ensures valid <==> Accepts(old(used), sha256, token, nonce)
      ensures used == if token.None? then old(used) else Admit(old(used), token.value.salt, token.value.exp).1
    {
      if token.None? {
        return false;
      }
      var claims := token.value;
      var replay := IsReplay(claims.salt, claims.exp);
      if replay {
        return false;
      }
      var hash := sha256(claims.salt + FormatInt(nonce));
      PrefixMeansZeroNibbles(hash, claims.diff);
      valid := HasWorkPrefix(hash, claims.diff);
    }

    /**
     End to end: a challenge that has a solution is solved, the nonce is sent as decimal
     text, parsed again on the relay and accepted, provided the token still verifies and its
     salt was not used. A second redemption of the same token is refused.
     */
    method SolveAndRedeem(sha256: Hash, claims: Claims) returns (accepted: bool, again: bool)
      requires claims.diff <= DIGEST_DIGITS && claims.salt !in used
      requires exists w: nat :: w <= MAX_INT64 && Solves(sha256, claims.salt, claims.diff, w)
      modifies this
      ensures accepted && !again
    {
      var nonce := SolveProofOfWork(sha256, claims.salt, claims.diff);
      ParseFormat(nonce);
      var parsed := ParseInt(FormatInt(nonce));
      accepted := IsProofOfWorkValid(sha256, Some(claims), parsed.value);
      again := IsProofOfWorkValid(sha256, Some(claims), parsed.value);
    }
  }
}
