/**
 * The password hasher: a stored password is `salt:digest`, where the salt is
 * 32 random bytes in hex and the digest is PBKDF2-SHA512 (310000 iterations,
 * 64 bytes) of the password under that salt, in hex.
 */
module PasswordHasher {

  import opened Common

  predicate IsHexChar(c: char) { '0' <= c <= '9' || 'a' <= c <= 'f' }

  predicate IsHex(s: string) { forall i :: 0 <= i < |s| ==> IsHexChar(s[i]) }

  /** A salt as `randomBytes(32).toString("hex")` produces it. */
  predicate ValidSalt(salt: string) { |salt| == 64 && IsHex(salt) }

  /**
   * `derive(password, salt)` stands for `pbkdf2Sync(...).toString("hex")`;
   * the key derivation itself is not modelled, only its shape: 64 bytes in hex.
   */
  datatype Hasher = Hasher(derive: (string, string) -> string)

  ghost predicate ValidHasher(h: Hasher)
  {
    forall password, salt :: |h.derive(password, salt)| == 128 && IsHex(h.derive(password, salt))
  }

  /** The position of the first ':' in `s`, if any. */
  function ColonIndex(s: string): (r: Option<nat>)
    ensures r.Some? ==> r.value < |s| && s[r.value] == ':' && forall j :: 0 <= j < r.value ==> s[j] != ':'
    ensures r.None? ==> forall j :: 0 <= j < |s| ==> s[j] != ':'
    decreases |s|
  {
    if s == [] then None
    else if s[0] == ':' then Some(0)
    else
      var rest := ColonIndex(s[1..]);
      if rest.Some? then Some(rest.value + 1) else None
  }

  /** `hash`: the salt, a colon, the digest. */
  function Hash(h: Hasher, value: string, salt: string): (stored: string)
    ensures |stored| == |salt| + 1 + |h.derive(value, salt)|
    ensures stored[..|salt|] == salt && stored[|salt|] == ':'
    ensures stored[|salt| + 1..] == h.derive(value, salt)
  {
    salt + ":" + h.derive(value, salt)
  }

  /**
   * `compare`: false for an empty password or stored value; otherwise the
   * stored value is split at its colons and the digest of the password under
   * the first part is compared with the second. None stands for the throw of
   * `Buffer.from(undefined)` (no colon) or of `timingSafeEqual` (the two
   * digests differ in length); the byte comparison is modelled as a comparison
   * of the hex text.
   */
  function Compare(h: Hasher, value: string, stored: string): (r: Option<bool>)
    ensures value == "" || stored == "" ==> r == Some(false)
    ensures value != "" && stored != "" && ColonIndex(stored).None? ==> r.None?
  {
    if value == "" || stored == "" then Some(false)
    else
      var colon := ColonIndex(stored);
      if colon.None? then None
      else
        var salt := stored[..colon.value];
        var rest := stored[colon.value + 1..];
        var end := ColonIndex(rest);
        var digest := if end.Some? then rest[..end.value] else rest;
        var derived := h.derive(value, salt);
        if |digest| != |derived| then None else Some(digest == derived)
  }

  /**
   * A stored hash accepts exactly the passwords whose digest under its salt
   * equals the digest of the password it was made from, so in particular it
   * accepts that password.
   */
  lemma HashThenCompare(h: Hasher, password: string, attempt: string, salt: string)
    requires ValidHasher(h) && ValidSalt(salt)
    requires attempt != ""
    ensures Compare(h, attempt, Hash(h, password, salt)) == Some(h.derive(attempt, salt) == h.derive(password, salt))
  {
    var stored := Hash(h, password, salt);
    var d := h.derive(password, salt);
    assert forall j :: 0 <= j < |salt| ==> stored[j] == salt[j] && salt[j] != ':' by {
      assert IsHex(salt);
    }
    assert ColonIndex(stored) == Some(|salt|) by {
      ColonAt(stored, |salt|);
    }
    assert stored[..|salt|] == salt;
    assert stored[|salt| + 1..] == d;
    assert ColonIndex(d).None? by {
      assert IsHex(d);
    }
  }

  lemma ColonAt(s: string, i: nat)
    requires i < |s| && s[i] == ':' && forall j :: 0 <= j < i ==> s[j] != ':'
    ensures ColonIndex(s) == Some(i)
  {
  }

  lemma HashAcceptsItsPassword(h: Hasher, password: string, salt: string)
    requires ValidHasher(h) && ValidSalt(salt) && password != ""
    ensures Compare(h, password, Hash(h, password, salt)) == Some(true)
  {
    HashThenCompare(h, password, password, salt);
  }
}
