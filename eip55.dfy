/**
  The EIP-55 mixed-case checksum encoding of Ethereum addresses (utils.go).

  An address is `0x` followed by 40 hexadecimal characters. Its checksum form keeps the 40
  characters, lower-cased, and then upper-cases character `i` exactly when hex digit `i` of the
  Keccak-256 digest of the lower-cased 40 characters is greater than 7.

  Keccak-256 is not modelled: every operation takes the hash function as a parameter `keccak`,
  of which the model uses nothing but that it is a function returning 32 bytes.
 */
module Eip55 {
  import opened Wrappers
  import opened Web3

  /** A Keccak-256 digest: 32 bytes. */
  type Digest = d: seq<Byte> | |d| == 32 witness seq(32, _ => 0)

  /** The hash function the codec is parameterised by. */
  type Keccak256 = seq<Byte> -> Digest

  // ---------------------------------------------------------------------------------------------
  // Characters

  predicate IsDecimalDigit(c: char) { '0' <= c <= '9' }
  predicate IsLowerHexLetter(c: char) { 'a' <= c <= 'f' }
  predicate IsUpperHexLetter(c: char) { 'A' <= c <= 'F' }
  predicate IsHexLetter(c: char) { IsLowerHexLetter(c) || IsUpperHexLetter(c) }

  /** The character class `[0-9a-fA-F]`. */
  predicate IsHexChar(c: char) { IsDecimalDigit(c) || IsHexLetter(c) }

  /** ASCII lower-casing; on the hex characters it is what `strings.ToLower` does. */
  function ToLowerChar(c: char): char
  {
    if 'A' <= c <= 'Z' then (c as int + 32) as char else c
  }

  /** ASCII upper-casing; on the hex characters it is what `strings.ToUpper` does. */
  function ToUpperChar(c: char): char
  {
    if 'a' <= c <= 'z' then (c as int - 32) as char else c
  }

  function ToLower(s: string): (r: string)
    ensures |r| == |s|
    ensures forall i :: 0 <= i < |s| ==> r[i] == ToLowerChar(s[i])
  {
    seq(|s|, i requires 0 <= i < |s| => ToLowerChar(s[i]))
  }

  // ---------------------------------------------------------------------------------------------
  // The library steps the codec is built from

  /** The regular expression `^0x[0-9a-fA-F]{40}$`. */
  predicate IsAddress(s: string)
    ensures IsAddress(s) ==> |s| == 42 && s[..2] == "0x" && StripHexPrefix(s) == s[2..]
  {
    |s| == 42 && s[0] == '0' && s[1] == 'x' && forall i :: 2 <= i < 42 ==> IsHexChar(s[i])
  }

  /** Replacing every match of `^0x` with "" removes one leading "0x", if there is one. */
  function StripHexPrefix(s: string): (r: string)
    ensures |s| >= 2 && s[..2] == "0x" ==> "0x" + r == s
    ensures !(|s| >= 2 && s[..2] == "0x") ==> r == s
  {
    if |s| >= 2 && s[0] == '0' && s[1] == 'x' then s[2..] else s
  }

  /** `[]byte(s)` for a string of ASCII characters: one byte per character, its code. */
  function AsciiBytes(s: string): (b: seq<Byte>)
    requires forall i :: 0 <= i < |s| ==> s[i] as int < 128
    ensures |b| == |s| && forall i :: 0 <= i < |s| ==> b[i] == s[i] as int
  {
    seq(|s|, i requires 0 <= i < |s| => s[i] as int)
  }

  /** The lower-case hexadecimal digit for `n`, as `%x` prints it. */
  function HexDigit(n: int): (c: char)
    requires 0 <= n < 16
    ensures IsDecimalDigit(c) || IsLowerHexLetter(c)
  {
    if n < 10 then ('0' as int + n) as char else ('a' as int + n - 10) as char
  }


  /** `strconv.ParseInt(s, 16, 32)` of the one-character string `[c]`; None is its error. */
  function ParseHexDigit(c: char): (r: Option<int>)
    ensures r.Some? <==> IsHexChar(c)
    ensures r.Some? ==> 0 <= r.value < 16
  {
    if IsDecimalDigit(c) then Some(c as int - '0' as int)
    else if IsLowerHexLetter(c) then Some(c as int - 'a' as int + 10)
    else if IsUpperHexLetter(c) then Some(c as int - 'A' as int + 10)
    else None
  }

  // ---------------------------------------------------------------------------------------------
  // The EIP-55 definition

  /** Hex digit `i` of a digest: the high half of byte `i / 2` for even `i`, the low half for odd. */
  function Nibble(d: seq<Byte>, i: int): (n: int)
    requires 0 <= i < 2 * |d|
    ensures 0 <= n < 16
  {
    if i % 2 == 0 then d[i / 2] / 16 else d[i / 2] % 16
  }

  /** The 40 address characters of a valid address, lower-cased. */
  function Body(address: string): (body: string)
    requires IsAddress(address)
    ensures |body| == 40
    ensures forall i :: 0 <= i < 40 ==> IsDecimalDigit(body[i]) || IsLowerHexLetter(body[i])
    ensures forall i :: 0 <= i < |body| ==> body[i] as int < 128
  {
    ToLower(address[2..])
  }

  /** The digest that decides the case of a valid address: Keccak-256 of its lower-cased body. */
  function AddressDigest(address: string, keccak: Keccak256): Digest
    requires IsAddress(address)
  {
    keccak(AsciiBytes(Body(address)))
  }

  /** `fmt.Sprintf("%x", b)`: two lower-case hex digits per byte, high half first. */
  function HexEncode(b: seq<Byte>): (r: string)
    ensures |r| == 2 * |b|
    ensures forall i :: 0 <= i < |r| ==> IsDecimalDigit(r[i]) || IsLowerHexLetter(r[i])
  {
    seq(2 * |b|, i requires 0 <= i < 2 * |b| => HexDigit(Nibble(b, i)))
  }

  /** The case rule for one character: upper-case it when its digest digit exceeds 7. */
  function CaseChar(c: char, nibble: int): char
  {
    if nibble > 7 then ToUpperChar(c) else c
  }

  /** The case rule applied to every character of a lower-cased body. */
  function ApplyCase(body: string, digest: Digest): (r: string)
    requires |body| == 40
    ensures |r| == 40
    ensures forall i :: 0 <= i < 40 ==> r[i] == CaseChar(body[i], Nibble(digest, i))
  {
    seq(40, i requires 0 <= i < 40 => CaseChar(body[i], Nibble(digest, i)))
  }

  /** The checksum form of `address`, or "" when `address` is not a valid address. */
  function Checksum(address: string, keccak: Keccak256): (r: string)
    ensures r == "" <==> !IsAddress(address)
    ensures r != "" ==> |r| == 42 && r[..2] == "0x"
  {
    if !IsAddress(address) then "" else "0x" + ApplyCase(Body(address), AddressDigest(address, keccak))
  }

  // ---------------------------------------------------------------------------------------------
  // The source's operations

  /**
    `ToChecksumAddress`: validate, strip "0x", lower-case, hash, render the digest with `%x`,
    strip "0x" from the rendering, then build the result one character at a time, parsing each
    digest character back to a number.
   */
  method ToChecksumAddress(address: string, keccak: Keccak256) returns (r: string)
    ensures r == Checksum(address, keccak)
  {
    if !IsAddress(address) {
      return "";
    }
    var addr := StripHexPrefix(address);
    assert addr == address[2..];
    addr := ToLower(addr);
    var sum := keccak(AsciiBytes(addr));
    var addressHash := HexEncode(sum);
    HexEncodeHasNoPrefix(sum);
    addressHash := StripHexPrefix(addressHash);
    ghost var target := ApplyCase(addr, sum);

    r := "0x";
    var i := 0;
    while i < |addr|
      invariant 0 <= i <= |addr| == 40
      invariant addressHash == HexEncode(sum)
      invariant r == "0x" + target[..i]
    {
      HexEncodeAt(sum, i);
      var indexedValue := ParseHexDigit(addressHash[i]);
      if indexedValue.None? {
        assert false;
        return "";
      }
      if indexedValue.value > 7 {
        r := r + [ToUpperChar(addr[i])];
      } else {
        r := r + [addr[i]];
      }
      ExtendPrefix("0x", target, i);
      i := i + 1;
    }
    assert target[..i] == target;
  }

  /**
    `IsChecksumAddress`: recompute the checksum and compare it with the input. The pair is Go's
    `(bool, error)`; the error is always nil.
   */
  function IsChecksumAddress(address: string, keccak: Keccak256): (r: (bool, Option<Error>))
    ensures r.1 == None
  {
    (Checksum(address, keccak) == address, None)
  }

  // ---------------------------------------------------------------------------------------------
  // Lemmas about the rendering of the digest

  /** Character `i` of `%x` of a digest is the hex digit of its nibble `i`, which parses back to it. */
  lemma HexEncodeAt(b: seq<Byte>, i: int)
    requires 0 <= i < 2 * |b|
    ensures HexEncode(b)[i] == HexDigit(Nibble(b, i))
    ensures ParseHexDigit(HexEncode(b)[i]) == Some(Nibble(b, i))
  {
  }

  /** Appending character `i` of `t` to `p` followed by the first `i` characters of `t`. */
  lemma ExtendPrefix(p: string, t: string, i: int)
    requires 0 <= i < |t|
    ensures p + t[..i] + [t[i]] == p + t[..i + 1]
  {
    assert t[..i + 1] == t[..i] + [t[i]];
  }

  /** `%x` never starts with "0x", so stripping that prefix from it changes nothing. */
  lemma HexEncodeHasNoPrefix(b: seq<Byte>)
    ensures StripHexPrefix(HexEncode(b)) == HexEncode(b)
  {
    if b != [] {
      HexEncodeAt(b, 1);
    }
  }

  // ---------------------------------------------------------------------------------------------
  // Lemmas about the codec

  /**
    Character `i + 2` of the checksum is an upper-case letter exactly when digest digit `i` exceeds
    7 and address character `i + 2` is a letter; decimal digits pass through unchanged; and apart
    from case every character is the input's.
   */
  lemma ChecksumCaseRule(address: string, keccak: Keccak256, i: int)
    requires IsAddress(address) && 0 <= i < 40
    ensures var r, c := Checksum(address, keccak), address[i + 2];
      && (IsUpperHexLetter(r[i + 2]) <==> Nibble(AddressDigest(address, keccak), i) > 7 && IsHexLetter(c))
      && (IsDecimalDigit(c) ==> r[i + 2] == c)
      && ToLowerChar(r[i + 2]) == ToLowerChar(c)
  {
  }

  /** Lower-casing the checksum gives "0x" and the lower-cased body of the input: only case changes. */
  lemma ChecksumOnlyChangesCase(address: string, keccak: Keccak256)
    requires IsAddress(address)
    ensures ToLower(Checksum(address, keccak)) == "0x" + ToLower(address[2..])
  {
    var r, expected := Checksum(address, keccak), "0x" + ToLower(address[2..]);
    assert |ToLower(r)| == |expected| == 42;
    forall i | 0 <= i < 42
      ensures ToLower(r)[i] == expected[i]
    {
      if i >= 2 {
        ChecksumCaseRule(address, keccak, i - 2);
        assert expected[i] == ToLowerChar(address[i]);
      } else {
        assert r[i] == expected[i];
      }
    }
  }

  /** The checksum of a valid address is itself a valid address. */
  lemma ChecksumIsAddress(address: string, keccak: Keccak256)
    requires IsAddress(address)
    ensures IsAddress(Checksum(address, keccak))
  {
    var r := Checksum(address, keccak);
    forall i | 2 <= i < 42
      ensures IsHexChar(r[i])
    {
      var c := Body(address)[i - 2];
      assert r[i] == CaseChar(c, Nibble(AddressDigest(address, keccak), i - 2));
    }
  }

  /** Two valid addresses that differ only in the case of their letters have the same checksum. */
  lemma ChecksumCaseInsensitive(a: string, b: string, keccak: Keccak256)
    requires IsAddress(a) && IsAddress(b)
    requires ToLower(a) == ToLower(b)
    ensures Checksum(a, keccak) == Checksum(b, keccak)
  {
    assert Body(a) == Body(b) by {
      forall i | 0 <= i < 40
        ensures Body(a)[i] == Body(b)[i]
      {
        assert ToLower(a)[i + 2] == ToLower(b)[i + 2];
      }
    }
  }

  /** The checksum of a checksum address is that address: the encoding is idempotent. */
  lemma ChecksumIdempotent(address: string, keccak: Keccak256)
    requires IsAddress(address)
    ensures Checksum(Checksum(address, keccak), keccak) == Checksum(address, keccak)
  {
    var r := Checksum(address, keccak);
    ChecksumIsAddress(address, keccak);
    ChecksumOnlyChangesCase(address, keccak);
    assert ToLower(r) == ToLower(address) by {
      forall i | 0 <= i < 42
        ensures ToLower(r)[i] == ToLower(address)[i]
      {
        assert ToLower(r)[i] == ("0x" + ToLower(address[2..]))[i];
      }
    }
    ChecksumCaseInsensitive(r, address, keccak);
  }

  /** The checksum of any valid address passes `IsChecksumAddress`. */
  lemma ChecksumRoundTrip(address: string, keccak: Keccak256)
    requires IsAddress(address)
    ensures IsChecksumAddress(Checksum(address, keccak), keccak) == (true, None)
  {
    ChecksumIdempotent(address, keccak);
  }

  /** Every character of a valid address already has the case its digest digit dictates. */
  predicate HasDigestCase(address: string, keccak: Keccak256)
    requires IsAddress(address)
  {
    var digest := AddressDigest(address, keccak);
    forall i :: 0 <= i < 40 ==> address[i + 2] == CaseChar(ToLowerChar(address[i + 2]), Nibble(digest, i))
  }

  /**
    `IsChecksumAddress` holds exactly for "" (an invalid address, which maps to "") and for the
    valid addresses whose every character already has the case the digest dictates.
   */
  lemma IsChecksumAddressIff(address: string, keccak: Keccak256)
    ensures IsChecksumAddress(address, keccak).0 <==>
      address == "" || (IsAddress(address) && HasDigestCase(address, keccak))
  {
    if IsAddress(address) {
      var r, digest := Checksum(address, keccak), AddressDigest(address, keccak);
      assert |r| == |address|;
      if HasDigestCase(address, keccak) {
        forall i | 2 <= i < 42
          ensures r[i] == address[i]
        {
          assert r[i] == CaseChar(Body(address)[i - 2], Nibble(digest, i - 2));
          assert address[i] == CaseChar(ToLowerChar(address[i]), Nibble(digest, i - 2));
        }
        assert r == address;
      } else {
        var i :| 0 <= i < 40 && address[i + 2] != CaseChar(ToLowerChar(address[i + 2]), Nibble(digest, i));
        assert r[i + 2] == CaseChar(Body(address)[i], Nibble(digest, i));
      }
    }
  }

  /** The address the source's test converts, USD Coin's token contract. */
  const UsdcAddress: string := "0xa0b86991c6218b36c1d19d4a2e9eb0ce3606eb48"

  /** The test's scenario: the address is valid and its checksum passes `IsChecksumAddress`. */
  lemma UsdcRoundTrip(keccak: Keccak256)
    ensures IsAddress(UsdcAddress)
    ensures IsChecksumAddress(Checksum(UsdcAddress, keccak), keccak) == (true, None)
  {
    ChecksumRoundTrip(UsdcAddress, keccak);
  }
}
