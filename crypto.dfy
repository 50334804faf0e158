/** The configuration encryption of skcom/crypto.py: a salted, truncated
    SHA-256 of a string; a plaintext framed as `L<n>:<plain>:` and padded
    with `-` to whole AES blocks and with `+` to one mebibyte; AES-CBC under a
    key and an IV derived from the password and a fixed string; and the
    policy tag `P01:` in front of the ciphertext. SHA-256 and AES are library
    calls and enter as parameters. */
module Crypto {
  import opened Py
  import opened Utf8

  /** The library primitives: the SHA-256 digest of a message, and AES-CBC
      without padding, encrypting and decrypting under a key and an IV. */
  datatype Primitives = Primitives(
    sha256: seq<byte> -> seq<byte>,
    encrypt: (seq<byte>, seq<byte>, seq<byte>) -> seq<byte>,
    decrypt: (seq<byte>, seq<byte>, seq<byte>) -> seq<byte>)

  /** What the library guarantees: 32-byte digests, and a cipher that keeps
      the length of block-aligned data and that decryption undoes. */
  ghost predicate Sound(p: Primitives)
  {
    && (forall m :: |p.sha256(m)| == 32)
    && (forall k, iv, d :: |d| % BlockSize == 0 ==> |p.encrypt(k, iv, d)| == |d|)
    && (forall k, iv, d :: |d| % BlockSize == 0 ==> p.decrypt(k, iv, p.encrypt(k, iv, d)) == d)
  }

  const BlockSize := 16
  /** The framed plaintext is padded up to at least 1 MiB. */
  const MinFramed := 1048576
  /** `b'P01:'`, naming the encryption policy. */
  const PolicyTag: seq<byte> := [0x50, 0x30, 0x31, 0x3A]
  /** The string whose hash is the IV. */
  const IvSource := "{What The Fuck?}"

  /** The sixteen salts; the one used is picked by the input's last byte. */
  const SaltText: seq<string> := [
    ":salt-0:Plan^^^^^^^^^^^^^^^^^^^$",
    ":salt-1:Do%%%%%%%%%%%%%%%%%%%%%$",
    ":salt-2:Cancel&&&&&&&&&&&&&&&&&$",
    ":salt-3:Apologizeeeeeeeeeeeeeee$",
    ":salt-4:Salt~~~~~~~~~~~~~~~~~~~$",
    ":salt-5:Suger!!!!!!!!!!!!!!!!!!$",
    ":salt-6:Basil##################$",
    ":salt-7:Garlic@@@@@@@@@@@@@@@@@$",
    ":salt-8:Diesel>>>>>>>>>>>>>>>>>$",
    ":salt-9:Turbo==================$",
    ":salt-a:Broken?????????????????$",
    ":salt-b:Blocked................$",
    ":salt-c:Ray Tracing------------$",
    ":salt-d:CloseGL++++++++++++++++$",
    ":salt-e:Mvidia*****************$",
    ":salt-f:WinerWinerDinnerChicken$"
  ]

  /** The salt chosen for an encoded input: its last byte modulo 16. */
  function SaltIndex(raw: seq<byte>): (i: nat)
    requires |raw| > 0
    ensures i < |SaltText|
    ensures (i as int) == (raw[|raw| - 1] as int) % 16
  {
    (raw[|raw| - 1] as int) % 16
  }

  /** `hash_string`: the digest of the UTF-8 input followed by its salt, cut
      to `length` bytes; `None` for the empty string, where `raw[-1]` raises. */
  function HashString(p: Primitives, src: string, length: int): (r: Option<seq<byte>>)
    ensures r.None? <==> src == []
  {
    var raw := Encode(src);
    if raw == [] then None
    else Some(Slice(p.sha256(raw + Encode(SaltText[SaltIndex(raw)])), 0, length))
  }

  /** Hashes of one string with different lengths are prefixes of one
      another, and a 32-byte digest gives `min(length, 32)` bytes. */
  lemma HashTruncates(p: Primitives, src: string, m: int, n: int)
    requires src != [] && 0 <= m <= n
    ensures HashString(p, src, m).value <= HashString(p, src, n).value
    ensures Sound(p) ==> |HashString(p, src, n).value| == if n < 32 then n else 32
  {
    var raw := Encode(src);
    var d := p.sha256(raw + Encode(SaltText[SaltIndex(raw)]));
    SliceHead(d, m);
    SliceHead(d, n);
  }

  /** The AES key and IV of `get_cipher`. */
  datatype CipherKey = CipherKey(key: seq<byte>, iv: seq<byte>)

  /** `get_cipher(password)`: the key is the password's hash asked for 256
      bytes, so the whole digest; the IV is the fixed string's hash cut to
      16 bytes. `None` for an empty password. */
  function GetCipher(p: Primitives, password: string): (r: Option<CipherKey>)
    ensures r.None? <==> password == []
    ensures r.Some? ==> r.value == CipherKey(HashString(p, password, 256).value,
                                             HashString(p, IvSource, 16).value)
  {
    var key := HashString(p, password, 256);
    var iv := HashString(p, IvSource, 16);
    if key.None? then None else Some(CipherKey(key.value, iv.value))
  }

  /** With a 32-byte digest the key fits AES-256 and the IV is one block. */
  lemma CipherSizes(p: Primitives, password: string)
    requires Sound(p) && password != []
    ensures |GetCipher(p, password).value.key| == 32
    ensures |GetCipher(p, password).value.iv| == BlockSize
  {
    HashTruncates(p, password, 0, 256);
    HashTruncates(p, IvSource, 0, 16);
  }

  // ---------------------------------------------------------------- framing

  /** `'L%s:%s:' % (len(plain), plain)`: the length counts characters. */
  function Payload(plain: string): string
  {
    "L" + Str(|plain|) + ":" + plain + ":"
  }

  /** The number of `-` bytes that bring `n` bytes to a whole block. */
  function DashCount(n: nat): nat
  {
    (BlockSize - n) % BlockSize
  }

  /** The number of `+` bytes that bring `n` bytes up to 1 MiB. */
  function PlusCount(n: nat): nat
  {
    if MinFramed - n > 0 then MinFramed - n else 0
  }

  /** The bytes handed to the cipher. */
  function Framed(plain: string): seq<byte>
  {
    var raw := Encode(Payload(plain));
    var aligned := raw + Repeat('-' as int as byte, DashCount(|raw|));
    aligned + Repeat('+' as int as byte, PlusCount(|aligned|))
  }

  /** The framed bytes are the encoded payload, then fewer than a block of
      `-`, then `+` up to 1 MiB; the total is block-aligned and equals the
      larger of 1 MiB and the aligned length. */
  lemma FramedShape(plain: string)
    ensures var raw := Encode(Payload(plain));
      var f := Framed(plain);
      var a := |raw| + DashCount(|raw|);
      && DashCount(|raw|) < BlockSize && a % BlockSize == 0
      && |f| == (if a < MinFramed then MinFramed else a)
      && |f| % BlockSize == 0
      && f[..|raw|] == raw
      && (forall i :: |raw| <= i < a ==> f[i] == '-' as int as byte)
      && (forall i :: a <= i < |f| ==> f[i] == '+' as int as byte)
  {
  }

  /** The framed bytes are the UTF-8 form of the payload followed by the
      padding characters. */
  lemma FramedIsText(plain: string)
    ensures var raw := Encode(Payload(plain));
      var dashes := Repeat('-', DashCount(|raw|));
      Framed(plain) == Encode(Payload(plain) + dashes + Repeat('+', PlusCount(|raw| + |dashes|)))
  {
    var payload := Payload(plain);
    var raw := Encode(payload);
    var dashes := Repeat('-', DashCount(|raw|));
    var pluses := Repeat('+', PlusCount(|raw| + |dashes|));
    EncodeAppend(payload, dashes);
    EncodeAppend(payload + dashes, pluses);
    EncodeRepeat('-', DashCount(|raw|));
    EncodeRepeat('+', PlusCount(|raw| + |dashes|));
  }

  /** The parsing half of `decrypt_text`: the digits between the first
      character and the first `:` give a length, and that many characters
      after the `:` are the plaintext. */
  function Unframe(payload: string): (r: Option<string>)
    ensures r.Some? ==> |r.value| <= |payload|
  {
    var colon := Find(payload, ":");
    match ParseInt(Slice(payload, 1, colon))
    case None => None
    case Some(n) => Some(Slice(payload, colon + 1, colon + n + 1))
  }

  /** The framing reads back exactly, whatever the plaintext contains
      (`:`, `-`, `+` included) and whatever padding follows it. */
  lemma UnframeFrame(plain: string, pad: string)
    ensures Unframe(Payload(plain) + pad) == Some(plain)
  {
    var n := |plain|;
    var digits := Str(n);
    var s := Payload(plain) + pad;
    var colon := 1 + |digits|;
    assert s == "L" + digits + ":" + plain + ":" + pad;
    assert s[colon] == ':';
    forall j | 0 <= j < colon ensures s[j] != ':' {
      if j > 0 {
        assert s[j] == digits[j - 1];
      }
    }
    FindFirst(s, ':', colon);
    assert Slice(s, 1, colon) == digits;
    ParseStr(n);
    assert Slice(s, colon + 1, colon + n + 1) == plain;
  }

  // ---------------------------------------------------------------- encrypt / decrypt

  /** `encrypt_text`: the policy tag, then the framed plaintext encrypted;
      `None` for an empty password. */
  function EncryptText(p: Primitives, plain: string, password: string): (r: Option<seq<byte>>)
    ensures r.None? <==> password == []
    ensures r.Some? ==> |r.value| >= |PolicyTag| && r.value[..|PolicyTag|] == PolicyTag
  {
    match GetCipher(p, password)
    case None => None
    case Some(k) => Some(PolicyTag + p.encrypt(k.key, k.iv, Framed(plain)))
  }

  /** Why `decrypt_text` raises. */
  datatype Failure =
    | UnknownPolicy   // the explicit check on the first four bytes
    | EmptyPassword   // `raw[-1]` on the empty password
    | PartialBlock    // the cipher is given data that is not whole blocks
    | NotUtf8         // the decrypted bytes do not decode
    | BadLength       // `int()` refuses the length field

  datatype Result<T> = Ok(value: T) | Err(failure: Failure)

  /** `decrypt_text`. */
  function DecryptText(p: Primitives, secret: seq<byte>, password: string): (r: Result<string>)
    ensures r == Err(UnknownPolicy) <==> Slice(secret, 0, 4) != PolicyTag
    ensures r == Err(EmptyPassword) <==> Slice(secret, 0, 4) == PolicyTag && password == []
  {
    if Slice(secret, 0, 4) != PolicyTag then Err(UnknownPolicy)
    else match GetCipher(p, password)
      case None => Err(EmptyPassword)
      case Some(k) =>
        var body := secret[4..];
        if |body| % BlockSize != 0 then Err(PartialBlock)
        else match Decode(p.decrypt(k.key, k.iv, body))
          case None => Err(NotUtf8)
          case Some(payload) =>
            match Unframe(payload)
            case None => Err(BadLength)
            case Some(plain) => Ok(plain)
  }

  /** The framed bytes decode, and the decoded text unframes to the
      plaintext. */
  lemma UnframeDecoded(plain: string)
    ensures Decode(Framed(plain)).Some?
    ensures Unframe(Decode(Framed(plain)).value) == Some(plain)
  {
    var raw := Encode(Payload(plain));
    var dashes := Repeat('-', DashCount(|raw|));
    var pluses := Repeat('+', PlusCount(|raw| + |dashes|));
    var text := Payload(plain) + (dashes + pluses);
    assert Framed(plain) == Encode(text) by {
      FramedIsText(plain);
      assert Payload(plain) + dashes + pluses == text;
    }
    DecodeEncode(text);
    UnframeFrame(plain, dashes + pluses);
  }

  /** `decrypt_text(encrypt_text(plain, password), password) == plain` for
      every plaintext and every non-empty password. */
  lemma DecryptEncrypt(p: Primitives, plain: string, password: string)
    requires Sound(p) && password != []
    ensures EncryptText(p, plain, password).Some?
    ensures DecryptText(p, EncryptText(p, plain, password).value, password) == Ok(plain)
  {
    var k := GetCipher(p, password).value;
    var f := Framed(plain);
    var c := p.encrypt(k.key, k.iv, f);
    var secret := PolicyTag + c;
    assert EncryptText(p, plain, password) == Some(secret);
    FramedShape(plain);
    assert |c| % BlockSize == 0;
    assert p.decrypt(k.key, k.iv, c) == f;
    assert Slice(secret, 0, 4) == PolicyTag;
    assert secret[4..] == c;
    UnframeDecoded(plain);
  }
}
