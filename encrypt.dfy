/**
 * The encryption helpers that prepare encrypted key material for test scenarios. The
 * primitives themselves are foreign; what is modelled is how the wrapper sizes the output
 * buffer and maps the primitive's status code to a result.
 */
module Encrypt {
  import opened Wrappers
  import opened CTypes

  /** The one error either helper reports. */
  const ENCRYPT_FAILED: string := "Failed to encrypt buffer"

  /** RSA-OAEP ciphertext length: the octet length of a 2048-bit modulus (section 7.1.1 of RFC 8017). */
  const RSA_OAEP_LEN: nat := 256

  /**
   * `rsa_oaep_encrypt_`, foreign code: `status` is what it returns and `byteAt` the byte it
   * leaves at each index of the output buffer, for the keys and their lengths as passed.
   */
  class RsaOaepPrimitive {
    const status: (seq<u8>, u32, seq<u8>, u32) -> i32
    const byteAt: (seq<u8>, u32, seq<u8>, u32, nat) -> u8

    constructor (status: (seq<u8>, u32, seq<u8>, u32) -> i32, byteAt: (seq<u8>, u32, seq<u8>, u32, nat) -> u8)
      ensures this.status == status && this.byteAt == byteAt
    {
      this.status := status;
      this.byteAt := byteAt;
    }

    /** One call: fills `encbuf` in place and returns the status code. */
    method Invoke(pubkey: seq<u8>, pubkeyLen: u32, seckey: seq<u8>, seckeyLen: u32, encbuf: array<u8>)
      returns (rc: i32)
      modifies encbuf
      ensures rc == status(pubkey, pubkeyLen, seckey, seckeyLen)
      ensures forall i :: 0 <= i < encbuf.Length ==> encbuf[i] == byteAt(pubkey, pubkeyLen, seckey, seckeyLen, i)
    {
      forall i | 0 <= i < encbuf.Length {
        encbuf[i] := byteAt(pubkey, pubkeyLen, seckey, seckeyLen, i);
      }
      rc := status(pubkey, pubkeyLen, seckey, seckeyLen);
    }
  }

  /**
   * `kw_encrypt_`, foreign code: it is given neither the key length nor the buffer length, so
   * what it returns and writes depends on the key-encryption key and the secret key only.
   */
  class KeyWrapPrimitive {
    const status: (seq<u8>, seq<u8>) -> i32
    const byteAt: (seq<u8>, seq<u8>, nat) -> u8

    constructor (status: (seq<u8>, seq<u8>) -> i32, byteAt: (seq<u8>, seq<u8>, nat) -> u8)
      ensures this.status == status && this.byteAt == byteAt
    {
      this.status := status;
      this.byteAt := byteAt;
    }

    /** One call: fills `encbuf` in place and returns the status code. */
    method Invoke(kek: seq<u8>, seckey: seq<u8>, encbuf: array<u8>) returns (rc: i32)
      modifies encbuf
      ensures rc == status(kek, seckey)
      ensures forall i :: 0 <= i < encbuf.Length ==> encbuf[i] == byteAt(kek, seckey, i)
    {
      forall i | 0 <= i < encbuf.Length {
        encbuf[i] := byteAt(kek, seckey, i);
      }
      rc := status(kek, seckey);
    }
  }

  /**
   * Encrypt `seckey` under `pubkey` with RSA-OAEP. The primitive sees both lengths cut to
   * 32 bits; on status 0 the result is the whole 256-byte buffer it filled, on any other
   * status the one encryption-failure error.
   */
  method RsaOaepEncrypt(pubkey: seq<u8>, seckey: seq<u8>, rsa: RsaOaepPrimitive) returns (r: Result<seq<u8>, string>)
    ensures r.Ok? <==> rsa.status(pubkey, TruncU32(|pubkey|), seckey, TruncU32(|seckey|)) == 0
    ensures r.Ok? ==> |r.value| == RSA_OAEP_LEN
    ensures r.Ok? ==> forall i :: 0 <= i < |r.value| ==>
                        r.value[i] == rsa.byteAt(pubkey, TruncU32(|pubkey|), seckey, TruncU32(|seckey|), i)
    ensures r.Err? ==> r.error == ENCRYPT_FAILED
  {
    var encbuf := new u8[RSA_OAEP_LEN](_ => 0);
    var rc := rsa.Invoke(pubkey, TruncU32(|pubkey|), seckey, TruncU32(|seckey|), encbuf);
    if rc == 0 {
      return Ok(encbuf[..]);
    }
    return Err(ENCRYPT_FAILED);
  }

  /**
   * Wrap `seckey` under `kek` with AES key wrap. `keylen` is the length of the secret key in
   * bytes: a 32-byte key gets a 40-byte buffer, any other length a 24-byte one. For the two
   * key sizes used, 16 and 32 bytes, that is the key plus the 8-byte integrity block of
   * section 2.2.1 of RFC 3394. On status 0 the result is the whole buffer the primitive
   * filled, on any other status the one encryption-failure error.
   */
  method KwEncrypt(kek: seq<u8>, seckey: seq<u8>, keylen: u32, kw: KeyWrapPrimitive) returns (r: Result<seq<u8>, string>)
    ensures r.Ok? <==> kw.status(kek, seckey) == 0
    ensures r.Ok? ==> |r.value| == if keylen == 32 then 40 else 24
    ensures r.Ok? && (keylen == 16 || keylen == 32) ==> |r.value| == keylen as int + 8
    ensures r.Ok? ==> forall i :: 0 <= i < |r.value| ==> r.value[i] == kw.byteAt(kek, seckey, i)
    ensures r.Err? ==> r.error == ENCRYPT_FAILED
  {
    var encbuf := new u8[24](_ => 0);
    if keylen == 32 {
      encbuf := new u8[40](_ => 0);
    }
    var rc := kw.Invoke(kek, seckey, encbuf);
    if rc == 0 {
      return Ok(encbuf[..]);
    }
    return Err(ENCRYPT_FAILED);
  }
}
