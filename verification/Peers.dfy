/** The structures of global.h, crypto.h, state.h and peer.h, and the key-block macros. */
module Peers {
  import opened Bytes
  import opened CcmSpec
  import opened Prf

  datatype Option<+T> = None | Some(value: T)

  type uint16 = x: int | 0 <= x < 0x1_0000

  datatype Role = Client | Server

  /** dtls_state_t */
  datatype State =
    | Init | WaitClientHello | WaitClientCertificate | WaitClientKeyExchange | WaitCertificateVerify
    | WaitChangeCipherSpec | WaitFinished
    | ClientHelloSent | WaitServerCertificate | WaitServerKeyExchange | WaitServerHelloDone
    | Connected | Closing | Closed

  const VERSION: uint16 := 0xfefd
  const MAX_BUF: nat := 200

  /** The length of a handshake header. */
  const HS_LENGTH: nat := 12

  const NULL_CIPHER: uint16 := 0x0000
  const PSK_CIPHER: uint16 := 0xc0a8
  const ECDHE_CIPHER: uint16 := 0xc0ae

  /** dtls_alert_fatal_create */
  function Fatal(description: nat): int { -(0x200 + description) }

  const UNEXPECTED_MESSAGE: nat := 10
  const HANDSHAKE_FAILURE: nat := 40
  const DECODE_ERROR: nat := 50
  const DECRYPT_ERROR: nat := 51
  const PROTOCOL_VERSION: nat := 70
  const INSUFFICIENT_SECURITY: nat := 71
  const INTERNAL_ERROR: nat := 80

  /** dtls_alert_create(DTLS_ALERT_LEVEL_WARNING, DTLS_ALERT_NO_RENEGOTIATION) */
  const NO_RENEGOTIATION: int := -(0x100 + 100)

  /** The block cipher under each key. */
  type Aes = seq<byte> -> BlockCipher

  /** Two MAC secrets of length 0, two write keys, two IVs. */
  type KeyBlock = kb: seq<byte> | |kb| == 40 witness Zeros(40)

  /**
   * dtls_security_parameters_t. `id` stands for the address of the object: every dtls_security_new
   * hands out a new one. Only the low 48 bits of `rseq` are ever used, so its wrap at 2^64 cannot be seen.
   */
  datatype Security = Security(id: nat, cipher: uint16, compression: byte, epoch: uint16, rseq: nat, keyBlock: KeyBlock)

  function NewSecurity(id: nat): Security {
    Security(id, NULL_CIPHER, 0, 0, 0, Zeros(40))
  }

  // ---------------------------------------------------------------- key block (section 6.3 of RFC 5246)

  function ClientWriteKey(kb: KeyBlock): seq<byte> { kb[0..16] }
  function ServerWriteKey(kb: KeyBlock): seq<byte> { kb[16..32] }
  function ClientIv(kb: KeyBlock): seq<byte> { kb[32..36] }
  function ServerIv(kb: KeyBlock): seq<byte> { kb[36..40] }

  function LocalKey(role: Role, kb: KeyBlock): seq<byte> {
    if role == Client then ClientWriteKey(kb) else ServerWriteKey(kb)
  }

  function RemoteKey(role: Role, kb: KeyBlock): seq<byte> {
    if role == Server then ClientWriteKey(kb) else ServerWriteKey(kb)
  }

  function LocalIv(role: Role, kb: KeyBlock): seq<byte> {
    if role == Client then ClientIv(kb) else ServerIv(kb)
  }

  function RemoteIv(role: Role, kb: KeyBlock): seq<byte> {
    if role == Server then ClientIv(kb) else ServerIv(kb)
  }

  /** What one side writes with is what the other side reads with, and the four parts are the whole block. */
  lemma SlicesMeet(a: Role, b: Role, kb: KeyBlock)
    ensures a != b ==> LocalKey(a, kb) == RemoteKey(b, kb) && LocalIv(a, kb) == RemoteIv(b, kb)
    ensures kb == LocalKey(Client, kb) + LocalKey(Server, kb) + LocalIv(Client, kb) + LocalIv(Server, kb)
  {
  }
}
