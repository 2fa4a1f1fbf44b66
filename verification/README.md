# tinydtls 0.8.1: a verified model

A Dafny 4.11 model of the DTLS 1.2 stack in `nrf51/external/tinydtls-0.8.1`, and proofs about it. The files,
from the bottom up:

| file | contents |
|---|---|
| `Bytes.dfy` | octets, exclusive-or, big-endian integers, `memxor`, `equals`, `memcpy` |
| `CcmSpec.dfy`, `Ccm.dfy` | CCM as RFC 3610 defines it, and the in-place code of `ccm.c` proved equal to it |
| `Prf.dfy` | HMAC, P_hash, the pre-master secret of a pre-shared key |
| `Peers.dfy`, `RecordSpec.dfy`, `Record.dfy` | key block, records on values, records in buffers |
| `Datagram.dfy` | cutting a datagram into records |
| `Hello.dfy` | ClientHello printed and parsed, and the cookie |
| `Signature.dfy` | the ECDSA signature element |
| `Retransmit.dfy` | the timed queue and its back-off |
| `ExtensionList.dfy` | which lists of extensions are accepted |
| `Engine.dfy` | one endpoint as functions on values: every handler, record by record and call by call |
| `Wire.dfy` | the same in octets: records, key derivation, messages, alerts, as numbers |
| `Machine.dfy`, `Flights.dfy` | states by message and record type, and calls; flights and the transcript |
| `Authentic.dfy` | which records an endpoint acts on |
| `Connection.dfy`, `Play.dfy` | the same as a class whose methods assign fields and arrays, each proved equal to its function; and run |
| `Reorder.dfy`, `Frame.dfy`, `Delivery.dfy` | the reorder buffer, and that reordering does not show in an endpoint |
| `Nonces.dfy`, `Order.dfy`, `Keys.dfy` | invariants over all runs of an endpoint: record numbers; handshake order and shared storage; the keys in use |
| `Transport.dfy`, `TwoParty.dfy` | two endpoints joined by a channel |
| `Admission.dfy`, `Crossing.dfy`, `Wrap.dfy` | which strangers are let in; what a hello does that reaches the wrong role; the epoch after 65535 |
| `Witness.dfy` | concrete runs: to both sides connected, and to each way in which a property fails |

How the model is set up:

- The block cipher is an arbitrary function on blocks for each key, the hash an arbitrary function on octet
  strings. Nothing is assumed of either.
- `Engine.World` is everything outside: the results of the `write`, `get_psk_info` and ECDSA callbacks, random
  values, the outcome of elliptic-curve work, and the octets in memory behind a received message. All of them are
  arbitrary, and indexed by a clock, so that no two calls need agree. Theorems say which restrictions they need.
- `Engine.Endpoint` is the state for one remote address. It carries a history that no function of the program
  reads: the records written, and for each handshake a trail of milestones.
- A `size_t` has 32 bits, as on the nRF51, where the code lets a difference wrap. A handshake message number and an
  epoch wrap at 2^16. The record counter is unbounded: only its low 48 bits are ever written.
- Memory behind a received message is an input, so the reads past the end of a field, a list or an extension are
  in the model as they are in the code.
- `assert` is taken as compiled out, so a ServerHello or CertificateRequest that an assertion would stop is handled.

Where the code and its documentation, or the RFCs, differ, the model follows the code, and says exactly when:

- `netq.h:63-72` promises a queue ordered by time stamp. `netq_insert_node` puts a node behind the first later one
  (`Retransmit.InsertKeepsOrder` says exactly when order survives), so a due node can be left waiting
  (`Retransmit.DueNodeLeftInRun`).
- The cookie gate (`Admission.LetInExactly`): a ClientHello of any version but DTLS 1.2 is let in with any cookie or
  none, because `dtls_verify_peer` then returns the result of the cookie computation, which is 0; and a hello with a
  wrong cookie is let in when `write` reports 0 or 13 for the HelloVerifyRequest, since both make the result 0.
- A hello is not checked against the role of an established connection. `Crossing.CrossedHelloExactly` says exactly
  which hellos can break order or storage (runs in `Witness.ClientRunBreaks` and `Witness.ServerRunBreaks`).
- Error codes other than -1 and alert codes leave the peer where it is, so that the master secret is read as random
  values (`Witness.UnreportedRunBreaks`).
- `dtls_renegotiate` does not initialise the reorder queue. An early message that fits is stored if and only if
  the queue has been initialised (`Delivery.EarlyStoredExactly`); nothing else makes a handshake without a queue
  (`Delivery.WithoutQueueByRenegotiation`); a run that loses a message is `Witness.EarlyMessageLost`.
- The room check of `dtls_prepare_record` does not count the tag: a record that passes is longer than the buffer if
  and only if it is encrypted and its payload has 172 to 179 octets (`Record.OverrunExactly`, `Record.SendOverruns`;
  a run in `Witness.OverrunInRun`).
- After epoch 65535 the new slot counts as the older one. A server's is freed when the client's Finished is
  decrypted, the switch leaves slot 0 empty, and the connection goes on in the clear; exactly then the keys in use are
  not the derived ones (`Keys.KeyedExactly`, `Wrap.FinishedArrives`, `Wrap.WritesInTheClear`; a run in
  `Witness.WrappedServerWritesInTheClear`).
- A slot without cipher is read under as long as it is there. A server's old one stays beside the new keys until the
  first record under them is read (`Authentic.KeyedFromThen`); `Authentic.MovedBySealed` therefore asks for keys in all
  slots, and `Authentic.PlainAlert` shows what the condition is for.
- A ServerKeyExchange that arrives before a cipher suite is negotiated moves any state to
  DTLS_STATE_WAIT_SERVERHELLODONE, which then leads nowhere (`Order.Phase`).

The main results are `TwoParty.HandshakeCompletes`, `Order.ConnectedIsComplete`, `Order.StorageIsLawful`,
`Keys.KeyedExactly`, `Crossing.CrossedHelloExactly`, `Nonces.NoNumberRepeats`, `Delivery.FlightHandledInOrder`, `Admission.LetInExactly`,
`Ccm.EncryptMessage`, `Ccm.DecryptMessage`, `CcmSpec.AcceptsOnlyEncryptions`, `RecordSpec.RecordRoundTrip`,
`Retransmit.AtMostSeven`, `Retransmit.SevenTurns`, `Authentic.UnopenedDropped`, `Authentic.MovedBySealed`,
`Machine.MessagesMove`, `Flights.HelloDoneAnswered`, `ExtensionList.AcceptedExactly`, `Connection.Peer.HandleMessage` and
`Play.Play`. What they say about octets is said in numbers: `Wire` ties the names used for the parts of a record, a
derivation or a message to them.

## Model

| member | source | states |
|---|---|---|
| Bytes.MemXor | nrf51/external/tinydtls-0.8.1/global.h:106-112 | `x` is exclusive-ored byte by byte from the given position on, and no other byte changes |
| Bytes.Equals | nrf51/external/tinydtls-0.8.1/global.h:124-131 | 1 exactly when the first `len` bytes agree |
| Ccm.SetCounter | nrf51/external/tinydtls-0.8.1/ccm.c:39-47 | the block becomes flags and nonce followed by the counter in L octets, most significant first, truncated to L octets |
| Ccm.Block0 | nrf51/external/tinydtls-0.8.1/ccm.c:37-67 | the block is B_0 of section 2.2 of RFC 3610: its first octet decodes to Adata, which is set exactly with additional data, (M-2)/2 and L-1, and nonce and message length follow |
| CcmSpec.B0Decodes | nrf51/external/tinydtls-0.8.1/ccm.c:37-67 | the same for every M and L; with M = 8 and L = 3 the first octet is 0x5A with additional data and 0x1A without |
| CcmSpec.LengthPrefixOctets | nrf51/external/tinydtls-0.8.1/ccm.c:94-107 | the two-, six- and ten-octet lengths, and that they change at 65280 and 2^32 |
| Ccm.MacIsCbc | nrf51/external/tinydtls-0.8.1/ccm.c:83-237 | the tag is the CBC-MAC, from zeroes, of the whole string of authentication blocks |
| Wire.CcmOctets | nrf51/external/tinydtls-0.8.1/ccm.c:175-237 | with the parameters of a record and 13 octets of additional data: each octet of ciphertext, and the tag, as block encryptions of strings written out in numbers |
| Ccm.AddAuthData | nrf51/external/tinydtls-0.8.1/ccm.c:83-146 | the chaining value is the CBC-MAC over B_0 and the length-prefixed, zero-padded additional data, for the two-, six- and ten-octet prefixes |
| Ccm.EncryptMessage | nrf51/external/tinydtls-0.8.1/ccm.c:175-237 | in place: message XOR S_1 S_2 ..., then the first M octets of the CBC-MAC over B_0..B_n XOR S_0; nothing outside those octets changes (sections 2.2 to 2.4 of RFC 3610) |
| Ccm.DecryptMessage | nrf51/external/tinydtls-0.8.1/ccm.c:239-311 | in place: the plaintext and its length when the tag is right, -1 otherwise; what is overwritten in either case (section 2.5 of RFC 3610) |
| CcmSpec.RoundTrip | nrf51/external/tinydtls-0.8.1/ccm.c:175-311 | decrypting an encryption under the same nonce and additional data returns the message |
| CcmSpec.AcceptsOnlyEncryptions | nrf51/external/tinydtls-0.8.1/ccm.c:239-311 | a string is accepted as `m` if and only if it is the encryption of `m` |
| CcmSpec.FormattedPrefixFree | nrf51/external/tinydtls-0.8.1/ccm.c:49-146 | for fixed M and L the authentication blocks determine nonce, additional data and message, even when one block string is only a prefix of the other |
| CcmSpec.CounterBlocksDistinct | nrf51/external/tinydtls-0.8.1/ccm.c:39-67 | counter blocks below 2^(8L) are pairwise distinct, and never a B_0 |
| Prf.HmacContext.Init | nrf51/external/tinydtls-0.8.1/hmac.c:110-135 | the context is keyed: inner pad absorbed, outer pad kept |
| Prf.HmacContext.Finalize | nrf51/external/tinydtls-0.8.1/hmac.c:143-158 | the result is the HMAC (RFC 2104) of everything fed since initialisation |
| Prf.HmacOctets | nrf51/external/tinydtls-0.8.1/hmac.c:110-158 | the pads are the key exclusive-ored with 0x36 and 0x5C octet by octet; a key of more than 64 octets stands for its hash |
| Prf.PHashInto | nrf51/external/tinydtls-0.8.1/crypto.c:225-289 | exactly `buflen` octets of P_hash are written (section 5 of RFC 5246), for any label, random values and key; what happens when a context cannot be allocated |
| Prf.PHashPrefix | nrf51/external/tinydtls-0.8.1/crypto.c:225-289 | a shorter request is a prefix of a longer one |
| Prf.PHashAt | nrf51/external/tinydtls-0.8.1/crypto.c:225-289 | octet i of the output is octet i mod 32 of HMAC(key, A(i/32 + 1) + seed), however much is asked for |
| Prf.PskPreMasterSecret | nrf51/external/tinydtls-0.8.1/crypto.c:360-382 | the pre-master secret of section 2 of RFC 4279, or -1 and nothing written when there is no room |
| Prf.PreMasterInjective | nrf51/external/tinydtls-0.8.1/crypto.c:360-382 | different keys give different pre-master secrets |
| Prf.KeyBlockRoom | nrf51/external/tinydtls-0.8.1/dtls.c:631-644 | a pre-shared key fits the 40-octet key block if and only if it has at most 18 octets |
| Peers.SlicesMeet | nrf51/external/tinydtls-0.8.1/crypto.h:143-184 | what one role writes with is what the other reads with; the four slices make up the whole key block |
| RecordSpec.RecordRoundTrip | nrf51/external/tinydtls-0.8.1/dtls.c:1181-1322 | with the same key block and opposite roles, reading a protected record yields its payload |
| RecordSpec.AcceptsOnlySealed | nrf51/external/tinydtls-0.8.1/dtls.c:2877-2946 | a record is accepted as `payload` if and only if its fragment is the sealing of `payload` under the nonce it carries, its own header and the keys |
| Record.SetRecordHeader | nrf51/external/tinydtls-0.8.1/dtls.c:391-417 | type, version, epoch, sequence number and length 0 are written, and the counter goes up by one |
| Record.PrepareRecord | nrf51/external/tinydtls-0.8.1/dtls.c:1181-1322 | in any buffer of at least the `rlen` octets it is told of: no room for a header and nothing changed; or the protected record of all payload pieces, or the room check fails, or the code would write behind the buffer; which of these, and that the sequence number is used up in the last three. The record is spelled out: header, nonce from salt and explicit part, keys and salt as slices of the key block, and number, type, version, length as additional data, in this order |
| Record.OverrunExactly | nrf51/external/tinydtls-0.8.1/dtls.c:1207-1277 | a record that passes the room check is longer than `rlen` if and only if it is encrypted and rlen < 29 + payload <= rlen + 8, and then by at most eight octets |
| Record.SendOverruns | nrf51/external/tinydtls-0.8.1/dtls.c:1416-1425 | with the buffer of dtls_send_multi: exactly encrypted payloads of 172 to 179 octets leave as records longer than it |
| Record.DecryptVerify | nrf51/external/tinydtls-0.8.1/dtls.c:2877-2946 | in place: where the cleartext is and how long, or -1; under a cipher exactly what the other role sealed in the form just named; nothing before the fragment or behind the record changes |
| Wire.ProtectOctets | nrf51/external/tinydtls-0.8.1/dtls.c:391-417 | every record, whatever its security parameters, type and payload, is of that form |
| Wire.OpensExactly | nrf51/external/tinydtls-0.8.1/dtls.c:2877-2946 | a record is accepted as `payload` if and only if the other role has sealed `payload` in that form; without a cipher, as what follows its header |
| Wire.SendOctets | nrf51/external/tinydtls-0.8.1/dtls.c:1408-1484 | a payload of at most 187 octets, or 179 under a cipher, leaves as one such record under the next number of slot 0, and the result of `write` less what the record has more is returned; a longer one is refused with internal_error |
| Datagram.SplitOfConcat | nrf51/external/tinydtls-0.8.1/dtls.c:3618-3741 | well-formed records sent in one datagram come out again as exactly those records |
| Transport.MessageIsRecords | nrf51/external/tinydtls-0.8.1/dtls.c:3597-3744 | a datagram is handled as the records it splits into, one by one up to an error or to the one that makes the peer known |
| Transport.RecordsInOneDatagram | nrf51/external/tinydtls-0.8.1/dtls.c:3618-3741 | any well-formed records in one datagram, whatever follows them, are handled as if each were alone, up to the same point |
| Authentic.UnopenedDropped | nrf51/external/tinydtls-0.8.1/dtls.c:2888-2946 | every record at an endpoint that knows the peer: if no slot has its epoch, or the slot is keyed and no payload seals to it, then behind the handshake nothing but the clock changes, and before that the peer is freed after one decrypt_error alert |
| Authentic.OpenedHandled | nrf51/external/tinydtls-0.8.1/dtls.c:3630-3737 | every other record is handled as the payload it opens as, of the type and epoch in its header |
| Authentic.RunUnmoved | nrf51/external/tinydtls-0.8.1/dtls.c:3618-3651 | any number of datagrams whose first record does not open leave an endpoint behind its handshake as it was |
| Authentic.MovedBySealed | nrf51/external/tinydtls-0.8.1/dtls.c:3597-3744 | in every run: a datagram that changes anything but the clock of an established endpoint with keys in its slots begins with a record sealed with the keys its peer writes with |
| Authentic.KeyedFromThen | nrf51/external/tinydtls-0.8.1/peer.h:96-113 | a record read under the keys of slot 0 frees a slot 1 of no later epoch, so that from then on no slot is without keys |
| Authentic.PlainAlert | nrf51/external/tinydtls-0.8.1/dtls.c:2888-2890 | close_notify in the clear: one tick of the clock where all slots have keys; the end of the connection where slot 1 is still the plain one |
| Datagram.SplitCovers | nrf51/external/tinydtls-0.8.1/dtls.c:362-382 | the records visited lie end to end at the front of the datagram, are well formed, and stop where no record follows |
| Datagram.ProtectedIsWellFormed | nrf51/external/tinydtls-0.8.1/dtls.c:1317-1321 | every prepared record is recognised as one record from end to end |
| Hello.CreateCookie | nrf51/external/tinydtls-0.8.1/dtls.c:287-342 | the cookie is the HMAC over address, hello up to the session id, and what follows the cookie field |
| Hello.CheckCookie | nrf51/external/tinydtls-0.8.1/dtls.c:1541-1608 | the decision on a ClientHello: good, to be challenged, or refused |
| Hello.CookieExchangeCloses | nrf51/external/tinydtls-0.8.1/dtls.c:1541-1608 | the computed cookie does not depend on the cookie field; a hello of this version is good if and only if it carries it, and the second hello echoing it passes (section 4.2.1 of RFC 6347) |
| Hello.FieldUnreadable | nrf51/external/tinydtls-0.8.1/dtls.c:262-345 | once the cookie can be computed, the cookie field cannot be read if and only if the version is not DTLS 1.2 |
| Admission.LetInExactly | nrf51/external/tinydtls-0.8.1/dtls.c:1541-1608 | for a stranger's ClientHello of any content: a peer is made if and only if the cookie can be computed and the version is another one, or the cookie is right, or there is a wrong one and `write` reports 0 or 13 for the challenge |
| Admission.ChallengeOctets | nrf51/external/tinydtls-0.8.1/dtls.c:1575-1600 | the HelloVerifyRequest that goes out, all 44 octets |
| Admission.OtherVersionLetIn | nrf51/external/tinydtls-0.8.1/dtls.c:1551-1577 | every hello of another version is let in, with any session id, cookie and remainder |
| Admission.ThisVersionLetIn | nrf51/external/tinydtls-0.8.1/dtls.c:1541-1608 | a hello of this version is let in with the cookie made from its own fields, or with any other non-empty one if `write` reports 0 or 13, and never otherwise |
| Hello.CheckTlsExtension | nrf51/external/tinydtls-0.8.1/dtls.c:778-889 | the loop over the extensions, with its reads past a body, decides as the recursive description, for both hellos and every input |
| Hello.PickCipher | nrf51/external/tinydtls-0.8.1/dtls.c:943-955 | the first known suite of the list, or none; a list of odd length is left behind at its end |
| Hello.ReadClientHello | nrf51/external/tinydtls-0.8.1/dtls.c:901-1000 | the offer read from a ClientHello equals its recursive description, on every input |
| Hello.PrintParseAgree | nrf51/external/tinydtls-0.8.1/dtls.c:2308-2458 | for every configuration, random value and cookie: the parsed hello has that random value and the first of the client's suites the server knows, and its extensions are accepted |
| ExtensionList.AcceptedExactly | nrf51/external/tinydtls-0.8.1/dtls.c:778-889 | for every list of extensions behind a hello: accepted if and only if each known one offers what is needed and, with ECDHE-ECDSA, all needed ones are there |
| Wire.ClientHelloOctets | nrf51/external/tinydtls-0.8.1/dtls.c:2308-2458 | the body of each ClientHello, octet by octet |
| Transport.EcdheHelloRead | nrf51/external/tinydtls-0.8.1/dtls.c:1736-1865 | a client that knows ECDHE-ECDSA takes random value and suite from the ServerHello for it |
| Signature.AddElement | nrf51/external/tinydtls-0.8.1/dtls.c:1867-1922 | the element is written in place, and nothing around it changes |
| Signature.IntegerReadsBack | nrf51/external/tinydtls-0.8.1/crypto.c:404-439 | the 32 octets before the end of a printed integer are its value if and only if it has no zero word and a top word of at least 2^23 |
| Signature.ElementRoundTrip | nrf51/external/tinydtls-0.8.1/dtls.c:1611-1689 | parsing consumes exactly what was printed, and each slice converts back if and only if that integer is printable in this sense |
| Signature.ElementInOctets | nrf51/external/tinydtls-0.8.1/dtls.c:1867-1922 | the element octet by octet: hash and signature algorithm, lengths, and the two tagged integers |
| Retransmit.SendQueue.InsertNode | nrf51/external/tinydtls-0.8.1/netq.c:90-107 | the node goes behind the first later node, or to the end |
| Retransmit.InsertKeepsOrder | nrf51/external/tinydtls-0.8.1/netq.c:90-107 | an insertion keeps the queue ordered, as netq.h:63-72 promises, if and only if no queued node is later than the new one |
| Retransmit.InsertBreaksOrder | nrf51/external/tinydtls-0.8.1/netq.c:90-107 | a node due earlier than the only queued one lands behind it |
| Retransmit.SendQueue.CheckRetransmit | nrf51/external/tinydtls-0.8.1/dtls.c:3943-3957 | terminates; leaves the queue and makes the resends its recursive description says, and returns the time stamp at the head |
| Retransmit.CheckHandlesFront | nrf51/external/tinydtls-0.8.1/dtls.c:3943-3957 | a call handles exactly the due nodes at the front, once each and in order |
| Retransmit.CheckLeavesNoneDue | nrf51/external/tinydtls-0.8.1/dtls.c:3943-3957 | a call leaves no node due if and only if no due node stands behind one that is not |
| Retransmit.DueNodeLeftInRun | nrf51/external/tinydtls-0.8.1/dtls.c:3943-3957 | two messages with the timeout of the code, sent 3000 ticks apart: at 5000 the second is due and waits behind the first |
| Retransmit.RunBounds | nrf51/external/tinydtls-0.8.1/dtls.c:3876-3957 | over all runs: the bookkeeping that bounds number and time of resends |
| Retransmit.AtMostSeven | nrf51/external/tinydtls-0.8.1/global.h:68 | over all runs a message is sent again at most seven times, the k-th time at least timeout * (2^k - 1) after it was first sent (section 4.2.4.1 of RFC 6347) |
| Retransmit.SevenTurns | nrf51/external/tinydtls-0.8.1/dtls.c:3876-3957 | for every message and all times at which the timer fires, however late: it is sent again on each of seven turns, waits timeout * 2^k after the k-th, and leaves the queue on the eighth without being sent |
| Retransmit.DueNodeHandled | nrf51/external/tinydtls-0.8.1/dtls.c:3881-3924 | in any queue, for any call: a due node at the front is sent again, and is in the queue afterwards, if and only if it has been sent fewer than seven times |
| Retransmit.EightTurns | nrf51/external/tinydtls-0.8.1/dtls.c:3876-3957 | the run with the timeout of the code: eight timer calls, seven resends, and an empty queue |
| Reorder.DeliveryIsInOrder | nrf51/external/tinydtls-0.8.1/dtls.c:3384-3457 | in any arrival order with any duplicates: first copies of the next messages, once each and in order, up to the first one missing; queued numbers distinct and above mseq_r |
| Reorder.ReorderingIsInvisible | nrf51/external/tinydtls-0.8.1/dtls.c:3384-3457 | a whole flight is handed on as if nothing had been reordered or repeated, and the queue is empty afterwards (section 4.2.2 of RFC 6347) |
| Frame.HandleFrame | nrf51/external/tinydtls-0.8.1/dtls.c:2992-3351 | no handler reads the reorder queue: with another queue it does the same and leaves that queue |
| Delivery.ArrivalMatches | nrf51/external/tinydtls-0.8.1/dtls.c:3353-3461 | with an initialised queue, one message at an endpoint is one arrival at its reorder buffer, call by call, whatever the messages do to the endpoint |
| Delivery.FlightHandledInOrder | nrf51/external/tinydtls-0.8.1/dtls.c:3353-3461 | a flight that is consumed when it arrives in order is handled in order and once each however it arrives, and the endpoint ends up exactly as if the handlers had been called one after the other |
| Delivery.ReorderingDoesNotShow | nrf51/external/tinydtls-0.8.1/dtls.c:3353-3461 | any arrival order with any duplicates leaves the same endpoint as the flight in order |
| Delivery.PartialFlight | nrf51/external/tinydtls-0.8.1/dtls.c:3353-3461 | with messages missing: the endpoint after the ones that came without a gap, and exactly the later arrivals waiting |
| Delivery.HandledInOrder | nrf51/external/tinydtls-0.8.1/dtls.c:3353-3461 | for any arrivals, also conflicting ones, each consumed in its turn: first copies handled in order, once each, up to the first one missing |
| Delivery.EarlyStoredExactly | nrf51/external/tinydtls-0.8.1/dtls.c:3391-3427 | an early message that is not there yet is added to the reorder queue if and only if it has at most 200 octets and the queue has been initialised; otherwise the queue stays as it is |
| Delivery.WithoutQueueByRenegotiation | nrf51/external/tinydtls-0.8.1/dtls.c:2956-2990 | in every run, a handshake without a queue was begun by dtls_renegotiate on an established connection |
| Delivery.SwappedFlightLost | nrf51/external/tinydtls-0.8.1/dtls.c:3391-3427 | without a queue, of two messages swapped only the first is handled |
| Witness.EarlyMessageLost | nrf51/external/tinydtls-0.8.1/dtls.c:2968-2975 | a run: a client connects, renegotiates, and loses the first message that comes early |
| Connection.Peer.Prepare | nrf51/external/tinydtls-0.8.1/dtls.c:1408-1425 | the record built in a buffer of DTLS_MAX_BUF octets, and whether the octets behind it have been written to: exactly for encrypted payloads of 172 to 179 octets |
| Connection.Peer.SendMulti | nrf51/external/tinydtls-0.8.1/dtls.c:1408-1484 | a record for the slot in use is built, whatever its length, and offered to `write`; counter, result and octets |
| Connection.Peer.SendHandshake | nrf51/external/tinydtls-0.8.1/dtls.c:1324-1360 | header with mseq_s, transcript, message counter, record |
| Wire.HandshakeOctets | nrf51/external/tinydtls-0.8.1/dtls.c:425-460 | the twelve octets in front of every message: type, length, number, fragment offset 0, fragment length; counting and hashing |
| Wire.ReportOctets | nrf51/external/tinydtls-0.8.1/dtls.c:3566-3592 | which errors are reported, and as which two octets |
| Connection.Peer.CalculateKeyBlock | nrf51/external/tinydtls-0.8.1/dtls.c:600-700 | fresh slot 1 one epoch on; pre-master, master secret and key block from the shared storage, which then holds the master secret; or the error. Octet by octet: the master secret over "master secret", client and server random, the key block over "key expansion", server and client random |
| Connection.Peer.SendFinished | nrf51/external/tinydtls-0.8.1/dtls.c:2277-2306 | a Finished under the PRF of the transcript and the stored master secret |
| Wire.FinishedOctets | nrf51/external/tinydtls-0.8.1/dtls.c:2277-2304 | the Finished message in octets, for the sender's own label |
| Connection.Peer.CheckFinished | nrf51/external/tinydtls-0.8.1/dtls.c:1105-1155 | 0 exactly for the twelve octets expanded from the master secret over the other side's label and the hash of the own transcript; nothing changes |
| Connection.Peer.CheckServerHello | nrf51/external/tinydtls-0.8.1/dtls.c:2460-2527 | transcript, server random, cipher and result for every message, well formed or not |
| Connection.Peer.UpdateParameters | nrf51/external/tinydtls-0.8.1/dtls.c:901-1000 | client random, cipher, compression and result for every ClientHello |
| Connection.Peer.OnClientHello | nrf51/external/tinydtls-0.8.1/dtls.c:3215-3313 | cookie exchange, new peer or renegotiation, the server's flight, next state |
| Connection.Peer.OnFinished | nrf51/external/tinydtls-0.8.1/dtls.c:3132-3169 | Finished accepted or refused; the server's ChangeCipherSpec, switch and Finished; end of the handshake |
| Connection.Peer.CheckServerHelloDone | nrf51/external/tinydtls-0.8.1/dtls.c:2804-2875 | key exchange, key calculation, ChangeCipherSpec, switch and Finished of the client, up to the first error |
| Connection.Peer.HandleHandshakeMsg | nrf51/external/tinydtls-0.8.1/dtls.c:2992-3351 | every message type in every state: new state, handshake, slots, records written, result |
| Machine.MessagesMove | nrf51/external/tinydtls-0.8.1/dtls.c:2992-3347 | for every message at an endpoint in a handshake: one that is not due changes nothing and is answered with unexpected_message; one that is due leads to the state of section 7.3 of RFC 5246 |
| Flights.ServerFlight | nrf51/external/tinydtls-0.8.1/dtls.c:2073-2154 | the server's flight under either suite: which messages, with which bodies, in which order, numbered on and hashed |
| Flights.HelloAnswered | nrf51/external/tinydtls-0.8.1/dtls.c:3215-3313 | an accepted ClientHello: the transcript is it and the messages of the flight, and nothing else |
| Flights.ResponseSaid | nrf51/external/tinydtls-0.8.1/dtls.c:2804-2850 | the client's flight: certificate if one is asked for, key exchange, proof |
| Flights.HelloDoneAnswered | nrf51/external/tinydtls-0.8.1/dtls.c:2804-2875 | a ServerHelloDone: client's flight, derivation, ChangeCipherSpec, and a Finished under the new keys over the transcript of everything before it |
| Flights.FinishedAnswered | nrf51/external/tinydtls-0.8.1/dtls.c:3132-3169 | a client's Finished: it is hashed, and ChangeCipherSpec and the server's Finished go out, over a transcript that ends with it |
| Flights.Heard | nrf51/external/tinydtls-0.8.1/dtls.c:1071-1082 | the messages that are not answered are hashed as they came, and nothing is sent |
| Connection.Peer.DrainQueue | nrf51/external/tinydtls-0.8.1/dtls.c:3434-3457 | the two nested loops over the reorder queue terminate and do what the recursive drain does |
| Connection.Peer.HandleHandshake | nrf51/external/tinydtls-0.8.1/dtls.c:3353-3461 | message sequence numbers: ignored, stored, or handled together with what was waiting |
| Connection.Peer.HandleCcs | nrf51/external/tinydtls-0.8.1/dtls.c:3463-3496 | ChangeCipherSpec in the one state that expects it; the server's key calculation |
| Connection.Peer.HandleAlert | nrf51/external/tinydtls-0.8.1/dtls.c:3502-3564 | alerts that close and free the peer, and those that do not |
| Machine.AlertsMove | nrf51/external/tinydtls-0.8.1/dtls.c:3502-3552 | which alerts free the peer, and that close_notify is answered once |
| Machine.ChangeFails | nrf51/external/tinydtls-0.8.1/dtls.c:3655-3666 | a ChangeCipherSpec that fails: which alert goes out before the peer is freed |
| Connection.Peer.ReportError | nrf51/external/tinydtls-0.8.1/dtls.c:3566-3592 | which codes become an alert and close the connection |
| Connection.Peer.HandleRecord | nrf51/external/tinydtls-0.8.1/dtls.c:3618-3737 | decryption by epoch, freeing of the older slot, dispatch by content type and epoch; a record that does not open under a slot of its epoch is dropped with nothing but the clock changed, or ends the handshake with one alert |
| Connection.Peer.HandleMessage | nrf51/external/tinydtls-0.8.1/dtls.c:3597-3744 | the loop over a datagram, decrypting in place, ends and equals its recursive description, up to the record that makes the peer known; a datagram whose first record does not open is dropped whole |
| Connection.Peer.Renegotiate | nrf51/external/tinydtls-0.8.1/dtls.c:2956-2990 | a new handshake on an established connection, by either role, its reorder queue left uninitialised |
| Machine.RenegotiateMoves | nrf51/external/tinydtls-0.8.1/dtls.c:2956-2990 | the message of either role in octets, its number, and the state that follows |
| Connection.Peer.Connect | nrf51/external/tinydtls-0.8.1/dtls.c:3812-3873 | a new client peer and its first ClientHello, or a renegotiation |
| Machine.ConnectMoves | nrf51/external/tinydtls-0.8.1/dtls.c:3812-3873 | the first ClientHello in octets, and the state of the new peer |
| Connection.Peer.Retransmit | nrf51/external/tinydtls-0.8.1/dtls.c:3877-3921 | an old message goes out under the slot of its epoch, with a new sequence number |
| Machine.ResendMoves | nrf51/external/tinydtls-0.8.1/dtls.c:3877-3921 | slot, number and octets of what goes out again |
| Connection.Peer.Write | nrf51/external/tinydtls-0.8.1/dtls.c:237-259 | application data on an established connection, a connection attempt without one |
| Machine.WriteMoves | nrf51/external/tinydtls-0.8.1/dtls.c:237-259 | record and result in each state |
| Connection.Peer.Close | nrf51/external/tinydtls-0.8.1/dtls.c:1495-1508 | close_notify, and the state of closing |
| Machine.CloseMoves | nrf51/external/tinydtls-0.8.1/dtls.c:1495-1508 | the alert in octets, state and result |
| Play.Play | nrf51/external/tinydtls-0.8.1/dtls.c:3597-3873 | the class through any sequence of datagrams and calls is the run of the specification; so its fields satisfy the order, storage, key and numbering theorems |
| Nonces.RunKeeps | nrf51/external/tinydtls-0.8.1/dtls.c:391-417 | over all runs: every record written is the protection of its payload, and numbered after all earlier records of the same object |
| Nonces.NoNumberRepeats | nrf51/external/tinydtls-0.8.1/dtls.c:1271-1290 | over all runs, with sends, retransmissions, key calculations and switches: two records of one security-parameters object below 2^48 never carry the same epoch and sequence octets |
| Nonces.RunInOctets | nrf51/external/tinydtls-0.8.1/dtls.c:1181-1322 | over all runs, every record written has the form of Wire.ProtectOctets |
| Order.RunOrdered | nrf51/external/tinydtls-0.8.1/dtls.c:2992-3496 | the invariant of every run, from any endpoint in order: how far a handshake is in each state, whose state it is, and what the shared storage holds |
| Order.ConnectedIsComplete | nrf51/external/tinydtls-0.8.1/dtls.c:3132-3169 | in every run: CONNECTED only after hellos, key exchange, one key derivation from the exchanged random values, ChangeCipherSpec and a Finished that is the PRF of the own transcript, if the handshake completed last began with a hello meant for this role. In octets: master secret, the Finished sent and the Finished accepted as HMACs over the strings of sections 8.1 and 7.4.9 of RFC 5246 |
| Order.StorageIsLawful | nrf51/external/tinydtls-0.8.1/crypto.h:116-123 | in every run, at every moment of such a handshake: key calculation reads the exchanged random values, the Finished functions read the master secret, whose octets are given |
| Order.CalculateGood | nrf51/external/tinydtls-0.8.1/dtls.c:671-692 | one derivation turns random values into the master secret; a failing one leaves them |
| Crossing.CrossedHelloExactly | nrf51/external/tinydtls-0.8.1/dtls.c:3215-3338 | on an established connection of either suite, for every acceptable hello and callbacks that succeed: some run from there ends connected without a whole handshake, or with key derivation reading a master secret, if and only if the hello was meant for the other role and is a ClientHello that no certificate is demanded after, or a HelloRequest at a host that can be offered a pre-shared key |
| Crossing.ClientLedBack | nrf51/external/tinydtls-0.8.1/dtls.c:3476-3493 | a client that took a ClientHello is connected again after three records, with no callback asked and no key derived |
| Crossing.ServerMisled | nrf51/external/tinydtls-0.8.1/dtls.c:3463-3496 | a server that took a HelloRequest derives keys twice in one handshake, the second time from the master secret |
| Witness.ClientRunBreaks | nrf51/external/tinydtls-0.8.1/dtls.c:3215-3313 | a run from the beginning to CONNECTED as client without a whole handshake |
| Witness.ServerRunBreaks | nrf51/external/tinydtls-0.8.1/dtls.c:3315-3338 | a run from the beginning to a server whose second derivation reads its master secret |
| Witness.UnreportedRunBreaks | nrf51/external/tinydtls-0.8.1/dtls.c:3566-3592 | a run in which `write` fails once with an unreported code and the master secret is read as random values |
| Keys.RunKept | nrf51/external/tinydtls-0.8.1/peer.h:84-113 | the invariant of every run of what the two slots hold: the keys of the handshake at hand or completed last, and when a slot is empty |
| Keys.KeyedExactly | nrf51/external/tinydtls-0.8.1/dtls.c:3132-3169 | in every run, an established connection whose last handshake began with a hello meant for its role uses the keys derived in it if and only if it is not a server's handshake begun in epoch 65535; octet i of the key block is octet i mod 32 of an HMAC under that handshake's master secret, over "key expansion", server and client random |
| Keys.SlotEmptyExactly | nrf51/external/tinydtls-0.8.1/peer.h:96-113 | in every run, slot 0 of an established connection is empty if and only if it is a server whose last handshake was begun in epoch 65535; a client's never is |
| Wrap.FinishedArrives | nrf51/external/tinydtls-0.8.1/dtls.c:2877-2946 | the client's Finished under the new keys: they become those of the connection, or, after epoch 65535, decryption frees them and slot 0 is left empty |
| Wrap.WritesInTheClear | nrf51/external/tinydtls-0.8.1/dtls.c:1408-1484 | with slot 0 empty, application data goes out as plain records with number 0 |
| Wrap.Renegotiated | nrf51/external/tinydtls-0.8.1/dtls.c:3215-3344 | four records from the client renegotiate a server's connection into the next epoch, or, after epoch 65535, into one with nothing in slot 0 |
| Witness.WrappedServerWritesInTheClear | nrf51/external/tinydtls-0.8.1/dtls.c:237-259 | a run from the beginning: a server renegotiates through all epochs, once more, and writes any data unencrypted |
| Transport.Carried | nrf51/external/tinydtls-0.8.1/dtls.c:3597-3744 | a record one side wrote reaches the other, alone in a datagram, as the payload it was made from |
| TwoParty.SameDerivation | nrf51/external/tinydtls-0.8.1/dtls.c:600-700 | both sides derive the same master secret and key block |
| TwoParty.CookieFlights | nrf51/external/tinydtls-0.8.1/dtls.c:2530-2549 | flights 1 to 3: challenge and echo, with no state at the server |
| TwoParty.KeyFlights | nrf51/external/tinydtls-0.8.1/dtls.c:2073-2154 | flights 4 and 5: the server's two or three messages, and the client's three records |
| TwoParty.FinishedFlights | nrf51/external/tinydtls-0.8.1/dtls.c:3132-3169 | flights 6 and 7: each Finished reaches and satisfies the other side |
| TwoParty.HandshakeCompletes | nrf51/external/tinydtls-0.8.1/dtls.c:2992-3496 | completeness: for all random values, secrets, keys of at most 18 octets, identities and hints, both sides reach CONNECTED with equal keys, epochs and transcripts and matching message numbers, each Finished accepted (sections 4.2.4 and 4.2.6 of RFC 6347); cookie, master secret, key block, both transcripts and both Finished are given octet by octet |
| Witness.ConnectedByRuns | nrf51/external/tinydtls-0.8.1/dtls.c:2992-3496 | the exchange is one run of a client and one of a server, both from the beginning, ending connected under the same keys |

## Left out

- Order.ConnectedIsComplete: callbacks fail with -1 or an alert code, and `write` takes nothing, a whole record, or at least 29 octets of one; the handshake completed last began with a hello meant for this role. `Witness.UnreportedRunBreaks` and `Crossing.CrossedHelloExactly` show what each restriction is for. Other handshakes, epochs and peers do not matter.
- Order.StorageIsLawful: the same, for the handshake at hand.
- Authentic.MovedBySealed: what a slot without cipher reads is not authenticated, so the slots must have keys.
- ExtensionList.AcceptedExactly: lists of curves of odd length and empty certificate types, for which the code reads behind a body; `Hello.CheckTlsExtension` covers them.
- Keys.KeyedExactly: the same, for the handshake completed last.
- Crossing.CrossedHelloExactly: all callbacks succeed, with keys of at most 18 octets and bodies that fit into a record; a handshake pending on the connection has nothing queued, and the hello is its next message.
- TwoParty.HandshakeCompletes: the client does not offer ECDHE-ECDSA, as in the shipped build (tinydtls.h:37-38).
- Nonces.NoNumberRepeats: retransmissions are of any message in any epoch at any time, which is more than the queue would do.
- Delivery.FlightHandledInOrder: the messages are at most DTLS_MAX_BUF octets long, because longer ones are not buffered; each is consumed when it arrives in order; and the queue has been initialised, as `Delivery.EarlyStoredExactly` requires.
- Delivery.EarlyStoredExactly: without a queue the code follows a null pointer; the model does not store the message, and what else then happens is not modelled.
- Hello.PickCipher: what a list of odd length meets behind its end is an input.
- Signature.ElementRoundTrip: 24 octets stand in front of the element, so that the slice of a short first integer lies in the buffer.
- Record.PrepareRecord: where the code would write behind the buffer, the octets there are not modelled.
- Connection.Peer.HandleMessage: records behind the one that makes a peer known, in the same datagram. There dtls_handle_message goes on with its old, empty pointer, so a second ClientHello would make a second peer for the same address, hidden behind the first until that is removed.
- Bodies of the ECDHE messages, their checks, and the elliptic-curve operations: outcomes and bodies are inputs; only the states they lead to are modelled. The signature element is modelled by itself.
- Allocation failures, other than those of P_hash: an object that is asked for is there.
- The retransmission queue as part of an endpoint: Retransmit models it by itself, and an endpoint may retransmit anything. A node of a destroyed peer is not followed.
- A ChangeCipherSpec without a peer: the code reads through a null pointer before it looks; the model ignores the record.
- Slot 0 being empty (`Keys.SlotEmptyExactly`): a handshake record then makes the code read an epoch through a null pointer; the model reads 0 and drops the record.
- `read` and `event` callbacks, and several remote addresses at once: the peers of one context share nothing that is modelled.
- Memory behind the send buffer, the static buffers themselves, and the memory layout of the structures.
- DTLS_CHECK_CONTENTTYPE, Contiki, pthread locking, uthash, logging, clock and random sources, `dtls_mac`, and the nRF51 board and register files.
