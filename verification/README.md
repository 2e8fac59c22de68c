# A verified model of the modvpn client

This project models the parts of the modvpn VPN client that carry its hardest logic, and proves what they do.

* **X25519** (`Curve25519.java`): numbers modulo 2^255 - 19 on ten 26-bit limbs, the Montgomery ladder and the function
  X25519. `ModArith`, `JavaInt` and `Limbs` hold the arithmetic; `Rfc7748` (in `Ladder.dfy`) is RFC 7748 on integers;
  `LadderLaws` says what that ladder computes; `Curve25519Arithmetic` is the class with its limb buffers. Java's `int`,
  `long` and `byte` are newtypes, so that every operation is shown to stay in its width. `& 0x03FFFFFF`, `>>` and `<<`
  of limbs are remainder, quotient and product by powers of two (`JavaInt.AndLow` gives the reason); the masks of `cswap`
  and `reduceQuick` are bitwise.
* **Key texts** (`Key.java`): the branch-free base64 and hexadecimal codecs on bit vectors (`KeyCodec`), against the
  encodings of RFC 4648.
* **The daemon's session protocol** (`modvpn-daemon`): the table of sessions (`VpnSession`), the reclaimer (`Reclaimer`),
  the event loop (`Daemon`), the polling watcher (`Watcher`), and every run of them together (`DaemonRuns`): commands,
  server updates, tunnel events, end-session tasks, reclaimer passes and restarts in any interleaving. A connect is two
  steps there, the row and the server's answer, so that a restart may fall between them. `DaemonLaws` says of every
  output, status and row which events cause it. `WatcherRuns` puts the polls of a watcher among these events.
* **The Android orchestrator** (`VPNOrchestrator.kt` and the files around it): its states (`VpnState`), its handlers and
  the tunnel handle (`Orchestrator`), every run (`OrchestratorRuns`), which actions cause its outputs and what becomes of
  each request (`OrchestratorLaws`), and what its watcher hands on (`SessionWatcher`).
* **wg-quick configurations** (`com.wireguard.config`): text (`WgText`), parsing (`WgConfig`), names of applications and
  search domains, which may be any texts (`WgNames`, `WgDomains`, `WgParsed`), which texts are configurations and with
  what error the others fail (`WgLaws`), printing and the round trip (`WgRoundTrip`), and keys as leaves (`WgKeys`).
* **Recent locations** (`location_storage.rs`): the two-row table (`RecentLocations`).

Code that updates its objects step by step is a class here whose methods are proved equal to functions on values; the
results about runs are about those functions.

## Assumptions

* Database calls succeed; a request id drawn at random has not been drawn before; the server grants and reports on the
  request it was asked about. But for a connect, each event of the daemon is one step, and so is each handler of the
  orchestrator. A query for one row of several may find any of them.
* The wall clock, the answers of the server, of the database's row order, of the operating system's permission check and
  of `wgTurnOn`, and the listeners that cannot be reached are parameters, universally quantified.
* Messages may reach the Android orchestrator at any time, with any content. Each result about its runs names the one
  kind of message that breaks it. That cancelling a session drops its messages that have not been handled yet is part
  of `Orderly` only; `StaleResponse` shows a run that is not orderly.
* Leaf texts of a configuration that is printed (addresses, networks, endpoints, keys) parse back to themselves and hold
  no whitespace, comma or `#`; for keys this is proved (`GoodKeysExact`). Names of applications and search domains are
  any texts.
* Fermat's theorem for the number at hand is a hypothesis of the two lemmas that divide.

## Where the code and its documentation differ

* `eval` says that its two trial subtractions reduce every value up to 2^256 - 1. They change nothing for the nineteen
  values from 2^256 - 19 up (`TrialSubtractionsReduce`), and the ladder's first subtraction then takes 19 too much off
  (`Eval`, `FirstOperations`).
* `eval` does not mask bit 255 of the public key as RFC 7748 asks: a set bit adds 19 to the coordinate (`Eval`).
* `fromBase64` and `fromHex` accept some texts with characters above U+00FF (`WideCharacterAccepted`, `WideHexAccepted`).
  Otherwise they accept exactly the encodings: an accepted text is the encoding of the key that comes back if and only
  if none of its characters is above U+00FF (`FromBase64`, `DeparturesExact`, `FromHex`).
* `tunnel.rs` builds the tunnel's parameters from any row of the table, also one marked for deletion. That any row will
  do holds if and only if no row is marked (`TunnelServerExact`, `TunnelMayFindMarkedRow`).
* `storage.rs` panics when the tunnel reports Disconnecting, no row is live and the status is not Disconnecting, and in
  no other case (`PanicExact`); it can happen (`PanicReached`).
* A row whose request was not answered before the daemon went down is marked at the next start and never removed: the
  reclaimer finds a marked row if and only if it has a uuid (`ReclaimableExact`, `RemovableExact`, `CutOff`,
  `LostForever`).
* The tunnel that was told to connect is told to disconnect by a disconnect and by its own failure only. When the server
  reports the live session failed or ended, or the tunnel reports a transition that shows Disconnected or Disconnecting,
  or after a restart, the status has gone back and the last command is still Connect (`InStepExact`).
* A negative MTU is reported as a fault of the listen port (`InterfaceFaults`).
* A section header may spell its i as the dotted capital or the dotless small letter (`InterfaceHeaderExact`).
* A session that the server reports as ended stays on the Android user's screen until disconnected (`EndedIsIgnored`,
  `EndedStays`).
* The builders of a configuration take any text as a search domain and as the name of an application, but not each comes
  back when the configuration is printed and parsed. Search domains of an interface without a DNS server are not
  printed; one that is an address comes back as a server (`AddressDomain`), and one that is neither an address nor a
  host name is an error. A text that holds a comma, a comment sign or an end of line or has whitespace at its ends does
  not come back, nor one that is the last of its line and empty or ends in a control character. A configuration comes
  back whole if and only if it has none of these (`RoundTrip`).

## Model

| member | source | states |
|---|---|---|
| JavaInt.AndLow | modvpn-android/app/src/main/java/com/wireguard/crypto/Curve25519.java:176 | masking with k ones keeps the remainder modulo 2^k, for negative values too, by the two's complement definition of `&` |
| Rfc7748.ScalarBit | modvpn-android/app/src/main/java/com/wireguard/crypto/Curve25519.java:238-288 | the bits the ladder's loop takes from signed bytes, adjusted one byte at a time, are the bits of the clamped scalar of RFC 7748 |
| LadderLaws.ClampExact | modvpn-android/app/src/main/java/com/wireguard/crypto/Curve25519.java:238-293 | the clamped scalar is the number of its 32 bytes with its three lowest bits cleared, bit 254 set and bit 255 cleared: a multiple of 8 from 2^254 to below 2^255 |
| Rfc7748.LittleEndianDigits | modvpn-android/app/src/main/java/com/wireguard/crypto/Curve25519.java:146-154 | bytes that are the successive low bytes of n make up n again |
| Rfc7748.LittleEndianInjective | modvpn-android/app/src/main/java/com/wireguard/crypto/Curve25519.java:109-154 | bytes are determined by their value, so that unpacking and packing, which both keep the value, undo each other |
| Limbs.ValInjective | modvpn-android/app/src/main/java/com/wireguard/crypto/Curve25519.java:109-154 | limbs below 2^26 are determined by the value they represent |
| Curve25519Arithmetic.Curve25519.Products | modvpn-android/app/src/main/java/com/wireguard/crypto/Curve25519.java:304-315 | the column sums of limb products represent the exact product and no sum leaves the range of a long |
| Curve25519Arithmetic.Curve25519.CarryProduct | modvpn-android/app/src/main/java/com/wireguard/crypto/Curve25519.java:317-323 | the twenty 26-bit words made of the column sums represent the same number; nothing is carried out of the last |
| Curve25519Arithmetic.Curve25519.Mul | modvpn-android/app/src/main/java/com/wireguard/crypto/Curve25519.java:303-327 | the result is the canonical x*y mod p for canonical x and y, whichever of the three arrays are the same |
| Curve25519Arithmetic.Curve25519.Reduce | modvpn-android/app/src/main/java/com/wireguard/crypto/Curve25519.java:417-460 | every value below 2^510 that the limbs read can hold is reduced modulo p; both the long path and the one-high-limb path |
| Curve25519Arithmetic.ReduceStep | modvpn-android/app/src/main/java/com/wireguard/crypto/Curve25519.java:425-431 | limb is at most 31 before each addition and the sums stay below 2^31; the word moved and the two carries keep the value |
| Curve25519Arithmetic.FoldTwice | modvpn-android/app/src/main/java/com/wireguard/crypto/Curve25519.java:422-454 | the limb and both carries left after the folding loops are zero and the number left is below 2^255 + 361 and congruent to the input |
| Curve25519Arithmetic.Curve25519.ReduceQuick | modvpn-android/app/src/main/java/com/wireguard/crypto/Curve25519.java:468-489 | the masked selection leaves v or v + 19 - 2^255 by bit 255 of v + 19, for every v on ten limbs |
| Curve25519Arithmetic.QuickReduceOnce | modvpn-android/app/src/main/java/com/wireguard/crypto/Curve25519.java:462-489 | one trial subtraction reduces every v below 2p |
| Curve25519Arithmetic.TrialSubtractionsReduce | modvpn-android/app/src/main/java/com/wireguard/crypto/Curve25519.java:122-126 | two trial subtractions reduce v below 2^256 if and only if v + 19 is below 2^256; otherwise they leave v as it is |
| Curve25519Arithmetic.Curve25519.MulA24 | modvpn-android/app/src/main/java/com/wireguard/crypto/Curve25519.java:335-345 | the result is the canonical 121665*x mod p for canonical x |
| Curve25519Arithmetic.Curve25519.Add | modvpn-android/app/src/main/java/com/wireguard/crypto/Curve25519.java:200-208 | the result is the canonical x+y mod p for canonical x and y, aliased or not; for any ten limbs it is Sum: the carry out of the top limb is dropped and 19 is tried once |
| Curve25519Arithmetic.Curve25519.Sub | modvpn-android/app/src/main/java/com/wireguard/crypto/Curve25519.java:168-191 | the result is the canonical x-y mod p for canonical x and y, aliased or not; for any ten limbs it is Difference: a borrow takes 19 off and 255 bits are kept |
| Curve25519Arithmetic.SubValue | modvpn-android/app/src/main/java/com/wireguard/crypto/Curve25519.java:179-190 | a borrow out of the top limb followed by subtracting 19 and keeping 255 bits is Difference, for any two ten-limb numbers |
| Curve25519Arithmetic.DifferenceExact | modvpn-android/app/src/main/java/com/wireguard/crypto/Curve25519.java:168-191 | that is congruent to x - y modulo p if and only if -p <= x - y < 2^255 |
| Curve25519Arithmetic.FirstOperations | modvpn-android/app/src/main/java/com/wireguard/crypto/Curve25519.java:122-191 | the nineteen coordinates from 2^256 - 19 up are not reduced; adding 1 to one is right and subtracting 1 misses the residue by 19 |
| Curve25519Arithmetic.Curve25519.Cswap | modvpn-android/app/src/main/java/com/wireguard/crypto/Curve25519.java:83-90 | the two arrays are exchanged if select is 1 and left alone if it is 0 |
| Curve25519Arithmetic.SwapStep | modvpn-android/app/src/main/java/com/wireguard/crypto/Curve25519.java:83-90 | exclusive or with the masked difference exchanges two words or keeps both |
| Curve25519Arithmetic.Curve25519.Pow250 | modvpn-android/app/src/main/java/com/wireguard/crypto/Curve25519.java:353-383 | the result is x^(2^250 - 1) mod p, by the exponents of the nested squaring loops |
| Curve25519Arithmetic.Curve25519.Recip | modvpn-android/app/src/main/java/com/wireguard/crypto/Curve25519.java:391-407 | the result is x^(p - 2) mod p for every canonical x |
| LadderLaws.PowerIsInverse | modvpn-android/app/src/main/java/com/wireguard/crypto/Curve25519.java:385-407 | where z^(n + 1) is 1 modulo m, z^n is the inverse of z; for m = p and n = p - 2 the hypothesis is Fermat's theorem for z |
| Curve25519Arithmetic.Curve25519.LadderStep | modvpn-android/app/src/main/java/com/wireguard/crypto/Curve25519.java:255-273 | the eighteen calls of an iteration compute the step of section 5 of RFC 7748 in the buffers, in place |
| LadderLaws.StepFormulas | modvpn-android/app/src/main/java/com/wireguard/crypto/Curve25519.java:255-273 | that step is the Montgomery doubling and the differential addition for A = 486662, modulo p |
| Curve25519Arithmetic.Curve25519.EvalCurve | modvpn-android/app/src/main/java/com/wireguard/crypto/Curve25519.java:238-294 | the loop ends with the points of the ladder of RFC 7748 over bits 254..0 of the clamped scalar; 8*sposn + sbit decreases; its first addition and subtraction are of the input point, whatever that is |
| LadderLaws.LadderIsSimple | modvpn-android/app/src/main/java/com/wireguard/crypto/Curve25519.java:246-293 | the ladder with the deferred swap equals the one that swaps in, steps and swaps back |
| LadderLaws.LadderRound | modvpn-android/app/src/main/java/com/wireguard/crypto/Curve25519.java:246-273 | every round doubles one point and adds the two, as the bit says |
| LadderLaws.LadderMultiplies | modvpn-android/app/src/main/java/com/wireguard/crypto/Curve25519.java:238-293 | whatever relation goes with doubling and with adding neighbours in these formulas, and holds of none and one times the input, holds of the scalar and the first point of the ladder and of the next multiple and the second: the ladder multiplies by its scalar |
| LadderLaws.X25519Reduces | modvpn-android/app/src/main/java/com/wireguard/crypto/Curve25519.java:122-126 | a coordinate and the same reduced modulo p have the same result |
| Curve25519Arithmetic.Curve25519.Unpack | modvpn-android/app/src/main/java/com/wireguard/crypto/Curve25519.java:108-120 | the limbs hold the little-endian value of the bytes |
| Curve25519Arithmetic.UnpackAcross | modvpn-android/app/src/main/java/com/wireguard/crypto/Curve25519.java:115-119 | a byte across two limbs loses nothing although its shift wraps around the int |
| Curve25519Arithmetic.Curve25519.Pack | modvpn-android/app/src/main/java/com/wireguard/crypto/Curve25519.java:146-154 | the 32 bytes hold the value of the limbs, the other bytes stay |
| Curve25519Arithmetic.PackAcross | modvpn-android/app/src/main/java/com/wireguard/crypto/Curve25519.java:149-153 | the byte cut from two limbs is the byte of the value at that place |
| Curve25519Arithmetic.Curve25519.Eval | modvpn-android/app/src/main/java/com/wireguard/crypto/Curve25519.java:101-159 | the bytes written are X25519 of the clamped scalar and of 9 for a null key, of the decoded coordinate for a key with bit 255 clear, and of that plus 19 for one with the bit set, short of the nineteen highest values; for these the first subtraction of the ladder misses the residue by 19 |
| LadderLaws.UnmaskedCoordinate | modvpn-android/app/src/main/java/com/wireguard/crypto/Curve25519.java:107-126 | reading all 256 bits gives the coordinate RFC 7748 decodes if and only if bit 255 is clear |
| LadderLaws.UnmaskedResult | modvpn-android/app/src/main/java/com/wireguard/crypto/Curve25519.java:107-126 | a set bit 255 amounts to adding 19 to the decoded coordinate |
| LadderLaws.ResultIsAffine | modvpn-android/app/src/main/java/com/wireguard/crypto/Curve25519.java:142-144 | under Fermat's theorem the result is the affine coordinate of the ladder's first point |
| KeyCodec.SextetExact | modvpn-android/app/src/main/java/com/wireguard/crypto/Key.java:48-55 | the range arithmetic gives each of the 64 symbols its value and -1 to every other character below 256 |
| KeyCodec.SymbolExact | modvpn-android/app/src/main/java/com/wireguard/crypto/Key.java:76-82 | the arithmetic of the encoder gives the symbol of section 4 of RFC 4648 |
| KeyCodec.DecodeBase64 | modvpn-android/app/src/main/java/com/wireguard/crypto/Key.java:45-58 | the loop combines the four sextets of a chunk, a fault making the result negative |
| KeyCodec.EncodeBase64 | modvpn-android/app/src/main/java/com/wireguard/crypto/Key.java:68-83 | three signed bytes become the four symbols of RFC 4648, the rest of the array stays |
| KeyCodec.ToBase64 | modvpn-android/app/src/main/java/com/wireguard/crypto/Key.java:240-253 | the text is the RFC 4648 encoding of the key |
| KeyCodec.TestVectors | modvpn-android/app/src/main/java/com/wireguard/crypto/Key.java:240-253 | the encoding these are proved against gives the test vectors of section 10 of RFC 4648 |
| KeyCodec.FromBase64 | modvpn-android/app/src/main/java/com/wireguard/crypto/Key.java:92-120 | accepted are exactly the texts of 43 characters with a sextet, the last with its two low bits clear, and a padding sign; an accepted text is the encoding of the result if and only if its characters are below 256; a rejected one encodes no key; with which error |
| KeyCodec.AcceptedExact | modvpn-android/app/src/main/java/com/wireguard/crypto/Key.java:92-120 | the flag gathered over chunks is clear if and only if each single character passes, for all characters of 16 bits |
| KeyCodec.DeparturesExact | modvpn-android/app/src/main/java/com/wireguard/crypto/Key.java:92-120 | a text is the encoding of some key if and only if it is accepted and its characters are below 256 |
| KeyCodec.Sound | modvpn-android/app/src/main/java/com/wireguard/crypto/Key.java:92-120 | bytes decoded from an accepted text of characters below 256 encode to that same text |
| KeyCodec.Complete | modvpn-android/app/src/main/java/com/wireguard/crypto/Key.java:92-120 | the encoding of every key is accepted and decodes to that key |
| KeyCodec.RoundTrip | modvpn-android/app/src/main/java/com/wireguard/crypto/Key.java:92-253 | fromBase64(toBase64(k)) is k for every key |
| KeyCodec.DecodesToOne | modvpn-android/app/src/main/java/com/wireguard/crypto/Key.java:96-115 | a text decodes to one key only |
| KeyCodec.WideCharacterAccepted | modvpn-android/app/src/main/java/com/wireguard/crypto/Key.java:48-55 | a text with U+022B in it is accepted although it is no encoding |
| KeyCodec.HexFaultExact | modvpn-android/app/src/main/java/com/wireguard/crypto/Key.java:157-162 | exactly which characters the hexadecimal arithmetic faults, for all of them: below 256 those that are no digit |
| KeyCodec.ToHex | modvpn-android/app/src/main/java/com/wireguard/crypto/Key.java:260-269 | the text is the lower-case encoding of section 8 of RFC 4648 |
| KeyCodec.FromHex | modvpn-android/app/src/main/java/com/wireguard/crypto/Key.java:142-178 | accepted are exactly the texts of 64 characters, each a hexadecimal digit or from 256 up outside 0x130-0x139; the result prints as the text in lower case if and only if its characters are below 256 |
| KeyCodec.HexPrints | modvpn-android/app/src/main/java/com/wireguard/crypto/Key.java:142-269 | the bytes decoded from an accepted text print as that text in lower case if and only if its characters are below 256 |
| KeyCodec.ParseThenPrint | modvpn-android/app/src/main/java/com/wireguard/crypto/Key.java:142-269 | fromHex followed by toHex gives the accepted text in lower case if and only if its characters are below 256; such texts are accepted exactly when they are 64 hexadecimal digits |
| KeyCodec.HexRoundTrip | modvpn-android/app/src/main/java/com/wireguard/crypto/Key.java:142-269 | fromHex(toHex(k)) is k for every key |
| KeyCodec.WideHexAccepted | modvpn-android/app/src/main/java/com/wireguard/crypto/Key.java:157-162 | a text of 64 characters that are no hexadecimal digits is accepted |
| VpnSession.VpnSessionStorage.NewSession | modvpn-daemon/src/vpn_session/storage.rs:82-106 | an unmarked row without session is added for the request, with the place but its estimate |
| VpnSession.VpnSessionStorage.EndSession | modvpn-daemon/src/vpn_session/storage.rs:108-145 | one unmarked row, if there is any, is marked; its session is returned if it has one |
| VpnSession.VpnSessionStorage.Reclaim | modvpn-daemon/src/vpn_session/storage.rs:147-162 | every row is marked and keeps all else |
| VpnSession.VpnSessionStorage.SessionsToReclaim | modvpn-daemon/src/vpn_session/storage.rs:164-183 | exactly the sessions of marked rows that have one, each once |
| VpnSession.VpnSessionStorage.UpdateOnAccepted | modvpn-daemon/src/vpn_session/storage.rs:185-201 | the row of the request, if any, gets the uuid and the status Accepted |
| VpnSession.VpnSessionStorage.Delete | modvpn-daemon/src/vpn_session/storage.rs:203-213 | the row of the request is removed and no other |
| VpnSession.VpnSessionStorage.UpdatedServerStatus | modvpn-daemon/src/vpn_session/storage.rs:249-347 | the new table, status and notification for each status, the row being live or not |
| VpnSession.ServerStatusIdempotent | modvpn-daemon/src/vpn_session/storage.rs:248-347 | the same update twice changes nothing more and never asks for another status or a notification |
| VpnSession.ServerStatusFrame | modvpn-daemon/src/vpn_session/storage.rs:257-347 | an update touches its own live row only, and removes it exactly when it says Failed or Ended |
| VpnSession.VpnSessionStorage.TunnelTransition | modvpn-daemon/src/vpn_session/storage.rs:355-475 | the outcome of every transition with and without a live row, panics included; which status that is in each case is StatusExact below |
| Reclaimer.Reclaimer.Reclaim | modvpn-daemon/src/vpn_session/reclaimer.rs:52-91 | a pass ends each session to reclaim once and deletes exactly the rows the server answered about |
| Reclaimer.ReclaimableExact | modvpn-daemon/src/vpn_session/storage.rs:164-183 | a marked row is among the sessions to reclaim if and only if it has a uuid |
| Reclaimer.RemovableExact | modvpn-daemon/src/vpn_session/reclaimer.rs:52-91 | a pass removes a row if and only if it is marked, has a uuid, and the server answers about it that the session has ended or with an error of its own; any other row stays as it is |
| Daemon.Daemon.constructor | modvpn-daemon/src/lib.rs:97-106 | a start marks every row of earlier runs and shows Disconnected |
| Daemon.Daemon.OnConnectInner | modvpn-daemon/src/daemon.rs:440-488 | refused in any status but Disconnected; else the row is added and, if the server denies, removed again with a notification |
| Daemon.Daemon.OnDisconnectInner | modvpn-daemon/src/daemon.rs:506-617 | the tunnel command, the end of the session and the status in that order; when the tunnel is told is DisconnectExact below |
| Daemon.Daemon.HandleVpnSessionStatus | modvpn-daemon/src/daemon.rs:341-371 | table, notification, status and tunnel command, in that order; when the tunnel is told is ConnectExact below |
| Daemon.Daemon.HandleTunnelStateTransition | modvpn-daemon/src/daemon.rs:305-339 | call, command, notification, end of session and status in that order; a panic changes nothing |
| Daemon.DaemonState.UpdateStateOnDisconnect | modvpn-daemon/src/state.rs:38-53 | Disconnecting where the tunnel was in use or going down, Disconnected otherwise |
| DaemonLaws.OutputsExact | modvpn-daemon/src/daemon.rs:305-617 | all that an event adds in any safe world, in order, each output with its cause: calls, tunnel commands, notifications, the end of a session, the status |
| DaemonLaws.ConnectExact | modvpn-daemon/src/daemon.rs:341-371 | the tunnel is told to connect, once, if and only if the server of an unmarked row is reported ready |
| DaemonLaws.DisconnectExact | modvpn-daemon/src/daemon.rs:506-617 | it is told to disconnect, once and before the session is ended, if and only if a disconnect comes while the status is ServerReady, Connecting or Connected, or the tunnel fails |
| DaemonLaws.StatusExact | modvpn-daemon/src/vpn_session/storage.rs:249-475 | a status is taken on if and only if its cause is there: Connected from the tunnel's Connected with a live row, with that row's place and the time of the event, and so on for all eight |
| DaemonLaws.InStepExact | modvpn-daemon/src/daemon.rs:305-617 | while the last tunnel command is Connect the status is ServerReady, Connecting or Connected; an event keeps this if and only if the command is not Connect or the event is none of those named |
| DaemonLaws.RunInStep | modvpn-daemon/src/daemon.rs:247-617 | the same after every run without such an event |
| DaemonLaws.RunAnnounced | modvpn-daemon/src/daemon.rs:305-339 | in every run a status under way is the last one broadcast, and Connected was broadcast directly after the server was told of the client of a granted session |
| DaemonLaws.RowComesExact | modvpn-daemon/src/daemon.rs:440-488 | a row comes if and only if a connect comes while the status is Disconnected |
| DaemonLaws.RowGoesExact | modvpn-daemon/src/vpn_session/storage.rs:203-347 | a row goes if and only if its request is denied, its live session is reported failed or ended, or the server answers the call that ends it |
| DaemonLaws.RowMarkedExact | modvpn-daemon/src/vpn_session/storage.rs:108-162 | a live row is marked if and only if a disconnect or a failure of the tunnel finds it, or the daemon restarts |
| DaemonLaws.ReplyExact | modvpn-daemon/src/daemon.rs:440-504 | a connect is refused with the place under way in every status but Disconnected; else it is answered with the status it leads to |
| DaemonRuns.SafeStep | modvpn-daemon/src/vpn_session/storage.rs:82-347 | every event keeps: the rows are the sessions granted less those reported over and those settled, with their uuids, one request that waits for its answer and those whose answer was cut off; calls under way are about no live row |
| DaemonRuns.RunSafe | modvpn-daemon/src/daemon.rs:247-617 | the same over every run |
| DaemonRuns.NoneForgotten | modvpn-daemon/src/vpn_session/storage.rs:82-347 | in every run each granted session has its row, or was reported over, or the server answered an end call for it; every other row is of a request without answer; a marked row can be reclaimed if and only if its answer was not cut off by a restart |
| DaemonRuns.CutOff | modvpn-daemon/src/daemon.rs:440-488 | a run in which a restart between the row and the answer leaves a marked row without uuid that no pass finds or removes |
| DaemonRuns.LostForever | modvpn-daemon/src/vpn_session/storage.rs:147-183 | such a row is there, marked and without uuid, after every further run |
| DaemonRuns.ConnectInTwoSteps | modvpn-daemon/src/daemon.rs:440-488 | the two steps of a connect make what the event loop makes of it |
| DaemonRuns.TidyStep | modvpn-daemon/src/daemon.rs:305-617 | an event keeps the table and the status in agreement if and only if it is not the tunnel reporting Disconnected while a row is live |
| DaemonRuns.RunTidy | modvpn-daemon/src/daemon.rs:247-617 | agreement over every run without that event |
| DaemonRuns.OneLiveSession | modvpn-daemon/src/daemon.rs:440-617 | in every such run at most one row is unmarked, and while the status is Disconnected only that of the request that waits for its answer |
| DaemonRuns.SecondLiveExact | modvpn-daemon/src/daemon.rs:440-488 | whatever the status, an event makes a second row live if and only if it is a connect while the status is Disconnected and a row is live |
| DaemonRuns.RunOneLive | modvpn-daemon/src/daemon.rs:247-617 | at most one row is live after every run without such a connect, tunnels lost or not |
| DaemonRuns.LostTunnelBreaks | modvpn-daemon/src/vpn_session/storage.rs:377-379 | with that event two sessions can be live |
| DaemonRuns.PanicExact | modvpn-daemon/src/vpn_session/storage.rs:393-448 | in every safe state the event loop panics if and only if the tunnel reports Disconnecting while no row is live and the status is not Disconnecting; a Connected transition always finds its session |
| DaemonRuns.PanicTidy | modvpn-daemon/src/vpn_session/storage.rs:393-448 | where table and status agree this is while the status is Disconnected |
| DaemonRuns.PanicReached | modvpn-daemon/src/vpn_session/storage.rs:442-448 | a run in which it panics |
| DaemonRuns.MarksAreFinal | modvpn-daemon/src/vpn_session/storage.rs:108-162 | a marked row is never live again, in any run |
| DaemonRuns.QuietAfterEnd | modvpn-daemon/src/daemon.rs:341-371 | after a disconnect, a tunnel error or the end of the session, and until another is granted, the tunnel is never told to connect |
| DaemonRuns.EndedOnce | modvpn-daemon/src/daemon.rs:522-571 | in every run the event loop asks for the end of each session at most once, by the uuid the server gave it |
| DaemonRuns.RunLogKnown | modvpn-daemon/src/daemon.rs:522-607 | in every run calls name granted sessions only, by their uuids |
| DaemonRuns.RecoveryClears | modvpn-daemon/src/vpn_session/reclaimer.rs:52-91 | from any safe state a restart and one pass whose every call is answered leave exactly the rows of requests whose answer was cut off |
| DaemonRuns.PassIsReclaim | modvpn-daemon/src/vpn_session/reclaimer.rs:57-88 | a pass taken step by step, its answers in any order and nothing between them, leaves the rows that the reclaimer's loop leaves |
| DaemonRuns.TunnelServerExact | modvpn-daemon/src/tunnel.rs:27-31 | the query behind the tunnel's parameters finds the live row in every case if and only if no row is marked |
| DaemonRuns.TunnelGetsReadyServer | modvpn-daemon/src/tunnel.rs:54-79 | then the tunnel gets the server that was reported ready |
| DaemonRuns.TunnelMayFindMarkedRow | modvpn-daemon/src/tunnel.rs:27-31 | a run in which the tunnel is told to connect and may find a marked row without server |
| Watcher.Watcher.WatchEnded | modvpn-daemon/src/vpn_session/watcher.rs:31-90 | sends a status that differs from the last, ends at a final one or when it cannot send |
| Watcher.Watcher.Run | modvpn-daemon/src/vpn_session/watcher.rs:92-108 | what is sent is the polled statuses before a shutdown, without stutter, cut after the first final one; a prefix if the daemon stops receiving |
| Watcher.StutterlessExact | modvpn-daemon/src/vpn_session/watcher.rs:43-52 | no status is sent twice in a row, and each status polled is sent |
| Watcher.StutterDoesNotMatter | modvpn-daemon/src/vpn_session/watcher.rs:43-52 | with nothing between the polls, the daemon ends with the rows, status and notifications it would have had it been sent every poll |
| WatcherRuns.AbsorbedStep | modvpn-daemon/src/vpn_session/watcher.rs:43-52 | after any one event of the daemon a status that would have changed nothing still changes nothing if and only if the event is not one of those listed: what changes the status shown without ending this live session, another status of it, or the tunnel's Connected after Accepted |
| WatcherRuns.StutterInRuns | modvpn-daemon/src/vpn_session/watcher.rs:43-52 | a status that a poll brings again after any run of events that are none of those would change nothing if sent |
| Watcher.OneConnect | modvpn-daemon/src/vpn_session/watcher.rs:62-73 | of all that a watcher sends, exactly one tunnel Connect comes if its polls reach a ready server before another final status and the row is unmarked, and none otherwise |
| VpnState.UpdateMovesForward | modvpn-android/app/src/main/kotlin/app/upvpn/upvpn/service/VPNState.kt:126-195 | an update never lowers the progress, but for a failure, which disconnects |
| OrchestratorLaws.UpdateExact | modvpn-android/app/src/main/kotlin/app/upvpn/upvpn/service/VPNState.kt:126-212 | a status that is not behind takes a session to just the progress it reports, with its ids, the granted interface and, once ready, the configuration of the server reported; one level with the session changes nothing |
| OrchestratorLaws.ShownIsState | modvpn-android/app/src/main/kotlin/app/upvpn/upvpn/service/VPNState.kt:96-108 | what is shown has the name, the place and the time of the state |
| Orchestrator.VPNOrchestrator.OnConnect | modvpn-android/app/src/main/kotlin/app/upvpn/upvpn/service/VPNOrchestrator.kt:91-128 | what a connect does in each state and without permission |
| Orchestrator.VPNOrchestrator.OnConnectResponse | modvpn-android/app/src/main/kotlin/app/upvpn/upvpn/service/VPNOrchestrator.kt:130-162 | dropped when disconnecting or disconnected, else Accepted or Disconnected with a message |
| Orchestrator.VPNOrchestrator.OnVpnSessionUpdate | modvpn-android/app/src/main/kotlin/app/upvpn/upvpn/service/VPNOrchestrator.kt:164-208 | the new state and, for a ready server, the tunnel; without permission a disconnect |
| Orchestrator.VPNOrchestrator.TurnOnVPN | modvpn-android/app/src/main/kotlin/app/upvpn/upvpn/service/VPNOrchestrator.kt:211-237 | through Connecting to Connected, or down again after lost permission or a failure |
| Orchestrator.VPNOrchestrator.OnDisconnect | modvpn-android/app/src/main/kotlin/app/upvpn/upvpn/service/VPNOrchestrator.kt:250-281 | cancels, shows the new state, ends the session, turns the tunnel off, stops the service if idle; when each is done is DisconnectInOrder and EndCallsExact below |
| Orchestrator.VPNOrchestrator.OnRegisterListener | modvpn-android/app/src/main/kotlin/app/upvpn/upvpn/service/VPNOrchestrator.kt:325-341 | a new listener is sent the state and then its id, and kept if it got both |
| Orchestrator.VPNOrchestrator.DispatchEvent | modvpn-android/app/src/main/kotlin/app/upvpn/upvpn/service/VPNOrchestrator.kt:355-364 | every listener is sent the event and those not reached are forgotten |
| Orchestrator.VPNService.TurnOnVPN | modvpn-android/app/src/main/kotlin/app/upvpn/upvpn/service/VPNService.kt:112-136 | the handle becomes what wgTurnOn returned, negative values included; no handle without an interface |
| Orchestrator.VPNService.TurnOffVPN | modvpn-android/app/src/main/kotlin/app/upvpn/upvpn/service/VPNService.kt:138-143 | any handle but -1 is turned off, and the handle is -1 |
| OrchestratorLaws.DisconnectInOrder | modvpn-android/app/src/main/kotlin/app/upvpn/upvpn/service/VPNOrchestrator.kt:250-281 | in any state with a request: the request under way is cancelled, Disconnecting or Disconnected shown, that request ended on the server, and where a tunnel may be up it is turned off and Disconnected shown |
| OrchestratorLaws.TurnOnInOrder | modvpn-android/app/src/main/kotlin/app/upvpn/upvpn/service/VPNOrchestrator.kt:211-237 | Connecting, the tunnel with the configuration of the state, Connected with the time; or the message, and the session goes down |
| OrchestratorLaws.OutputsExact | modvpn-android/app/src/main/kotlin/app/upvpn/upvpn/service/VPNOrchestrator.kt:91-348 | how often an action makes each output other than a state shown, for all actions: a session is asked for, ended, the tunnel turned on and off, listeners told of a failure, in the cases named and no others |
| OrchestratorLaws.EndCallsExact | modvpn-android/app/src/main/kotlin/app/upvpn/upvpn/service/VPNOrchestrator.kt:164-281 | an action that takes a session down, be it a disconnect, the end of the service, lost permission or a tunnel that does not come up, ends its request, that one and once; no other action ends any |
| OrchestratorLaws.ConnectsExact | modvpn-android/app/src/main/kotlin/app/upvpn/upvpn/service/VPNOrchestrator.kt:164-237 | a session becomes connected if and only if its server is reported ready with the permissions there and the tunnel comes up; with that handle, time, request and configuration |
| OrchestratorLaws.NoneAbandoned | modvpn-android/app/src/main/kotlin/app/upvpn/upvpn/service/VPNOrchestrator.kt:91-281 | in every orderly run each request made is the one under way, or has been ended on the server, or was refused or reported failed by it |
| OrchestratorLaws.TunnelIsConfigured | modvpn-android/app/src/main/kotlin/app/upvpn/upvpn/service/VPNState.kt:199-226 | in every orderly run a connected session has the interface granted to its request and the endpoint and public key of the server reported ready to it, and its tunnel was turned on with these |
| OrchestratorLaws.HearsAll | modvpn-android/app/src/main/kotlin/app/upvpn/upvpn/service/VPNOrchestrator.kt:355-364 | over every run in which nobody registers, a listener that can be reached stays and is sent every state shown |
| OrchestratorLaws.RegisterExact | modvpn-android/app/src/main/kotlin/app/upvpn/upvpn/service/VPNOrchestrator.kt:325-341 | a new listener has a new id and stays if and only if both messages reach it |
| OrchestratorRuns.InvStep | modvpn-android/app/src/main/kotlin/app/upvpn/upvpn/service/VPNOrchestrator.kt:91-348 | a handler keeps each of the three invariants behind the results below if and only if its message does not do the harm named for it |
| OrchestratorRuns.TunnelStep | modvpn-android/app/src/main/kotlin/app/upvpn/upvpn/service/VPNOrchestrator.kt:130-237 | the tunnel of the handle stays the only one, and up just while Connected, if and only if no response and no failure is handled while Connected |
| OrchestratorRuns.ShownStep | modvpn-android/app/src/main/kotlin/app/upvpn/upvpn/service/VPNOrchestrator.kt:130-208 | shown progress does not fall if and only if no acceptance is handled past acceptance |
| OrchestratorRuns.EndsStep | modvpn-android/app/src/main/kotlin/app/upvpn/upvpn/service/VPNOrchestrator.kt:130-281 | a request is ended once and only if made, if and only if no message is taken for the session under way that is about a request never made or already ended |
| OrchestratorRuns.TunnelIffConnected | modvpn-android/app/src/main/kotlin/app/upvpn/upvpn/service/VPNOrchestrator.kt:164-281 | between the handlers of every run without a response or failure while Connected, exactly the tunnel of the handle is up while Connected, none otherwise, and no passing state survives |
| OrchestratorRuns.ProgressClimbs | modvpn-android/app/src/main/kotlin/app/upvpn/upvpn/service/VPNState.kt:27-195 | in every run without an acceptance past acceptance the progress listeners see never falls until the session goes down |
| OrchestratorRuns.EndedAtMostOnce | modvpn-android/app/src/main/kotlin/app/upvpn/upvpn/service/VPNState.kt:111-124 | in every run without a message about a request never made or already ended each request is ended at most once, and only one that was made |
| OrchestratorRuns.OrderlyRuns | modvpn-android/app/src/main/kotlin/app/upvpn/upvpn/service/VPNOrchestrator.kt:91-281 | runs in which cancellation drops messages not yet handled and the server echoes request ids have no such message, so that the three results hold of them |
| OrchestratorRuns.EndedIsIgnored | modvpn-android/app/src/main/kotlin/app/upvpn/upvpn/service/VPNState.kt:193 | an Ended update leaves the phone as it is if and only if the permission is there, while nothing more can come of the session |
| OrchestratorRuns.EndedStays | modvpn-android/app/src/main/kotlin/app/upvpn/upvpn/service/VPNOrchestrator.kt:164-281 | in every orderly run after such an update the state stays until a disconnect or the end of the service |
| OrchestratorRuns.StaleResponse | modvpn-android/app/src/main/kotlin/app/upvpn/upvpn/service/VPNOrchestrator.kt:130-162 | a response handled after its session's cancellation ends one request twice |
| SessionWatcher.Watch | modvpn-android/app/src/main/kotlin/app/upvpn/upvpn/data/VPNSessionWatcher.kt:17-42 | every successful status up to the first ready, failed or ended one is handed on; the row goes with the last two |
| SessionWatcher.UpToEndExact | modvpn-android/app/src/main/kotlin/app/upvpn/upvpn/data/VPNSessionWatcher.kt:17-42 | the statuses handed on are the first ones, none before the last being ready, failed or ended, and the last one being that unless all are handed on |
| WgText.Join | modvpn-android/app/src/main/java/com/wireguard/config/Attribute.java:28-40 | the elements with a comma and a space between them |
| WgText.SplitJoined | modvpn-android/app/src/main/java/com/wireguard/config/Attribute.java:18-51 | a list that is joined splits into itself if its elements have no comma, comment sign or end of line and no whitespace at their ends, the last one being not empty and ending in no control character |
| WgLaws.SplitGlued | modvpn-android/app/src/main/java/com/wireguard/config/Attribute.java:18-51 | whatever whitespace is about the commas, such a list splits into its elements |
| WgLaws.AttributeExact | modvpn-android/app/src/main/java/com/wireguard/config/Attribute.java:17-47 | a line is an attribute with this key and value if and only if it is a word, an equals sign with any whitespace about it, and a value that starts with no whitespace and holds no comment sign |
| WgNames.ReadBackExact | modvpn-android/app/src/main/java/com/wireguard/config/Attribute.java:18-51 | of lists of texts without comma, comment sign and end of line, each once, exactly these come back when printed and read |
| WgParsed.ParsedTame | modvpn-android/app/src/main/java/com/wireguard/config/Config.java:63-113 | no name of an application and no search domain in a parsed file holds a comma, a comment sign or an end of line |
| WgDomains.DnsExact | modvpn-android/app/src/main/java/com/wireguard/config/Interface.java:353-371 | a printed line of servers and search domains without comma, comment sign and end of line is read as these if and only if they can be listed and the domains are host names and no addresses |
| WgText.PrintIntParses | modvpn-android/app/src/main/java/com/wireguard/config/Interface.java:378-392 | numbers of an int print and parse back |
| WgLaws.SignedParses | modvpn-android/app/src/main/java/com/wireguard/config/Interface.java:378-392 | with a sign too, and if and only if the number fits an int |
| WgConfig.InterfaceBuilder.Add | modvpn-android/app/src/main/java/com/wireguard/config/Interface.java:76-101 | one attribute's effect or error, for every key and value |
| WgConfig.InterfaceOf | modvpn-android/app/src/main/java/com/wireguard/config/Interface.java:69-104 | the interface of the lines, or the first error |
| WgConfig.PeerOf | modvpn-android/app/src/main/java/com/wireguard/config/Peer.java:55-84 | the peer of the lines, or the first error |
| WgConfig.Parse | modvpn-android/app/src/main/java/com/wireguard/config/Config.java:63-113 | the section loop gives what cutting the cleaned lines into blocks gives; what that is, is said by the laws below |
| WgConfig.FinishThen | modvpn-android/app/src/main/java/com/wireguard/config/Config.java:79-112 | what one block more at the front does to the rest of a file |
| WgLaws.InterfaceHeaderExact | modvpn-android/app/src/main/java/com/wireguard/config/Config.java:85 | an [Interface] header is these eleven characters with each letter in either case, or a dotted or dotless i |
| WgLaws.PeerHeaderExact | modvpn-android/app/src/main/java/com/wireguard/config/Config.java:89 | a [Peer] header is these six characters with each letter in either case |
| WgLaws.ParseSame | modvpn-android/app/src/main/java/com/wireguard/config/Config.java:63-113 | texts that say the same line by line, but for the case of section headers and attribute names, parse to the same configuration or the same error |
| WgLaws.CleanExact | modvpn-android/app/src/main/java/com/wireguard/config/Config.java:73-78 | what a line says is what is left between blanks and before a comment |
| WgLaws.SectionsNeeded | modvpn-android/app/src/main/java/com/wireguard/config/Config.java:79-109 | a file that parses starts with a section header, has only the two headers, and an [Interface] |
| WgLaws.InterfaceMissing | modvpn-android/app/src/main/java/com/wireguard/config/Config.java:105-109 | a file of good peers alone fails for its missing section |
| WgLaws.InterfacesAreOne | modvpn-android/app/src/main/java/com/wireguard/config/Config.java:96-112 | all [Interface] sections are one, wherever they stand; each [Peer] is its own |
| WgLaws.InterfaceFaults | modvpn-android/app/src/main/java/com/wireguard/config/Interface.java:76-421 | whether an attribute of an interface is taken, and else with which location and reason it fails, for every key and value |
| WgLaws.PeerFaults | modvpn-android/app/src/main/java/com/wireguard/config/Peer.java:62-300 | the same for a peer |
| WgLaws.ParsedIsBuilt | modvpn-android/app/src/main/java/com/wireguard/config/Config.java:63-113 | in every parsed configuration no list holds anything twice, numbers are in range and none is zero, applications are excluded or included but not both, and the keys that must be there are |
| WgRoundTrip.InterfaceToWgQuickString | modvpn-android/app/src/main/java/com/wireguard/config/Interface.java:232-249 | the lines printed for an interface |
| WgRoundTrip.PeerToWgQuickString | modvpn-android/app/src/main/java/com/wireguard/config/Peer.java:176-185 | the lines printed for a peer |
| WgRoundTrip.ToWgQuickString | modvpn-android/app/src/main/java/com/wireguard/config/Config.java:163-169 | the lines printed for a configuration |
| WgRoundTrip.PrintedInFull | modvpn-android/app/src/main/java/com/wireguard/config/Config.java:163-169 | line by line, what is printed of an interface and a peer of which everything is given |
| WgRoundTrip.InterfaceReadsBack | modvpn-android/app/src/main/java/com/wireguard/config/Interface.java:69-249 | an interface printed and parsed comes back whole if and only if it has DNS servers or no search domains, these are host names and no addresses, and they and the names of its applications can be listed |
| WgRoundTrip.PeerReadsBack | modvpn-android/app/src/main/java/com/wireguard/config/Peer.java:55-185 | a peer printed and parsed comes back |
| WgRoundTrip.RoundTrip | modvpn-android/app/src/main/java/com/wireguard/config/Config.java:63-169 | a configuration printed and parsed comes back whole if and only if its interface does by that condition; where only search domains without a server stand against it, all else comes back |
| WgRoundTrip.AddressDomain | modvpn-android/app/src/main/java/com/wireguard/config/Interface.java:232-371 | a search domain that is an address comes back as a server |
| WgKeys.GoodKeysExact | modvpn-android/app/src/main/java/com/wireguard/crypto/Key.java:92-253 | what RoundTrip asks of a key as a leaf holds of the codec of keys for exactly the texts that encode a key |
| WgKeys.ReadKey | modvpn-android/app/src/main/java/com/wireguard/crypto/Key.java:92-253 | that leaf is fromBase64 followed by toBase64 |
| WgKeys.RoundTripOfKeys | modvpn-android/app/src/main/java/com/wireguard/config/Config.java:63-169 | the same if-and-only-if for configurations whose keys are any 32 bytes, with the codec as the leaf |
| RecentLocations.LocationStorage.AddRecent | modvpn-daemon/src/location_storage.rs:22-63 | after any sequence of additions the rows are the two newest distinct places, in order of age |
| RecentLocations.LocationStorage.RecentLocations | modvpn-daemon/src/location_storage.rs:65-75 | at most the two newest distinct places, newest first, each with its latest record |
| RecentLocations.NewestExact | modvpn-daemon/src/location_storage.rs:22-75 | those are the last additions of each place, without their estimates, the latest first |
| RecentLocations.TakeOthers | modvpn-daemon/src/location_storage.rs:42-55 | dropping all but two rows after each addition loses nothing that a later query could show |

## Left out

- Erasing the limb buffers, timing behaviour, primality of 2^255 - 19 and the group law of the curve.
- Key generation from random bytes, hash codes and constant-time comparison of keys.
- gRPC and REST calls, TLS, tokens, sockets, retries with backoff, logging and configuration loading: answers are parameters.
- The tunnel state machine and wireguard-go, which are not in the repository: they are sources of events and sinks of commands.
- Failing database calls, and a process that dies inside a handler other than a connect.
- Timestamps of rows and notifications; texts of notification ids are constructors.
- The map of watcher shutdowns in `handler.rs`: server updates may come at any time in `DaemonRuns`, from a watcher that was stopped too.
- Sign-in, device storage, controller, user interfaces, system tray and the Windows and macOS services.
- The Android database, its reclaimer and the system notification that mirrors the state.
- Exceptions out of `establish`, `toConfig` and `protect`, and the number in the text of a failed wgTurnOn.
- Parsing of addresses, networks, endpoints and host names and the DNS resolution of endpoints: leaf functions of a configuration.
- Digits outside ASCII in `Integer.parseInt`, the text inside a BadConfigException, and `toWgUserspaceString`.
- Protobuf and entity conversions: field-by-field copies.
- Curve25519Arithmetic.Curve25519.Eval: gives no formula for the 32 bytes for the nineteen coordinates from 2^256 - 19 up, which enter the ladder unreduced; its contract and FirstOperations say where it goes wrong for them.
- RecentLocations.LocationStorage.AddRecent: starts from an empty table and runs one at a time; additions spawned at once are not interleaved.
- WgRoundTrip.RoundTrip: leaf texts other than keys are assumed to be solid and to parse to themselves.
