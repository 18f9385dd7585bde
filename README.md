# Error crossing between libsignal and Node

This project models the error-crossing layer of libsignal's Node bindings
(`rust/bridge/shared/types/src/node/error.rs`) and proves properties of it.
The layer works in two directions:

- **Native error to host exception.** Each native error family implements
  `SignalNodeError::throw`. It classifies the error into a kind name for a
  `LibSignalErrorBase` subclass (or none, meaning the base class) and optional
  extra properties. It then constructs the host error and throws it. If
  construction fails, it throws a plain `Error` that carries the same message.
- **Host exception through native code and back.** A value thrown by a host
  callback is captured as a `ThrownException` (a rooted `Error` object or a
  string). It travels inside a `std::io::Error` of kind `Other`. When it
  re-enters the host it is moved out with `std::mem::take`, leaving the
  default `String("")` behind. An object is then rethrown unchanged, and a
  string becomes a plain `Error`.

Modules:

- `Wrappers`: `Option`.
- `JsHost`: host values, the `LibSignalErrorBase` constructor arguments,
  `new_js_error`, and the throw-or-fall-back tail that every `throw` shares.
- `NativeErrors`: one datatype per error family, `CallbackError` and
  `js_error_to_rust`.
- `Capture`: `ThrownException`, `std::io::Error` as a value, and the class
  `IoError`. The class's `Take` and `Throw` replace the boxed payload in place.
- `Taxonomy`: the per-family classifications, the total `Throw`, and the
  lemmas about them.

Some inputs are parameters of the model:

- Each error's text (`Display`) is the parameter `display`. Those texts
  belong to other crates.
- Whether reflective construction succeeds is the parameter `constructOk`.
- The io error's own text is the parameter `description`.

## Model

| member | source | states |
|---|---|---|
| `JsHost.NewJsError` | rust/bridge/shared/types/src/node/error.rs:26-68 | an instance exists exactly when construction succeeds, and it holds the given message, name, operation and extra properties |
| `JsHost.Raise` | rust/bridge/shared/types/src/node/error.rs:117-133 | exactly one error is thrown and it always carries the message; it is the constructed instance exactly when construction succeeds, and otherwise a plain error with that message |
| `Capture.FromValue` | rust/bridge/shared/types/src/node/error.rs:78-91 | a host Error becomes `Error` holding that same object; a host string becomes `String` with the identical text; any other value becomes `String` of its stringification |
| `Capture.Default` | rust/bridge/shared/types/src/node/error.rs:94-98 | the default capture is the empty string and never an object |
| `Capture.FromStr` | rust/bridge/shared/types/src/node/error.rs:100-104 | a `&str` becomes `String` with the same text |
| `Capture.FromValueOfString` | rust/bridge/shared/types/src/node/error.rs:81-82 | capturing a thrown host string gives the same value as `From<&str>` |
| `Capture.Taken` | rust/bridge/shared/types/src/node/error.rs:380-386 | something is taken exactly when the kind is `Other` and the boxed error is a `ThrownException`, and then it is that exception |
| `Capture.Remaining` | rust/bridge/shared/types/src/node/error.rs:380-386 | after a take the box holds the default; when nothing is taken the box is unchanged |
| `Capture.Rethrow` | rust/bridge/shared/types/src/node/error.rs:388-395 | only a captured object is rethrown, and it is the same object; a captured string becomes a plain error with that message; with nothing captured the message is the io error's own text |
| `Capture.SecondTakeYieldsDefault` | rust/bridge/shared/types/src/node/error.rs:380-386 | after one take, a second take yields the default `String("")`; the rethrow is then a plain empty error whatever the io error's own text, and never the original object |
| `Capture.CaptureRoundTrip` | rust/bridge/shared/types/src/node/error.rs:388-395 | a captured host Error, carried in an `Other` io error, comes back as the identical object; a captured string or stringified value comes back as a plain error with that text |
| `Capture.IoError.Take` | rust/bridge/shared/types/src/node/error.rs:380-386 | moves the captured exception out in place and leaves the default behind; when nothing matches, the result is none and the box is unchanged |
| `Capture.IoError.Throw` | rust/bridge/shared/types/src/node/error.rs:373-396 | the exception thrown is the dispatch of what the in-place take returned; the box holds the default when something was taken and is unchanged otherwise |
| `Capture.TakeTwice` | rust/bridge/shared/types/src/node/error.rs:380-386 | on one io error, the first take returns the capture and the second only the default (nothing if nothing was captured); the box ends as after a single take |
| `NativeErrors.CallbackErrorText` | rust/bridge/shared/types/src/node/error.rs:589-593 | the text is `"callback error "` followed by the unchanged message |
| `NativeErrors.CallbackErrorTextInjective` | rust/bridge/shared/types/src/node/error.rs:589-593 | two callback errors with the same text have the same message |
| `NativeErrors.JsErrorToRust` | rust/bridge/shared/types/src/node/error.rs:597-600 | gives an `ApplicationCallbackError` for the named callback whose cause's text is `"callback error "` followed by the host message |
| `Taxonomy.ClassifyProtocol` | rust/bridge/shared/types/src/node/error.rs:162-227 | a kind is present exactly for the six dedicated variants: `DuplicatedMessage` and `SealedSenderSelfSend` under their own names without properties, `InvalidSessionStructure` as `"InvalidSession"` without properties, `UntrustedIdentity` with `_addr` = the name, `InvalidRegistrationId` with `_addr` = the address, `InvalidSenderKeySession` with `distribution_id`; every other variant gets no kind and no properties |
| `Taxonomy.UsernameKind` | rust/bridge/shared/types/src/node/error.rs:259-272 | every username error maps to one of the twelve fixed names, and each variant to its own name and no other, with `NicknameCannotStartWithDigit` mapping to `CannotStartWithDigit` |
| `Taxonomy.UsernameKindOnto` | rust/bridge/shared/types/src/node/error.rs:259-272 | each of the twelve names is the kind of some username error |
| `Taxonomy.UsernameKindInjective` | rust/bridge/shared/types/src/node/error.rs:259-272 | distinct username errors get distinct names |
| `Taxonomy.UsernameLinkKind` | rust/bridge/shared/types/src/node/error.rs:293-300 | always one of three names; `InputDataTooLong` and `InvalidEntropyDataLength` map to their own names and nothing else does; `InvalidUsernameLinkEncryptedData` exactly for the four undecryptable-data variants |
| `Taxonomy.UsernameLinkKindOnto` | rust/bridge/shared/types/src/node/error.rs:293-300 | each of the three link names is reached |
| `Taxonomy.Mp4Kind` | rust/bridge/shared/types/src/node/error.rs:319-330 | always one of the three media names; `IoError` exactly for `Io`; `UnsupportedMediaInput` exactly for the unsupported-box parse errors; otherwise `InvalidMediaInput` |
| `Taxonomy.Mp4KindOnto` | rust/bridge/shared/types/src/node/error.rs:319-330 | each of the three media names is reached by some MP4 error |
| `Taxonomy.WebpKind` | rust/bridge/shared/types/src/node/error.rs:349-361 | always one of the three media names; `IoError` exactly for `Io`; `UnsupportedMediaInput` exactly for the unsupported-chunk and unsupported-VP8L-version errors |
| `Taxonomy.WebpKindOnto` | rust/bridge/shared/types/src/node/error.rs:349-361 | each of the three media names is reached by some WebP error |
| `Taxonomy.ChatKind` | rust/bridge/shared/types/src/node/error.rs:406-412 | always one of four names; `ServiceInactive` maps to `ChatServiceInactive`, `AppExpired` to `AppExpired` and `DeviceDeregistered` to `DeviceDelinked`, each exactly; every other variant maps to `IoError` |
| `Taxonomy.ChatKindOnto` | rust/bridge/shared/types/src/node/error.rs:406-412 | each of the four chat names is reached |
| `Taxonomy.LookupStep` | rust/bridge/shared/types/src/node/error.rs:450-472 | delegates exactly for `AttestationError`, to the wrapped error; `InvalidArgument` is the only variant without a kind, and it has no properties; `RateLimited` is the only variant with properties, `retryAfterSecs` = the delay; `InvalidToken` maps to `CdsiInvalidToken`; the timeout, transport, websocket, protocol, response, parse and server errors map to `IoError` |
| `Taxonomy.Svr3Step` | rust/bridge/shared/types/src/node/error.rs:488-507 | delegates exactly for `AttestationError`; `Protocol` is the only variant without a kind, and it has no properties; `RestoreFailed` is the only variant with properties, `triesRemaining` = the count; service, timeout and connect errors map to `IoError`; `RequestFailed` maps to `SvrRequestFailed` and `DataMissing` to `SvrDataMissing` |
| `Taxonomy.Classify` | rust/bridge/shared/types/src/node/error.rs:143-575 | every error is classified except an io error and an already pending exception, which construct nothing. A protocol error gets `ClassifyProtocol`. Username, username-link, MP4, WebP and chat errors get the kind from their family function and no properties. A lookup or recovery error that does not delegate gets its own step's classification. A backup read error gets `BackupValidation` with `unknownFields`. `InvalidUri` gets kind `InvalidUri` and a cancellation gets `Cancelled`. The username, link, media, chat, URI, cancellation and backup families always get some kind. Default-throw errors and delegating attestation errors get no kind and no properties |
| `Taxonomy.Message` | rust/bridge/shared/types/src/node/error.rs:124 | the thrown message is the error's own text, except that a backup read error uses its inner error's text (line 556) and an error delegating to an attestation error uses that error's text (lines 462, 493) |
| `Taxonomy.Throw` | rust/bridge/shared/types/src/node/error.rs:117-575 | total; only an already pending exception is passed on, and only an io error rethrows an object; every classified error throws exactly one exception carrying its message; the exception is the constructed one with the classification's kind, properties and the operation exactly when construction succeeds, and otherwise a plain error with the message |
| `Taxonomy.LookupDelegation` | rust/bridge/shared/types/src/node/error.rs:462 | a lookup error wrapping an attestation error throws exactly what the attestation error throws, with the same operation |
| `Taxonomy.Svr3Delegation` | rust/bridge/shared/types/src/node/error.rs:492-494 | the same delegation for a recovery error wrapping an attestation error |
| `Taxonomy.DefaultThrow` | rust/bridge/shared/types/src/node/error.rs:240-250 | errors of the default-throw families construct the base class with their own text and no properties, or fall back to a plain error with that text |
| `Taxonomy.RateLimitedCarriesDelay` | rust/bridge/shared/types/src/node/error.rs:451-461 | a rate-limited lookup with delay n throws `RateLimitedError` with `retryAfterSecs` = n |
| `Taxonomy.RestoreFailedCarriesTries` | rust/bridge/shared/types/src/node/error.rs:496-504 | a failed restore with n tries left throws `SvrRestoreFailed` with `triesRemaining` = n |
| `Taxonomy.UntrustedIdentityCarriesName` | rust/bridge/shared/types/src/node/error.rs:179-191 | an untrusted identity throws `UntrustedIdentity` with `_addr` = the address's name |
| `Taxonomy.BackupReadCarriesUnknownFields` | rust/bridge/shared/types/src/node/error.rs:552-573 | a backup read error throws `BackupValidation` with its inner error's text and `unknownFields`; the fallback uses the same text |
| `Taxonomy.InvalidUriThrow` | rust/bridge/shared/types/src/node/error.rs:424-441 | an invalid URI throws `InvalidUri` with its own text and no properties, or falls back to a plain error with that text |
| `Taxonomy.CancellationThrow` | rust/bridge/shared/types/src/node/error.rs:520-543 | a cancellation throws `Cancelled` with its own text and no properties, or falls back to a plain error with that text |
| `Taxonomy.DeviceDeregisteredThrow` | rust/bridge/shared/types/src/node/error.rs:406-420 | a deregistered device throws `DeviceDelinked` with its own text and the operation |
| `Taxonomy.NeonThrowPassesThrough` | rust/bridge/shared/types/src/node/error.rs:143-152 | an already pending exception is returned as it is, whatever the operation or the construction outcome |
| `Taxonomy.CallbackErrorIsUnclassified` | rust/bridge/shared/types/src/node/error.rs:597-600 | a callback error converted by `js_error_to_rust` is classified as the base class with no properties, and is thrown as such with its own text and the operation |
| `Taxonomy.IoThrowIgnoresOperation` | rust/bridge/shared/types/src/node/error.rs:373-396 | an io error's throw depends on neither the operation name nor the construction outcome, and equals the take-then-rethrow dispatch |
| `Taxonomy.ExtraKeysFollowKind` | rust/bridge/shared/types/src/node/error.rs:154-575 | every classification carries exactly the extra-property keys documented for its kind |
| `Taxonomy.KindDeterminesExtraKeys` | rust/bridge/shared/types/src/node/error.rs:154-575 | two errors of the same kind carry the same set of property keys |
| `Taxonomy.ThrowIoError` | rust/bridge/shared/types/src/node/error.rs:373-396 | the in-place throw of an owned io error equals the total throw of that error as it was before the take, and leaves the box as the take leaves it |

## Left out

- `node_registerErrors` and the reflective lookup and `construct` inside `new_js_error` are not modelled. They manipulate JavaScript engine objects. Whether construction succeeds is an input.
- The warning logged when construction fails is not modelled. It is logging only.
- The `?` early exits from `props.set` and `convert_into` are not modelled. These are host-runtime failures, so every modelled throw reaches its construction step.
- Rooting and `into_inner` are not modelled, and neither is the engine-level meaning of `cx.throw` and `cx.throw_error`. A rooted object is the same `JsObject` reference, and a throw is the `Thrown` value it leaves pending.
- The texts of foreign errors (`Display` of the protocol, network, media, zkgroup and attestation errors) are opaque inputs. So is the hex formatting of a distribution id, which is kept as its hyphenated hex string.
- `Display for ThrownException` is not modelled. Its only use in this file is through the io error's own text, which is an input.
- `ThrownException::from_value` panics when the host cannot stringify a value. The model takes the stringification as given and does not model the panic.
- `unknownFields` is modelled as the list of the unknown fields' texts. The conversion of each field to a host value is in another file.
- `InvalidRegistrationId`'s `_addr` is the converted `ProtocolAddress` object. The model records that object by name and device id.
- The `SignalProtocolError` variants with no dedicated kind are modelled as one catch-all constructor, except `ApplicationCallbackError`, which keeps its own constructor because `js_error_to_rust` builds it. Likewise, the `ChatServiceError` variants other than the three named ones are one catch-all constructor. All of these go through the same arm of the source's match.
- The families that use only the default throw (device transfer, HSM enclave, crypto, both zkgroup failures and username proof verification) are one generic constructor. The enclave attestation error has its own constructor because the lookup and recovery errors delegate to it.
- Capturing and wrapping a host exception into an io error of kind `Other` happens outside this file. The model starts from an io error that already holds a `ThrownException`.
