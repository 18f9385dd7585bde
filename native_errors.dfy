/**
 * The native error families that cross into the host. Foreign payloads
 * (reasons, transport details, box types) are opaque strings; a family's
 * text (`Display`) is supplied separately, since it belongs to the library
 * that defines the family.
 */
module NativeErrors {
  import Capture

  /** Rust's `u32`, the width of the counters that become host numbers. */
  newtype u32 = x: int | 0 <= x < 0x1_0000_0000

  /** A protocol address: a name and a device id. */
  datatype ProtocolAddress = ProtocolAddress(name: string, deviceId: u32)

  /** A UUID, kept as its hyphenated lower-case hex form. */
  datatype Uuid = Uuid(hyphenatedHex: string)

  /** The error a host callback reported, by its message. */
  datatype CallbackError = CallbackError(message: string)

  /** The prefix `CallbackError`'s text puts before the message. */
  const CallbackPrefix: string := "callback error "

  /** `Display for CallbackError`: the fixed prefix, then the message unchanged. */
  function CallbackErrorText(c: CallbackError): (s: string)
    ensures |s| == |CallbackPrefix| + |c.message|
    ensures s[..|CallbackPrefix|] == CallbackPrefix
    ensures s[|CallbackPrefix|..] == c.message
  {
    CallbackPrefix + c.message
  }

  /** The callback's message can be read back from the text: the text is injective. */
  lemma CallbackErrorTextInjective(a: CallbackError, b: CallbackError)
    requires CallbackErrorText(a) == CallbackErrorText(b)
    ensures a == b
  {
  }

  /** `SignalProtocolError`, with the variants the host layer singles out. */
  datatype SignalProtocolError =
    | DuplicatedMessage(detail: string)
    | SealedSenderSelfSend
    | UntrustedIdentity(addr: ProtocolAddress)
    | InvalidRegistrationId(addr: ProtocolAddress, value: int)
    | InvalidSessionStructure(reason: string)
    | InvalidSenderKeySession(distributionId: Uuid)
    | ApplicationCallbackError(func: string, cause: CallbackError)
    | OtherProtocolError(variant: string)  // every remaining variant

  /** `js_error_to_rust`: a host callback's error message as a protocol error. */
  function JsErrorToRust(func: string, err: string): (e: SignalProtocolError)
    ensures e.ApplicationCallbackError? && e.func == func
    ensures CallbackErrorText(e.cause) == CallbackPrefix + err
  {
    ApplicationCallbackError(func, CallbackError(err))
  }

  /** The families whose errors use the default throw: no kind, no extra properties. */
  datatype DefaultFamily =
    | DeviceTransfer
    | HsmEnclave
    | SignalCrypto
    | ZkGroupVerification
    | ZkGroupDeserialization
    | UsernameProofVerification

  /** `attest::enclave::Error`, which also uses the default throw. */
  datatype EnclaveError = EnclaveError(detail: string)

  /** `usernames::UsernameError`: twelve rule violations. */
  datatype UsernameError =
    | BadNicknameCharacter
    | NicknameTooShort
    | NicknameTooLong
    | NicknameCannotBeEmpty
    | NicknameCannotStartWithDigit
    | MissingSeparator
    | DiscriminatorCannotBeEmpty
    | DiscriminatorCannotBeZero
    | DiscriminatorCannotBeSingleDigit
    | DiscriminatorCannotHaveLeadingZeros
    | BadDiscriminatorCharacter
    | DiscriminatorTooLarge

  /** `usernames::UsernameLinkError`. */
  datatype UsernameLinkError =
    | InputDataTooLong
    | InvalidEntropyDataLength
    | UsernameLinkDataTooShort
    | HmacMismatch
    | BadCiphertext
    | InvalidDecryptedDataStructure

  /** The kind of an MP4 parse error. */
  datatype Mp4ParseError =
    | InvalidBoxLayout
    | InvalidInput
    | MissingRequiredBox(boxType: string)
    | TruncatedBox
    | UnsupportedBox(boxType: string)
    | UnsupportedBoxLayout
    | UnsupportedFormat(format: string)

  /** `signal_media::sanitize::mp4::Error`. */
  datatype Mp4Error = Io(detail: string) | Parse(kind: Mp4ParseError)

  /** The kind of a WebP parse error. */
  datatype WebpParseError =
    | InvalidChunkLayout
    | InvalidInput
    | InvalidVp8lPrefixCode
    | MissingRequiredChunk(chunkType: string)
    | TruncatedChunk
    | UnsupportedChunk(chunkType: string)
    | UnsupportedVp8lVersion(version: int)

  /** `signal_media::sanitize::webp::Error`. */
  datatype WebpError = Io(detail: string) | Parse(kind: WebpParseError)

  /** `libsignal_net::chat::ChatServiceError`, with its three dedicated variants. */
  datatype ChatServiceError =
    | ServiceInactive
    | AppExpired
    | DeviceDeregistered
    | OtherChatError(variant: string)  // every remaining variant

  /** `libsignal_net::cdsi::LookupError`. */
  datatype LookupError =
    | RateLimited(retryAfterSeconds: u32)
    | AttestationError(inner: EnclaveError)
    | InvalidArgument(serverReason: string)
    | InvalidToken
    | ConnectionTimedOut
    | ConnectTransport(detail: string)
    | WebSocket(detail: string)
    | Protocol
    | InvalidResponse
    | ParseError
    | Server(reason: string)

  /** `libsignal_net::svr3::Error`. */
  datatype Svr3Error =
    | Service(detail: string)
    | ConnectionTimedOut
    | Connect(detail: string)
    | AttestationError(inner: EnclaveError)
    | RequestFailed(detail: string)
    | RestoreFailed(triesRemaining: u32)
    | DataMissing
    | Protocol(detail: string)

  /** `libsignal_message_backup::ReadError`: the inner error's text and the unknown fields found. */
  datatype ReadError = ReadError(errorText: string, foundUnknownFields: seq<string>)

  /** Every native error that can be thrown into the host, by family. */
  datatype NativeError =
    | SignalProtocol(protocol: SignalProtocolError)
    | DefaultFamilyError(family: DefaultFamily, detail: string)
    | Enclave(enclave: EnclaveError)
    | Username(username: UsernameError)
    | UsernameLink(link: UsernameLinkError)
    | Mp4(mp4: Mp4Error)
    | Webp(webp: WebpError)
    | StdIo(io: Capture.IoErrorValue)
    | ChatService(chat: ChatServiceError)
    | Uri(detail: string)
    | CdsiLookup(lookup: LookupError)
    | Svr3(svr3: Svr3Error)
    | Cancellation
    | BackupRead(read: ReadError)
    | NeonThrow  // a host exception that is already pending
}
