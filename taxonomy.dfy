/**
 * The taxonomy mapper and throw dispatch: every native error is classified
 * into a kind name (or none, for the base class) and extra properties, and
 * thrown into the host exactly once.
 */
module Taxonomy {
  import opened Wrappers
  import opened JsHost
  import Capture
  import opened NativeErrors

  const InvalidMediaInput: string := "InvalidMediaInput"
  const IoErrorName: string := "IoError"
  const RateLimitedError: string := "RateLimitedError"
  const SvrDataMissing: string := "SvrDataMissing"
  const SvrRequestFailed: string := "SvrRequestFailed"
  const SvrRestoreFailed: string := "SvrRestoreFailed"
  const UnsupportedMediaInput: string := "UnsupportedMediaInput"

  /** The host class to construct (none: the base class) and its extra properties. */
  datatype Classification = Classification(kind: Option<string>, extraProps: Option<Props>)

  /** The classification of every error that uses the default throw. */
  const Unclassified := Classification(None, None)

  /** Extra properties holding exactly one key. */
  function Single(key: string, value: PropValue): Option<Props>
  {
    Some(map[key := value])
  }

  // ---------------------------------------------------------------------------
  // SignalProtocolError

  /** The kinds a protocol error can be thrown as. */
  const ProtocolKinds: set<string> := {
    "DuplicatedMessage", "SealedSenderSelfSend", "UntrustedIdentity",
    "InvalidRegistrationId", "InvalidSession", "InvalidSenderKeySession"}

  /** The six protocol errors with a dedicated host class. */
  predicate HasDedicatedKind(p: SignalProtocolError)
  {
    || p.DuplicatedMessage? || p.SealedSenderSelfSend? || p.UntrustedIdentity?
    || p.InvalidRegistrationId? || p.InvalidSessionStructure? || p.InvalidSenderKeySession?
  }

  function ClassifyProtocol(p: SignalProtocolError): (c: Classification)
    ensures c.kind.Some? <==> HasDedicatedKind(p)
    ensures c.kind.Some? ==> c.kind.value in ProtocolKinds
    ensures c.kind.None? ==> c == Unclassified
    ensures p.DuplicatedMessage? ==> c == Classification(Some("DuplicatedMessage"), None)
    ensures p.SealedSenderSelfSend? ==> c == Classification(Some("SealedSenderSelfSend"), None)
    ensures p.InvalidSessionStructure? ==> c == Classification(Some("InvalidSession"), None)
    ensures c.extraProps.Some? <==>
      p.UntrustedIdentity? || p.InvalidRegistrationId? || p.InvalidSenderKeySession?
    ensures p.UntrustedIdentity? ==> c == Classification(Some("UntrustedIdentity"), Single("_addr", Str(p.addr.name)))
    ensures p.InvalidRegistrationId? ==>
      c == Classification(Some("InvalidRegistrationId"),
                          Single("_addr", Address(p.addr.name, p.addr.deviceId as int)))
    ensures p.InvalidSenderKeySession? ==>
      c == Classification(Some("InvalidSenderKeySession"),
                          Single("distribution_id", Str(p.distributionId.hyphenatedHex)))
  {
    match p
    case DuplicatedMessage(_) => Classification(Some("DuplicatedMessage"), None)
    case SealedSenderSelfSend => Classification(Some("SealedSenderSelfSend"), None)
    case UntrustedIdentity(addr) =>
      Classification(Some("UntrustedIdentity"), Single("_addr", Str(addr.name)))
    case InvalidRegistrationId(addr, _) =>
      Classification(Some("InvalidRegistrationId"), Single("_addr", Address(addr.name, addr.deviceId as int)))
    case InvalidSessionStructure(_) => Classification(Some("InvalidSession"), None)
    case InvalidSenderKeySession(distributionId) =>
      Classification(Some("InvalidSenderKeySession"),
                     Single("distribution_id", Str(distributionId.hyphenatedHex)))
    case _ => Unclassified
  }

  // ---------------------------------------------------------------------------
  // UsernameError

  /** The twelve kinds of username errors. */
  const UsernameKinds: set<string> := {
    "BadNicknameCharacter", "NicknameTooShort", "NicknameTooLong", "NicknameCannotBeEmpty",
    "CannotStartWithDigit", "MissingSeparator", "DiscriminatorCannotBeEmpty",
    "DiscriminatorCannotBeZero", "DiscriminatorCannotBeSingleDigit",
    "DiscriminatorCannotHaveLeadingZeros", "BadDiscriminatorCharacter", "DiscriminatorTooLarge"}

  function UsernameKind(u: UsernameError): (name: string)
    ensures name in UsernameKinds
    ensures u.BadNicknameCharacter? <==> name == "BadNicknameCharacter"
    ensures u.NicknameTooShort? <==> name == "NicknameTooShort"
    ensures u.NicknameTooLong? <==> name == "NicknameTooLong"
    ensures u.NicknameCannotBeEmpty? <==> name == "NicknameCannotBeEmpty"
    ensures u.NicknameCannotStartWithDigit? <==> name == "CannotStartWithDigit"
    ensures u.MissingSeparator? <==> name == "MissingSeparator"
    ensures u.DiscriminatorCannotBeEmpty? <==> name == "DiscriminatorCannotBeEmpty"
    ensures u.DiscriminatorCannotBeZero? <==> name == "DiscriminatorCannotBeZero"
    ensures u.DiscriminatorCannotBeSingleDigit? <==> name == "DiscriminatorCannotBeSingleDigit"
    ensures u.DiscriminatorCannotHaveLeadingZeros? <==> name == "DiscriminatorCannotHaveLeadingZeros"
    ensures u.BadDiscriminatorCharacter? <==> name == "BadDiscriminatorCharacter"
    ensures u.DiscriminatorTooLarge? <==> name == "DiscriminatorTooLarge"
  {
    match u
    case BadNicknameCharacter => "BadNicknameCharacter"
    case NicknameTooShort => "NicknameTooShort"
    case NicknameTooLong => "NicknameTooLong"
    case NicknameCannotBeEmpty => "NicknameCannotBeEmpty"
    case NicknameCannotStartWithDigit => "CannotStartWithDigit"
    case MissingSeparator => "MissingSeparator"
    case DiscriminatorCannotBeEmpty => "DiscriminatorCannotBeEmpty"
    case DiscriminatorCannotBeZero => "DiscriminatorCannotBeZero"
    case DiscriminatorCannotBeSingleDigit => "DiscriminatorCannotBeSingleDigit"
    case DiscriminatorCannotHaveLeadingZeros => "DiscriminatorCannotHaveLeadingZeros"
    case BadDiscriminatorCharacter => "BadDiscriminatorCharacter"
    case DiscriminatorTooLarge => "DiscriminatorTooLarge"
  }

  /** Every one of the twelve kinds is the kind of some username error. */
  lemma UsernameKindOnto(name: string)
    requires name in UsernameKinds
    ensures exists u :: UsernameKind(u) == name
  {
    if name == "BadNicknameCharacter" { assert UsernameKind(BadNicknameCharacter) == name; }
    else if name == "NicknameTooShort" { assert UsernameKind(NicknameTooShort) == name; }
    else if name == "NicknameTooLong" { assert UsernameKind(NicknameTooLong) == name; }
    else if name == "NicknameCannotBeEmpty" { assert UsernameKind(NicknameCannotBeEmpty) == name; }
    else if name == "CannotStartWithDigit" { assert UsernameKind(NicknameCannotStartWithDigit) == name; }
    else if name == "MissingSeparator" { assert UsernameKind(MissingSeparator) == name; }
    else if name == "DiscriminatorCannotBeEmpty" { assert UsernameKind(DiscriminatorCannotBeEmpty) == name; }
    else if name == "DiscriminatorCannotBeZero" { assert UsernameKind(DiscriminatorCannotBeZero) == name; }
    else if name == "DiscriminatorCannotBeSingleDigit" { assert UsernameKind(DiscriminatorCannotBeSingleDigit) == name; }
    else if name == "DiscriminatorCannotHaveLeadingZeros" {
      assert UsernameKind(DiscriminatorCannotHaveLeadingZeros) == name;
    }
    else if name == "BadDiscriminatorCharacter" { assert UsernameKind(BadDiscriminatorCharacter) == name; }
    else { assert UsernameKind(DiscriminatorTooLarge) == name; }
  }

  /** Distinct username errors are thrown as distinct kinds. */
  lemma UsernameKindInjective(a: UsernameError, b: UsernameError)
    requires UsernameKind(a) == UsernameKind(b)
    ensures a == b
  {
  }

  // ---------------------------------------------------------------------------
  // UsernameLinkError

  const UsernameLinkKinds: set<string> := {
    "InputDataTooLong", "InvalidEntropyDataLength", "InvalidUsernameLinkEncryptedData"}

  /** The four ways the encrypted link data can be unusable. */
  predicate IsUndecryptable(l: UsernameLinkError)
  {
    l.UsernameLinkDataTooShort? || l.HmacMismatch? || l.BadCiphertext? || l.InvalidDecryptedDataStructure?
  }

  function UsernameLinkKind(l: UsernameLinkError): (name: string)
    ensures name in UsernameLinkKinds
    ensures name == "InvalidUsernameLinkEncryptedData" <==> IsUndecryptable(l)
    ensures name == "InputDataTooLong" <==> l.InputDataTooLong?
    ensures name == "InvalidEntropyDataLength" <==> l.InvalidEntropyDataLength?
  {
    match l
    case InputDataTooLong => "InputDataTooLong"
    case InvalidEntropyDataLength => "InvalidEntropyDataLength"
    case UsernameLinkDataTooShort | HmacMismatch | BadCiphertext | InvalidDecryptedDataStructure =>
      "InvalidUsernameLinkEncryptedData"
  }

  lemma UsernameLinkKindOnto(name: string)
    requires name in UsernameLinkKinds
    ensures exists l :: UsernameLinkKind(l) == name
  {
    if name == "InputDataTooLong" { assert UsernameLinkKind(InputDataTooLong) == name; }
    else if name == "InvalidEntropyDataLength" { assert UsernameLinkKind(InvalidEntropyDataLength) == name; }
    else { assert UsernameLinkKind(BadCiphertext) == name; }
  }

  // ---------------------------------------------------------------------------
  // Media sanitizers

  const MediaKinds: set<string> := {IoErrorName, InvalidMediaInput, UnsupportedMediaInput}

  predicate IsUnsupportedBox(k: Mp4ParseError)
  {
    k.UnsupportedBox? || k.UnsupportedBoxLayout? || k.UnsupportedFormat?
  }

  function Mp4Kind(m: Mp4Error): (name: string)
    ensures name in MediaKinds
    ensures name == IoErrorName <==> m.Io?
    ensures name == UnsupportedMediaInput <==> m.Parse? && IsUnsupportedBox(m.kind)
  {
    match m
    case Io(_) => IoErrorName
    case Parse(kind) =>
      match kind
      case InvalidBoxLayout | InvalidInput | MissingRequiredBox(_) | TruncatedBox => InvalidMediaInput
      case UnsupportedBox(_) | UnsupportedBoxLayout | UnsupportedFormat(_) => UnsupportedMediaInput
  }

  lemma Mp4KindOnto(name: string)
    requires name in MediaKinds
    ensures exists m :: Mp4Kind(m) == name
  {
    if name == IoErrorName { assert Mp4Kind(Mp4Error.Io("")) == name; }
    else if name == InvalidMediaInput { assert Mp4Kind(Mp4Error.Parse(TruncatedBox)) == name; }
    else { assert Mp4Kind(Mp4Error.Parse(UnsupportedBoxLayout)) == name; }
  }

  predicate IsUnsupportedChunk(k: WebpParseError)
  {
    k.UnsupportedChunk? || k.UnsupportedVp8lVersion?
  }

  function WebpKind(w: WebpError): (name: string)
    ensures name in MediaKinds
    ensures name == IoErrorName <==> w.Io?
    ensures name == UnsupportedMediaInput <==> w.Parse? && IsUnsupportedChunk(w.kind)
  {
    match w
    case Io(_) => IoErrorName
    case Parse(kind) =>
      match kind
      case InvalidChunkLayout | InvalidInput | InvalidVp8lPrefixCode | MissingRequiredChunk(_) | TruncatedChunk =>
        InvalidMediaInput
      case UnsupportedChunk(_) | UnsupportedVp8lVersion(_) => UnsupportedMediaInput
  }

  lemma WebpKindOnto(name: string)
    requires name in MediaKinds
    ensures exists w :: WebpKind(w) == name
  {
    if name == IoErrorName { assert WebpKind(WebpError.Io("")) == name; }
    else if name == InvalidMediaInput { assert WebpKind(WebpError.Parse(TruncatedChunk)) == name; }
    else { assert WebpKind(WebpError.Parse(UnsupportedVp8lVersion(0))) == name; }
  }

  // ---------------------------------------------------------------------------
  // ChatServiceError

  const ChatKinds: set<string> := {"ChatServiceInactive", "AppExpired", "DeviceDelinked", IoErrorName}

  function ChatKind(c: ChatServiceError): (name: string)
    ensures name in ChatKinds
    ensures name == IoErrorName <==> c.OtherChatError?
    ensures c.ServiceInactive? <==> name == "ChatServiceInactive"
    ensures c.AppExpired? <==> name == "AppExpired"
    ensures c.DeviceDeregistered? <==> name == "DeviceDelinked"
  {
    match c
    case ServiceInactive => "ChatServiceInactive"
    case AppExpired => "AppExpired"
    case DeviceDeregistered => "DeviceDelinked"
    case OtherChatError(_) => IoErrorName
  }

  lemma ChatKindOnto(name: string)
    requires name in ChatKinds
    ensures exists c :: ChatKind(c) == name
  {
    if name == "ChatServiceInactive" { assert ChatKind(ServiceInactive) == name; }
    else if name == "AppExpired" { assert ChatKind(AppExpired) == name; }
    else if name == "DeviceDelinked" { assert ChatKind(DeviceDeregistered) == name; }
    else { assert ChatKind(OtherChatError("")) == name; }
  }

  // ---------------------------------------------------------------------------
  // Errors that either delegate to a wrapped attestation error or classify themselves

  /** One step of a throw that may delegate: to the wrapped error's own throw, or a classification. */
  datatype Step = Delegate(inner: EnclaveError) | Own(c: Classification)

  function LookupStep(l: LookupError): (s: Step)
    ensures s.Delegate? <==> l.AttestationError?
    ensures s.Delegate? ==> s.inner == l.inner
    ensures s.Own? && s.c.kind.None? <==> l.InvalidArgument?
    ensures s.Own? && s.c.extraProps.Some? <==> l.RateLimited?
    ensures l.RateLimited? ==>
      s == Own(Classification(Some(RateLimitedError),
                              Single("retryAfterSecs", Number(l.retryAfterSeconds as int))))
    ensures l.InvalidToken? ==> s == Own(Classification(Some("CdsiInvalidToken"), None))
    ensures l.InvalidArgument? ==> s == Own(Unclassified)
    ensures (l.ConnectionTimedOut? || l.ConnectTransport? || l.WebSocket? || l.Protocol?
             || l.InvalidResponse? || l.ParseError? || l.Server?) ==>
      s == Own(Classification(Some(IoErrorName), None))
  {
    match l
    case RateLimited(retryAfterSeconds) =>
      Own(Classification(Some(RateLimitedError),
                         Single("retryAfterSecs", Number(retryAfterSeconds as int))))
    case AttestationError(e) => Delegate(e)
    case InvalidArgument(_) => Own(Unclassified)
    case InvalidToken => Own(Classification(Some("CdsiInvalidToken"), None))
    case ConnectionTimedOut | ConnectTransport(_) | WebSocket(_) | Protocol
      | InvalidResponse | ParseError | Server(_) => Own(Classification(Some(IoErrorName), None))
  }

  function Svr3Step(s: Svr3Error): (r: Step)
    ensures r.Delegate? <==> s.AttestationError?
    ensures r.Delegate? ==> r.inner == s.inner
    ensures r.Own? && r.c.kind.None? <==> s.Protocol?
    ensures r.Own? && r.c.extraProps.Some? <==> s.RestoreFailed?
    ensures s.RestoreFailed? ==>
      r == Own(Classification(Some(SvrRestoreFailed),
                              Single("triesRemaining", Number(s.triesRemaining as int))))
    ensures (s.Service? || s.ConnectionTimedOut? || s.Connect?) ==> r == Own(Classification(Some(IoErrorName), None))
    ensures s.RequestFailed? ==> r == Own(Classification(Some(SvrRequestFailed), None))
    ensures s.DataMissing? ==> r == Own(Classification(Some(SvrDataMissing), None))
    ensures s.Protocol? ==> r == Own(Unclassified)
  {
    match s
    case Service(_) | ConnectionTimedOut | Connect(_) => Own(Classification(Some(IoErrorName), None))
    case AttestationError(inner) => Delegate(inner)
    case RequestFailed(_) => Own(Classification(Some(SvrRequestFailed), None))
    case RestoreFailed(triesRemaining) =>
      Own(Classification(Some(SvrRestoreFailed), Single("triesRemaining", Number(triesRemaining as int))))
    case DataMissing => Own(Classification(Some(SvrDataMissing), None))
    case Protocol(_) => Own(Unclassified)
  }

  // ---------------------------------------------------------------------------
  // The whole taxonomy

  /** Whether a throw of `e` delegates to a wrapped error's throw (the only recursion). */
  function DelegationDepth(e: NativeError): nat
  {
    match e
    case CdsiLookup(l) => if l.AttestationError? then 1 else 0
    case Svr3(s) => if s.AttestationError? then 1 else 0
    case _ => 0
  }

  /**
   * The classification a throw of `e` constructs its host error from; none for
   * the two errors that construct nothing: an io error (it rethrows what it
   * carries) and an already pending exception.
   */
  function Classify(e: NativeError): (r: Option<Classification>)
    ensures r.None? <==> e.StdIo? || e.NeonThrow?
    ensures e.SignalProtocol? ==> r == Some(ClassifyProtocol(e.protocol))
    ensures e.Username? ==> r == Some(Classification(Some(UsernameKind(e.username)), None))
    ensures e.UsernameLink? ==> r == Some(Classification(Some(UsernameLinkKind(e.link)), None))
    ensures e.Mp4? ==> r == Some(Classification(Some(Mp4Kind(e.mp4)), None))
    ensures e.Webp? ==> r == Some(Classification(Some(WebpKind(e.webp)), None))
    ensures e.ChatService? ==> r == Some(Classification(Some(ChatKind(e.chat)), None))
    ensures e.CdsiLookup? && LookupStep(e.lookup).Own? ==> r == Some(LookupStep(e.lookup).c)
    ensures e.Svr3? && Svr3Step(e.svr3).Own? ==> r == Some(Svr3Step(e.svr3).c)
    ensures e.BackupRead? ==>
      r == Some(Classification(Some("BackupValidation"),
                               Single("unknownFields", StringList(e.read.foundUnknownFields))))
    ensures (e.Username? || e.UsernameLink? || e.Mp4? || e.Webp? || e.ChatService?
             || e.Uri? || e.Cancellation? || e.BackupRead?) ==> r.Some? && r.value.kind.Some?
    ensures e.Uri? ==> r == Some(Classification(Some("InvalidUri"), None))
    ensures e.Cancellation? ==> r == Some(Classification(Some("Cancelled"), None))
    ensures e.DefaultFamilyError? || e.Enclave? ==> r == Some(Unclassified)
    ensures e.CdsiLookup? && e.lookup.AttestationError? ==> r == Some(Unclassified)
    ensures e.Svr3? && e.svr3.AttestationError? ==> r == Some(Unclassified)
    decreases DelegationDepth(e)
  {
    match e
    case SignalProtocol(p) => Some(ClassifyProtocol(p))
    case DefaultFamilyError(_, _) => Some(Unclassified)
    case Enclave(_) => Some(Unclassified)
    case Username(u) => Some(Classification(Some(UsernameKind(u)), None))
    case UsernameLink(l) => Some(Classification(Some(UsernameLinkKind(l)), None))
    case Mp4(m) => Some(Classification(Some(Mp4Kind(m)), None))
    case Webp(w) => Some(Classification(Some(WebpKind(w)), None))
    case StdIo(_) => None
    case ChatService(c) => Some(Classification(Some(ChatKind(c)), None))
    case Uri(_) => Some(Classification(Some("InvalidUri"), None))
    case CdsiLookup(l) =>
      (match LookupStep(l)
       case Delegate(inner) => Classify(Enclave(inner))
       case Own(c) => Some(c))
    case Svr3(s) =>
      (match Svr3Step(s)
       case Delegate(inner) => Classify(Enclave(inner))
       case Own(c) => Some(c))
    case Cancellation => Some(Classification(Some("Cancelled"), None))
    case BackupRead(r) =>
      Some(Classification(Some("BackupValidation"), Single("unknownFields", StringList(r.foundUnknownFields))))
    case NeonThrow => None
  }

  /**
   * The message a throw of `e` uses: the error's own text, except that a backup
   * read error uses its inner error's text and a delegating error the text of
   * the error it delegates to.
   */
  function Message(e: NativeError, display: NativeError -> string): (m: string)
    ensures e.BackupRead? ==> m == e.read.errorText
    ensures e.CdsiLookup? && e.lookup.AttestationError? ==> m == display(Enclave(e.lookup.inner))
    ensures e.Svr3? && e.svr3.AttestationError? ==> m == display(Enclave(e.svr3.inner))
    ensures DelegationDepth(e) == 0 && !e.BackupRead? ==> m == display(e)
    decreases DelegationDepth(e)
  {
    match e
    case BackupRead(r) => r.errorText
    case CdsiLookup(AttestationError(inner)) => Message(Enclave(inner), display)
    case Svr3(AttestationError(inner)) => Message(Enclave(inner), display)
    case _ => display(e)
  }

  /**
   * `SignalNodeError::throw` for every family: classify, construct, and throw
   * exactly one exception; an io error unwraps what it carries and an already
   * pending exception is passed on. `display` is each error's text and
   * `constructOk` whether constructing the host error succeeds.
   */
  function Throw(e: NativeError, display: NativeError -> string, operation: string, constructOk: bool): (t: Thrown)
    ensures t.Propagated? <==> e.NeonThrow?
    ensures t.Rethrown? ==> e.StdIo?
    ensures Classify(e).Some? ==> MessageOf(t) == Some(Message(e, display))
    ensures Classify(e).Some? ==> (t.Constructed? <==> constructOk)
    ensures Classify(e).Some? && !constructOk ==> t == PlainError(Message(e, display))
    ensures t.Constructed? ==> Classify(e).Some?
    ensures t.Constructed? ==>
      t.error == LibSignalError(Message(e, display), Classify(e).value.kind, operation, Classify(e).value.extraProps)
  {
    match e
    case NeonThrow => Propagated
    case StdIo(io) => Capture.Rethrow(Capture.Taken(io.kind, io.custom), display(e))
    case _ =>
      var c := Classify(e).value;
      Raise(c.kind, Message(e, display), operation, c.extraProps, constructOk)
  }

  // ---------------------------------------------------------------------------
  // Properties of the taxonomy

  /** Delegation: a lookup error wrapping an attestation error throws exactly what that error throws. */
  lemma LookupDelegation(inner: EnclaveError, display: NativeError -> string, operation: string, constructOk: bool)
    ensures Throw(CdsiLookup(LookupError.AttestationError(inner)), display, operation, constructOk)
         == Throw(Enclave(inner), display, operation, constructOk)
  {
  }

  /** Delegation: a recovery error wrapping an attestation error throws exactly what that error throws. */
  lemma Svr3Delegation(inner: EnclaveError, display: NativeError -> string, operation: string, constructOk: bool)
    ensures Throw(Svr3(Svr3Error.AttestationError(inner)), display, operation, constructOk)
         == Throw(Enclave(inner), display, operation, constructOk)
  {
  }

  /** The errors that use the default throw construct the base class with their own text and nothing else. */
  lemma DefaultThrow(e: NativeError, display: NativeError -> string, operation: string)
    requires e.DefaultFamilyError? || e.Enclave?
    ensures Throw(e, display, operation, true) == Constructed(LibSignalError(display(e), None, operation, None))
    ensures Throw(e, display, operation, false) == PlainError(display(e))
  {
  }

  /** A rate-limited lookup is thrown as `RateLimitedError` with `retryAfterSecs` set to the delay. */
  lemma RateLimitedCarriesDelay(n: u32, display: NativeError -> string, operation: string)
    ensures Throw(CdsiLookup(RateLimited(n)), display, operation, true)
         == Constructed(LibSignalError(display(CdsiLookup(RateLimited(n))), Some("RateLimitedError"), operation,
                                       Some(map["retryAfterSecs" := Number(n as int)])))
  {
  }

  /** A failed restore is thrown as `SvrRestoreFailed` with `triesRemaining` set to the count left. */
  lemma RestoreFailedCarriesTries(n: u32, display: NativeError -> string, operation: string)
    ensures Throw(Svr3(RestoreFailed(n)), display, operation, true)
         == Constructed(LibSignalError(display(Svr3(RestoreFailed(n))), Some("SvrRestoreFailed"), operation,
                                       Some(map["triesRemaining" := Number(n as int)])))
  {
  }

  /** An untrusted identity is thrown with `_addr` set to the address's name. */
  lemma UntrustedIdentityCarriesName(addr: ProtocolAddress, display: NativeError -> string, operation: string)
    ensures Throw(SignalProtocol(UntrustedIdentity(addr)), display, operation, true)
         == Constructed(LibSignalError(display(SignalProtocol(UntrustedIdentity(addr))), Some("UntrustedIdentity"),
                                       operation, Some(map["_addr" := Str(addr.name)])))
  {
  }

  /** A backup read error is thrown with its inner error's text and its unknown fields. */
  lemma BackupReadCarriesUnknownFields(r: ReadError, display: NativeError -> string, operation: string)
    ensures Throw(BackupRead(r), display, operation, true)
         == Constructed(LibSignalError(r.errorText, Some("BackupValidation"), operation,
                                       Some(map["unknownFields" := StringList(r.foundUnknownFields)])))
    ensures Throw(BackupRead(r), display, operation, false) == PlainError(r.errorText)
  {
  }

  /** An invalid URI is thrown as `InvalidUri` with its own text and no extra properties. */
  lemma InvalidUriThrow(detail: string, display: NativeError -> string, operation: string)
    ensures Throw(Uri(detail), display, operation, true)
         == Constructed(LibSignalError(display(Uri(detail)), Some("InvalidUri"), operation, None))
    ensures Throw(Uri(detail), display, operation, false) == PlainError(display(Uri(detail)))
  {
  }

  /** A cancellation is thrown as `Cancelled` with its own text and no extra properties. */
  lemma CancellationThrow(display: NativeError -> string, operation: string)
    ensures Throw(Cancellation, display, operation, true)
         == Constructed(LibSignalError(display(Cancellation), Some("Cancelled"), operation, None))
    ensures Throw(Cancellation, display, operation, false) == PlainError(display(Cancellation))
  {
  }

  /** A deregistered device is thrown as `DeviceDelinked`, not under its variant's name. */
  lemma DeviceDeregisteredThrow(display: NativeError -> string, operation: string)
    ensures Throw(ChatService(DeviceDeregistered), display, operation, true)
         == Constructed(LibSignalError(display(ChatService(DeviceDeregistered)), Some("DeviceDelinked"), operation, None))
  {
  }

  /** A pending host exception is passed on unchanged, whatever else is given. */
  lemma NeonThrowPassesThrough(display: NativeError -> string, operation: string, constructOk: bool)
    ensures Throw(NeonThrow, display, operation, constructOk) == Propagated
  {
  }

  /** A host callback's error, carried as a protocol error, is thrown as the base class. */
  lemma CallbackErrorIsUnclassified(func: string, err: string, display: NativeError -> string, operation: string)
    ensures Classify(SignalProtocol(JsErrorToRust(func, err))) == Some(Unclassified)
    ensures Throw(SignalProtocol(JsErrorToRust(func, err)), display, operation, true)
         == Constructed(LibSignalError(display(SignalProtocol(JsErrorToRust(func, err))), None, operation, None))
  {
  }

  /**
   * An io error throws the same thing whatever operation name or construction
   * outcome it is given, and exactly what its in-place take and rethrow give.
   */
  lemma IoThrowIgnoresOperation(io: Capture.IoErrorValue, display: NativeError -> string,
                                op1: string, op2: string, ok1: bool, ok2: bool)
    ensures Throw(StdIo(io), display, op1, ok1) == Throw(StdIo(io), display, op2, ok2)
    ensures Throw(StdIo(io), display, op1, ok1)
         == Capture.Rethrow(Capture.Taken(io.kind, io.custom), display(StdIo(io)))
  {
  }

  /** The extra-property keys each kind documents. */
  function KeysForKind(kind: Option<string>): set<string>
  {
    match kind
    case None => {}
    case Some(k) =>
      if k == "UntrustedIdentity" || k == "InvalidRegistrationId" then {"_addr"}
      else if k == "InvalidSenderKeySession" then {"distribution_id"}
      else if k == RateLimitedError then {"retryAfterSecs"}
      else if k == SvrRestoreFailed then {"triesRemaining"}
      else if k == "BackupValidation" then {"unknownFields"}
      else {}
  }

  /** The keys of a classification's extra properties (none when absent). */
  function ExtraKeys(c: Classification): set<string>
  {
    if c.extraProps.Some? then c.extraProps.value.Keys else {}
  }

  /** Every classification carries exactly the keys its kind documents. */
  lemma ExtraKeysFollowKind(e: NativeError)
    requires Classify(e).Some?
    ensures ExtraKeys(Classify(e).value) == KeysForKind(Classify(e).value.kind)
  {
  }

  /** So the key set of the extra properties is decided by the kind alone, never by the error. */
  lemma KindDeterminesExtraKeys(e1: NativeError, e2: NativeError)
    requires Classify(e1).Some? && Classify(e2).Some?
    requires Classify(e1).value.kind == Classify(e2).value.kind
    ensures ExtraKeys(Classify(e1).value) == ExtraKeys(Classify(e2).value)
  {
  }

  /**
   * The in-place throw of an owned io error gives what the total `Throw` gives
   * for that error as it was before its payload was taken.
   */
  method ThrowIoError(io: Capture.IoError, display: NativeError -> string, operation: string, constructOk: bool)
    returns (t: Thrown)
    modifies io
    ensures t == Throw(StdIo(Capture.IoErrorValue(io.kind, old(io.custom))), display, operation, constructOk)
    ensures io.custom == Capture.Remaining(io.kind, old(io.custom))
  {
    t := io.Throw(display(StdIo(Capture.IoErrorValue(io.kind, io.custom))));
  }
}
