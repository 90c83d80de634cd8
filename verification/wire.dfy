/** The shared wire vocabulary (packages/types/src/index.ts): the message
    kinds, the message envelope exchanged over the socket, the payloads the
    code puts in it, and the sign-up form schema. */
module Wire {
  import opened Base
  import opened Strokes

  /** `WsDataType`: each kind is encoded on the wire as its own name. */
  datatype Kind =
    | ConnectionReady | UserJoined | UserLeft | Draw | Update | CursorMove
    | StreamShape | StreamUpdate | Eraser | CloseRoom | Join | Leave
    | ExistingParticipants | ExistingShapes

  function Encode(k: Kind): string {
    match k
    case ConnectionReady => "CONNECTION_READY"
    case UserJoined => "USER_JOINED"
    case UserLeft => "USER_LEFT"
    case Draw => "DRAW"
    case Update => "UPDATE"
    case CursorMove => "CURSOR_MOVE"
    case StreamShape => "STREAM_SHAPE"
    case StreamUpdate => "STREAM_UPDATE"
    case Eraser => "ERASER"
    case CloseRoom => "CLOSE_ROOM"
    case Join => "JOIN"
    case Leave => "LEAVE"
    case ExistingParticipants => "EXISTING_PARTICIPANTS"
    case ExistingShapes => "EXISTING_SHAPES"
  }

  /** Every kind, in declaration order. */
  const AllKinds: seq<Kind> := [
    ConnectionReady, UserJoined, UserLeft, Draw, Update, CursorMove,
    StreamShape, StreamUpdate, Eraser, CloseRoom, Join, Leave,
    ExistingParticipants, ExistingShapes]

  /** Finds the kind among `ks` whose encoding is `s`. */
  function Lookup(s: string, ks: seq<Kind>): (r: Option<Kind>)
    ensures r.Some? ==> r.value in ks && Encode(r.value) == s
    ensures r.None? ==> forall i :: 0 <= i < |ks| ==> Encode(ks[i]) != s
  {
    if ks == [] then None
    else if Encode(ks[0]) == s then Some(ks[0])
    else Lookup(s, ks[1..])
  }

  /** The enum value a wire string denotes, if any. */
  function Decode(s: string): Option<Kind> {
    Lookup(s, AllKinds)
  }

  /** The position of a kind in `AllKinds`. */
  function IndexOf(k: Kind): (i: nat)
    ensures i < |AllKinds| && AllKinds[i] == k
  {
    match k
    case ConnectionReady => 0
    case UserJoined => 1
    case UserLeft => 2
    case Draw => 3
    case Update => 4
    case CursorMove => 5
    case StreamShape => 6
    case StreamUpdate => 7
    case Eraser => 8
    case CloseRoom => 9
    case Join => 10
    case Leave => 11
    case ExistingParticipants => 12
    case ExistingShapes => 13
  }

  /** There are exactly 14 kinds, all distinct, and the list covers the type. */
  lemma KindsAreFourteen()
    ensures |AllKinds| == 14
    ensures forall k: Kind :: k in AllKinds
    ensures forall i, j :: 0 <= i < j < |AllKinds| ==> AllKinds[i] != AllKinds[j]
  {
    forall k: Kind
      ensures k in AllKinds
    {
      assert AllKinds[IndexOf(k)] == k;
    }
  }

  /** Distinct kinds have distinct encodings. */
  lemma EncodeInjective(a: Kind, b: Kind)
    requires Encode(a) == Encode(b)
    ensures a == b
  {
  }

  /** Decoding inverts encoding. */
  lemma DecodeEncode(k: Kind)
    ensures Decode(Encode(k)) == Some(k)
  {
    var i := IndexOf(k);
    assert Encode(AllKinds[i]) == Encode(k);
    var r := Lookup(Encode(k), AllKinds);
    if r.Some? {
      EncodeInjective(r.value, k);
    }
  }

  /** Only encodings decode: a string decodes to `k` exactly when it is `k`'s name. */
  lemma DecodeOnlyNames(s: string, k: Kind)
    ensures Decode(s) == Some(k) <==> s == Encode(k)
  {
    if s == Encode(k) {
      DecodeEncode(k);
    }
  }

  /** The web client's signalling code names a kind `SIGNAL`; it is not
      one of the 14, so the enum member it refers to is `undefined`. */
  lemma SignalIsNotAKind()
    ensures forall k: Kind :: Encode(k) != "SIGNAL"
    ensures Decode("SIGNAL") == None
  {
    forall k: Kind
      ensures Encode(k) != "SIGNAL"
    {
      NotSignal(k);
    }
    var r := Lookup("SIGNAL", AllKinds);
    if r.Some? {
      NotSignal(r.value);
    }
  }

  lemma NotSignal(k: Kind)
    ensures Encode(k) != "SIGNAL"
  {
    var e := Encode(k);
    if |e| == 6 {
      assert e[0] != 'S';
    }
  }

  datatype Participant = Participant(userId: string, userName: string)

  /** A WebRTC session description or ICE candidate; contents are opaque. */
  datatype SignalData = SignalData(sdpType: Option<string>, sdp: Option<string>, candidate: Option<string>)

  /** The payloads the code places in an envelope's `payload` field. */
  datatype Payload =
    | StrokePayload(stroke: Stroke)
    | RoleInfo(isGuest: bool, isAuthenticated: bool)
    | SignalPayload(from: Option<string>, data: Option<SignalData>)

  /** A message as an object: each field absent, `null`, or a value.
      `isGuest` is not part of the declared type but the relay sets it on
      its connection-ready notice. */
  datatype Envelope = Envelope(
    kind: Field<string>,
    userId: Field<string>,
    userName: Field<string>,
    roomId: Field<string>,
    message: Field<string>,
    timestamp: Field<string>,
    participants: Field<seq<Participant>>,
    id: Field<string>,
    connectionId: Field<string>,
    isOwner: Field<bool>,
    isGuest: Field<bool>,
    payload: Field<Payload>)

  /** An envelope with every field absent. */
  const Empty := Envelope(Absent, Absent, Absent, Absent, Absent, Absent, Absent, Absent, Absent, Absent, Absent, Absent)

  /** The declared `WebSocketMessage` type: a kind from the enum, a user and a
      room are required, the text and the participant list must be present
      though they may be `null`, and the rest is optional. A message of this
      type therefore names exactly one kind. */
  predicate IsWebSocketMessage(e: Envelope)
    ensures IsWebSocketMessage(e) ==> e.kind.Value? && Decode(e.kind.value).Some? && HasKind(e, Decode(e.kind.value).value)
  {
    && e.kind.Value? && Decode(e.kind.value).Some?
    && e.userId.Value?
    && e.roomId.Value?
    && !e.message.Absent?
    && !e.participants.Absent?
  }

  /** Whether an envelope carries the given kind on the wire. */
  predicate HasKind(e: Envelope, k: Kind) {
    e.kind == Value(Encode(k))
  }

  /** A frame on the wire: the text of a JSON object, or text that does not parse. */
  datatype Frame = Json(msg: Envelope) | Garbage

  function Serialize(e: Envelope): Frame {
    Json(e)
  }

  function Parse(f: Frame): Option<Envelope> {
    match f
    case Json(e) => Some(e)
    case Garbage => None
  }

  /** `SignUpFormSchema` input as received: a field may be missing or not a string. */
  datatype SignUpInput = SignUpInput(email: Option<string>, password: Option<string>, name: Option<string>)

  /** The validated form. */
  datatype SignUpForm = SignUpForm(email: string, password: string, name: string)

  /** A simplified e-mail shape: one `@` with a non-empty local part before it
      and a dotted, `@`-free domain after it. */
  predicate WellFormedEmail(s: string) {
    exists i | 0 < i < |s| :: s[i] == '@' && '@' !in s[i+1..] && '.' in s[i+1..] && '@' !in s[..i]
  }

  /** The raw input that carries a form's fields. */
  function FormInput(f: SignUpForm): SignUpInput {
    SignUpInput(Some(f.email), Some(f.password), Some(f.name))
  }

  /** `SignUpFormSchema.safeParse`. */
  function ParseSignUp(input: SignUpInput): (r: Option<SignUpForm>)
    ensures r.Some? <==> input.email.Some? && input.password.Some? && input.name.Some? && WellFormedEmail(input.email.value)
    ensures r.Some? ==> r.value == SignUpForm(input.email.value, input.password.value, input.name.value)
  {
    if input.email.Some? && input.password.Some? && input.name.Some? && WellFormedEmail(input.email.value)
    then Some(SignUpForm(input.email.value, input.password.value, input.name.value))
    else None
  }

  /** Round trip: the schema accepts exactly the inputs that carry some form
      with a well-formed e-mail, and gives that form back unchanged. */
  lemma ParseSignUpRoundTrip(input: SignUpInput, f: SignUpForm)
    ensures ParseSignUp(input) == Some(f) <==> input == FormInput(f) && WellFormedEmail(f.email)
    ensures ParseSignUp(input).Some? ==> input == FormInput(ParseSignUp(input).value)
  {
  }
}
