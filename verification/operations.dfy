/** Operation bodies: schemas, validity, and their canonical encodings. */
module Operations {
  import opened Base
  import opened Tables
  import opened Cbor
  import opened Fields

  const MAX_MASTER_PASSWORD_BYTES: nat := 1024
  const MAX_SERVICE_NAME_BYTES: nat := 256
  const MAX_ORIGIN_BYTES: nat := 2048
  const MAX_USERNAME_BYTES: nat := 1024
  const MAX_PASSWORD_BYTES: nat := 16384
  const MAX_PASSKEY_ENCODED_REQUEST_BYTES: nat := 49152
  const MAX_PASSKEY_SIGNATURE_BYTES: nat := 2048
  const CREDENTIAL_ID_BYTES: nat := 32
  const CTAP2_CBOR_REQUEST_TYPE: nat := 1
  const MAX_LIST_PAGE_SIZE: nat := 100
  const MAX_REQUEST_BODY_BYTES: nat := MAX_PAYLOAD_BYTES - 128
  const MAX_RESPONSE_BODY_BYTES: nat := MAX_PAYLOAD_BYTES - 96
  const I32_MAX: nat := 0x7FFF_FFFF

  type Bytes = seq<byte>

  datatype AccountFields = AccountFields(service: Bytes, origin: Bytes, username: Bytes, password: Bytes)

  datatype RequestProof = RequestProof(transaction: Bytes, requestType: nat, signature: Bytes, encoded: Bytes)

  datatype Proof = Proof(request: RequestProof, challenge: Bytes, verification: Bytes)

  datatype Context = Context(requestId: Bytes, tab: nat, document: Bytes, top: Bytes, frame: Bytes)

  datatype Selection = Selection(token: Bytes, record: Bytes, revision: nat)

  /** One body; operations with the same body share a constructor. */
  datatype Request =
    | Bare(op: OperationCode)
    | WithPassword(op: OperationCode, password: Bytes)
    | ListPage(offset: nat, limit: nat)
    | ById(op: OperationCode, id: Bytes)
    | Add(fields: AccountFields)
    | Update(id: Bytes, fields: AccountFields)
    | WithWindow(op: OperationCode, window: nat)
    | Matches(context: Context)
    | Selected(context: Context, selection: Selection)
    | Make(proof: Proof)
    | WithProof(op: OperationCode, proof: Proof, credential: Bytes)
    | Remove(credential: Bytes)
    | Lookup(request: RequestProof)

  function OpOf(r: Request): OperationCode {
    match r
    case Bare(op) => op
    case WithPassword(op, _) => op
    case ListPage(_, _) => ListAccountSummaries
    case ById(op, _) => op
    case Add(_) => AddAccount
    case Update(_, _) => UpdateAccount
    case WithWindow(op, _) => op
    case Matches(_) => ExactOriginMatches
    case Selected(_, _) => GetSelectedCredential
    case Make(_) => MakePasskey
    case WithProof(op, _, _) => op
    case Remove(_) => DeletePasskey
    case Lookup(_) => ListPasskeysForAssertion
  }

  // ------------------------------------------------------------ well-formed values

  predicate Identifier(b: Bytes, size: nat) { |b| == size }

  predicate NonZero(b: Bytes) { exists i :: 0 <= i < |b| && b[i] != 0 }

  predicate BoundedText(t: Bytes, maximum: nat) { |t| <= maximum && IsUtf8(t) }

  predicate BoundedBlob(b: Bytes, maximum: nat) { 1 <= |b| <= maximum }

  predicate ValidFields(f: AccountFields) {
    && BoundedText(f.service, MAX_SERVICE_NAME_BYTES) && BoundedText(f.origin, MAX_ORIGIN_BYTES)
    && BoundedText(f.username, MAX_USERNAME_BYTES) && BoundedText(f.password, MAX_PASSWORD_BYTES)
  }

  predicate ValidRequestProof(p: RequestProof) {
    && Identifier(p.transaction, 16) && NonZero(p.transaction) && p.requestType == CTAP2_CBOR_REQUEST_TYPE
    && BoundedBlob(p.signature, MAX_PASSKEY_SIGNATURE_BYTES)
    && BoundedBlob(p.encoded, MAX_PASSKEY_ENCODED_REQUEST_BYTES)
  }

  predicate ValidProof(p: Proof) {
    && ValidRequestProof(p.request) && Identifier(p.challenge, 16) && NonZero(p.challenge)
    && BoundedBlob(p.verification, MAX_PASSKEY_SIGNATURE_BYTES)
  }

  predicate ValidContext(c: Context) {
    && Identifier(c.requestId, 16) && NonZero(c.requestId) && Identifier(c.document, 16) && NonZero(c.document)
    && c.tab <= I32_MAX && c.top != [] && c.top == c.frame && BoundedText(c.top, MAX_ORIGIN_BYTES)
  }

  predicate ValidSelection(s: Selection) {
    && Identifier(s.token, 16) && NonZero(s.token) && Identifier(s.record, 16) && NonZero(s.record)
    && 1 <= s.revision <= U64_MAX
  }

  /** What the constructors and the type system guarantee of a request value. */
  predicate WellFormed(r: Request) {
    match r
    case Bare(op) => op == Status || op == Lock || op == RemoveWindowsHello || op == ListPasskeys
    case WithPassword(op, p) =>
      (op == CreateVault || op == UnlockMasterPassword) && BoundedText(p, MAX_MASTER_PASSWORD_BYTES)
    case ListPage(offset, limit) => offset <= U32_MAX && 1 <= limit <= MAX_LIST_PAGE_SIZE
    case ById(op, id) => (op == GetAccount || op == DeleteAccount) && Identifier(id, 16)
    case Add(f) => ValidFields(f)
    case Update(id, f) => Identifier(id, 16) && ValidFields(f)
    case WithWindow(op, w) => (op == EnrollWindowsHello || op == UnlockWindowsHello) && 1 <= w <= U64_MAX
    case Matches(c) => ValidContext(c)
    case Selected(c, s) => ValidContext(c) && ValidSelection(s)
    case Make(p) => ValidProof(p)
    case WithProof(op, p, c) =>
      (op == GetPasskeyAssertion || op == ConfirmPasskeyCreation || op == RollbackPasskeyCreation)
      && ValidProof(p) && Identifier(c, CREDENTIAL_ID_BYTES)
    case Remove(c) => Identifier(c, CREDENTIAL_ID_BYTES)
    case Lookup(p) => ValidRequestProof(p)
  }

  // ------------------------------------------------------------------------ fields

  function AccountPart(f: AccountFields): seq<Field> {
    [Text(f.service), Text(f.origin), Text(f.username), Text(f.password)]
  }

  function RequestProofPart(p: RequestProof): seq<Field> {
    [Blob(p.transaction), Int(p.requestType), Blob(p.signature), Blob(p.encoded)]
  }

  function ProofPart(p: Proof): seq<Field> {
    RequestProofPart(p.request) + [Blob(p.challenge), Blob(p.verification)]
  }

  function ContextPart(c: Context): seq<Field> {
    [Arr(6), Blob(c.requestId), Int(c.tab), Int(0), Blob(c.document), Text(c.top), Text(c.frame)]
  }

  function SelectionPart(s: Selection): seq<Field> {
    [Arr(3), Blob(s.token), Blob(s.record), Int(s.revision)]
  }

  function FieldsOf(r: Request): seq<Field> {
    match r
    case Bare(_) => [Arr(0)]
    case WithPassword(_, p) => [Arr(1), Text(p)]
    case ListPage(offset, limit) => [Arr(2), Int(offset), Int(limit)]
    case ById(_, id) => [Arr(1), Blob(id)]
    case Add(f) => [Arr(4)] + AccountPart(f)
    case Update(id, f) => [Arr(5), Blob(id)] + AccountPart(f)
    case WithWindow(_, w) => [Arr(1), Int(w)]
    case Matches(c) => [Arr(1)] + ContextPart(c)
    case Selected(c, s) => [Arr(2)] + ContextPart(c) + SelectionPart(s)
    case Make(p) => [Arr(6)] + ProofPart(p)
    case WithProof(_, p, c) => [Arr(7)] + ProofPart(p) + [Blob(c)]
    case Remove(c) => [Arr(1), Blob(c)]
    case Lookup(p) => [Arr(4)] + RequestProofPart(p)
  }

  const ACCOUNT_SCHEMA := [
    KText(MAX_SERVICE_NAME_BYTES), KText(MAX_ORIGIN_BYTES), KText(MAX_USERNAME_BYTES), KText(MAX_PASSWORD_BYTES)]
  const REQUEST_PROOF_SCHEMA := [
    KFixed(16), KInt(255), KBlob(MAX_PASSKEY_SIGNATURE_BYTES), KBlob(MAX_PASSKEY_ENCODED_REQUEST_BYTES)]
  const PROOF_SCHEMA := REQUEST_PROOF_SCHEMA + [KFixed(16), KBlob(MAX_PASSKEY_SIGNATURE_BYTES)]
  const CONTEXT_SCHEMA := [
    KArr(6), KFixed(16), KInt(U32_MAX), KInt(U32_MAX), KFixed(16), KText(MAX_ORIGIN_BYTES), KText(MAX_ORIGIN_BYTES)]
  const SELECTION_SCHEMA := [KArr(3), KFixed(16), KFixed(16), KInt(U64_MAX)]

  /** What the decoder of an operation reads, in order; None for reserved operations. */
  function Schema(op: OperationCode): Option<seq<Kind>> {
    match op
    case Status | Lock | RemoveWindowsHello | ListPasskeys => Some([KArr(0)])
    case CreateVault | UnlockMasterPassword => Some([KArr(1), KText(MAX_MASTER_PASSWORD_BYTES)])
    case ListAccountSummaries => Some([KArr(2), KInt(U32_MAX), KInt(U16_MAX)])
    case GetAccount | DeleteAccount => Some([KArr(1), KFixed(16)])
    case AddAccount => Some([KArr(4)] + ACCOUNT_SCHEMA)
    case UpdateAccount => Some([KArr(5), KFixed(16)] + ACCOUNT_SCHEMA)
    case EnrollWindowsHello | UnlockWindowsHello => Some([KArr(1), KInt(U64_MAX)])
    case ExactOriginMatches => Some([KArr(1)] + CONTEXT_SCHEMA)
    case GetSelectedCredential => Some([KArr(2)] + CONTEXT_SCHEMA + SELECTION_SCHEMA)
    case MakePasskey => Some([KArr(6)] + PROOF_SCHEMA)
    case GetPasskeyAssertion | ConfirmPasskeyCreation | RollbackPasskeyCreation =>
      Some([KArr(7)] + PROOF_SCHEMA + [KFixed(CREDENTIAL_ID_BYTES)])
    case DeletePasskey => Some([KArr(1), KFixed(CREDENTIAL_ID_BYTES)])
    case ListPasskeysForAssertion => Some([KArr(4)] + REQUEST_PROOF_SCHEMA)
    case CaptureCredential | UpdateCredential => None
  }

  // -------------------------------------------------------------- building values

  function B(f: Field): Bytes { if f.Blob? || f.Text? then f.bytes else [] }

  function N(f: Field): nat { if f.Int? then f.value else 0 }

  function AccountFrom(fs: seq<Field>): AccountFields
    requires |fs| == 4
  {
    AccountFields(B(fs[0]), B(fs[1]), B(fs[2]), B(fs[3]))
  }

  function RequestProofFrom(fs: seq<Field>): RequestProof
    requires |fs| == 4
  {
    RequestProof(B(fs[0]), N(fs[1]), B(fs[2]), B(fs[3]))
  }

  function ProofFrom(fs: seq<Field>): Proof
    requires |fs| == 6
  {
    Proof(RequestProofFrom(fs[..4]), B(fs[4]), B(fs[5]))
  }

  function ContextFrom(fs: seq<Field>): Context
    requires |fs| == 7
  {
    Context(B(fs[1]), N(fs[2]), B(fs[4]), B(fs[5]), B(fs[6]))
  }

  function SelectionFrom(fs: seq<Field>): Selection
    requires |fs| == 4
  {
    Selection(B(fs[1]), B(fs[2]), N(fs[3]))
  }

  /** The value read from a schema's fields, before its constructor checks it. */
  function Candidate(op: OperationCode, fs: seq<Field>): (r: Request)
    requires Schema(op).Some? && |fs| == |Schema(op).value|
    ensures OpOf(r) == op
  {
    match op
    case Status | Lock | RemoveWindowsHello | ListPasskeys => Bare(op)
    case CreateVault | UnlockMasterPassword => WithPassword(op, B(fs[1]))
    case ListAccountSummaries => ListPage(N(fs[1]), N(fs[2]))
    case GetAccount | DeleteAccount => ById(op, B(fs[1]))
    case AddAccount => Add(AccountFrom(fs[1..]))
    case UpdateAccount => Update(B(fs[1]), AccountFrom(fs[2..]))
    case EnrollWindowsHello | UnlockWindowsHello => WithWindow(op, N(fs[1]))
    case ExactOriginMatches => Matches(ContextFrom(fs[1..]))
    case GetSelectedCredential => Selected(ContextFrom(fs[1..8]), SelectionFrom(fs[8..]))
    case MakePasskey => Make(ProofFrom(fs[1..]))
    case GetPasskeyAssertion | ConfirmPasskeyCreation | RollbackPasskeyCreation =>
      WithProof(op, ProofFrom(fs[1..7]), B(fs[7]))
    case DeletePasskey => Remove(B(fs[1]))
    case ListPasskeysForAssertion => Lookup(RequestProofFrom(fs[1..]))
  }

  /** Embedded frames are refused: the frame number read must be zero. */
  predicate TopFrame(op: OperationCode, fs: seq<Field>) {
    (op == ExactOriginMatches || op == GetSelectedCredential) && |fs| > 4 ==> N(fs[4]) == 0
  }

  // ----------------------------------------------------------- encoding, decoding

  datatype Reply = Accepted(request: Request) | Unsupported | Rejected

  /** The body, refused for an invalid password, page or window, or beyond the body limit. */
  function EncodeRequest(r: Request): Option<Bytes> {
    if r.WithPassword? && |r.password| > MAX_MASTER_PASSWORD_BYTES then None
    else if r.ListPage? && (r.limit == 0 || r.limit > MAX_LIST_PAGE_SIZE) then None
    else if r.WithWindow? && r.window == 0 then None
    else if |Encode(FieldsOf(r))| > MAX_REQUEST_BODY_BYTES then None
    else Some(Encode(FieldsOf(r)))
  }

  function DecodeRequest(op: OperationCode, bytes: Bytes): Reply {
    var schema := Schema(op);
    if |bytes| > MAX_PAYLOAD_BYTES then Rejected
    else if schema.None? then Unsupported
    else
      var d := DecodeAll(schema.value, bytes);
      if d.None? || |d.value.0| != |schema.value| || d.value.1 != [] then Rejected
      else
        var r := Candidate(op, d.value.0);
        if TopFrame(op, d.value.0) && WellFormed(r) && EncodeRequest(r) == Some(bytes) then Accepted(r) else Rejected
  }

  // --------------------------------------------------------------------- the codec

  /** The fields of a request fit its operation's schema and read back as the request. */
  predicate Faithful(r: Request) {
    && Schema(OpOf(r)).Some? && AllFit(FieldsOf(r), Schema(OpOf(r)).value)
    && Candidate(OpOf(r), FieldsOf(r)) == r && TopFrame(OpOf(r), FieldsOf(r))
  }

  lemma FitAppends(fs: seq<Field>, gs: seq<Field>, ks: seq<Kind>, ls: seq<Kind>)
    requires AllFit(fs, ks) && AllFit(gs, ls)
    ensures AllFit(fs + gs, ks + ls)
  {
  }

  lemma SimpleFaithful(r: Request)
    requires WellFormed(r) && (r.Bare? || r.WithPassword? || r.ListPage? || r.ById? || r.WithWindow? || r.Remove?)
    ensures Faithful(r)
  {
    if r.Bare? { return; }
    if r.WithPassword? { return; }
    if r.ListPage? { return; }
    if r.ById? { return; }
    if r.WithWindow? { return; }
  }

  lemma AccountFits(f: AccountFields)
    requires ValidFields(f)
    ensures AllFit(AccountPart(f), ACCOUNT_SCHEMA) && AccountFrom(AccountPart(f)) == f
  {
  }

  lemma RequestProofFits(p: RequestProof)
    requires ValidRequestProof(p)
    ensures AllFit(RequestProofPart(p), REQUEST_PROOF_SCHEMA) && RequestProofFrom(RequestProofPart(p)) == p
  {
  }

  lemma AddFaithful(f: AccountFields)
    requires ValidFields(f)
    ensures Faithful(Add(f))
  {
    AccountFits(f);
    FitAppends([Arr(4)], AccountPart(f), [KArr(4)], ACCOUNT_SCHEMA);
    assert FieldsOf(Add(f))[1..] == AccountPart(f);
  }

  lemma UpdateFaithful(id: Bytes, f: AccountFields)
    requires Identifier(id, 16) && ValidFields(f)
    ensures Faithful(Update(id, f))
  {
    AccountFits(f);
    FitAppends([Arr(5), Blob(id)], AccountPart(f), [KArr(5), KFixed(16)], ACCOUNT_SCHEMA);
    assert FieldsOf(Update(id, f))[2..] == AccountPart(f);
  }

  lemma ContextFits(c: Context)
    requires ValidContext(c)
    ensures AllFit(ContextPart(c), CONTEXT_SCHEMA) && ContextFrom(ContextPart(c)) == c
  {
  }

  lemma MatchesFaithful(c: Context)
    requires ValidContext(c)
    ensures Faithful(Matches(c))
  {
    ContextFits(c);
    FitAppends([Arr(1)], ContextPart(c), [KArr(1)], CONTEXT_SCHEMA);
    assert FieldsOf(Matches(c))[1..] == ContextPart(c);
    assert FieldsOf(Matches(c))[4] == Int(0);
  }

  lemma SelectedFaithful(c: Context, s: Selection)
    requires ValidContext(c) && ValidSelection(s)
    ensures Faithful(Selected(c, s))
  {
    ContextFits(c);
    var start := [Arr(2)] + ContextPart(c);
    FitAppends([Arr(2)], ContextPart(c), [KArr(2)], CONTEXT_SCHEMA);
    FitAppends(start, SelectionPart(s), [KArr(2)] + CONTEXT_SCHEMA, SELECTION_SCHEMA);
    var fs := FieldsOf(Selected(c, s));
    assert fs == start + SelectionPart(s);
    assert fs[1..8] == ContextPart(c) && fs[8..] == SelectionPart(s) && fs[4] == Int(0);
  }

  lemma ProofFits(p: Proof)
    requires ValidProof(p)
    ensures AllFit(ProofPart(p), PROOF_SCHEMA) && ProofFrom(ProofPart(p)) == p
  {
    RequestProofFits(p.request);
    FitAppends(RequestProofPart(p.request), [Blob(p.challenge), Blob(p.verification)],
               REQUEST_PROOF_SCHEMA, [KFixed(16), KBlob(MAX_PASSKEY_SIGNATURE_BYTES)]);
    assert ProofPart(p)[..4] == RequestProofPart(p.request);
  }

  lemma MakeFaithful(p: Proof)
    requires ValidProof(p)
    ensures Faithful(Make(p))
  {
    ProofFits(p);
    FitAppends([Arr(6)], ProofPart(p), [KArr(6)], PROOF_SCHEMA);
    assert FieldsOf(Make(p))[1..] == ProofPart(p);
  }

  lemma WithProofFaithful(op: OperationCode, p: Proof, c: Bytes)
    requires WellFormed(WithProof(op, p, c))
    ensures Faithful(WithProof(op, p, c))
  {
    ProofFits(p);
    var start := [Arr(7)] + ProofPart(p);
    FitAppends([Arr(7)], ProofPart(p), [KArr(7)], PROOF_SCHEMA);
    FitAppends(start, [Blob(c)], [KArr(7)] + PROOF_SCHEMA, [KFixed(CREDENTIAL_ID_BYTES)]);
    var fs := FieldsOf(WithProof(op, p, c));
    assert fs == start + [Blob(c)];
    assert fs[1..7] == ProofPart(p);
  }

  lemma LookupFaithful(p: RequestProof)
    requires ValidRequestProof(p)
    ensures Faithful(Lookup(p))
  {
    RequestProofFits(p);
    FitAppends([Arr(4)], RequestProofPart(p), [KArr(4)], REQUEST_PROOF_SCHEMA);
    assert FieldsOf(Lookup(p))[1..] == RequestProofPart(p);
  }

  lemma EveryRequestIsFaithful(r: Request)
    requires WellFormed(r)
    ensures Faithful(r)
  {
    match r
    case Add(f) => AddFaithful(f);
    case Update(id, f) => UpdateFaithful(id, f);
    case Matches(c) => MatchesFaithful(c);
    case Selected(c, s) => SelectedFaithful(c, s);
    case Make(p) => MakeFaithful(p);
    case WithProof(op, p, c) => WithProofFaithful(op, p, c);
    case Lookup(p) => LookupFaithful(p);
    case _ => SimpleFaithful(r);
  }

  lemma {:induction false} LongestAppends(ks: seq<Kind>, ls: seq<Kind>)
    ensures LongestAll(ks + ls) == LongestAll(ks) + LongestAll(ls)
  {
    if ks == [] {
      assert ks + ls == ls;
    } else {
      assert (ks + ls)[1..] == ks[1..] + ls;
      LongestAppends(ks[1..], ls);
    }
  }

  lemma ContextSize()
    ensures LongestAll(CONTEXT_SCHEMA) == 1 + 17 + 5 + 5 + 17 + 2051 + 2051
  {
    var front := [KArr(6), KFixed(16), KInt(U32_MAX), KInt(U32_MAX)];
    var back := [KFixed(16), KText(MAX_ORIGIN_BYTES), KText(MAX_ORIGIN_BYTES)];
    assert CONTEXT_SCHEMA == front + back;
    LongestAppends(front, back);
    FourKinds(KArr(6), KFixed(16), KInt(U32_MAX), KInt(U32_MAX));
    ThreeKinds(KFixed(16), KText(MAX_ORIGIN_BYTES), KText(MAX_ORIGIN_BYTES));
  }

  lemma ProofSize()
    ensures LongestAll(REQUEST_PROOF_SCHEMA) == 17 + 2 + 2051 + 49155
    ensures LongestAll(PROOF_SCHEMA) == LongestAll(REQUEST_PROOF_SCHEMA) + 17 + 2051
  {
    FourKinds(KFixed(16), KInt(255), KBlob(MAX_PASSKEY_SIGNATURE_BYTES), KBlob(MAX_PASSKEY_ENCODED_REQUEST_BYTES));
    TwoKinds(KFixed(16), KBlob(MAX_PASSKEY_SIGNATURE_BYTES));
    LongestAppends(REQUEST_PROOF_SCHEMA, [KFixed(16), KBlob(MAX_PASSKEY_SIGNATURE_BYTES)]);
  }

  /** The bytes the schemas' parts can take. */
  lemma PartSizes()
    ensures LongestAll(ACCOUNT_SCHEMA) == 259 + 2051 + 1027 + 16387
    ensures LongestAll(REQUEST_PROOF_SCHEMA) == 17 + 2 + 2051 + 49155
    ensures LongestAll(PROOF_SCHEMA) == LongestAll(REQUEST_PROOF_SCHEMA) + 17 + 2051
    ensures LongestAll(CONTEXT_SCHEMA) == 1 + 17 + 5 + 5 + 17 + 2051 + 2051
    ensures LongestAll(SELECTION_SCHEMA) == 1 + 17 + 17 + 9
  {
    FourKinds(KText(MAX_SERVICE_NAME_BYTES), KText(MAX_ORIGIN_BYTES), KText(MAX_USERNAME_BYTES), KText(MAX_PASSWORD_BYTES));
    FourKinds(KArr(3), KFixed(16), KFixed(16), KInt(U64_MAX));
    ProofSize();
    ContextSize();
  }

  lemma TwoKinds(a: Kind, b: Kind)
    ensures LongestAll([a]) == Longest(a) && LongestAll([a, b]) == Longest(a) + Longest(b)
  {
    assert LongestAll([b]) == Longest(b) + LongestAll([]);
    assert LongestAll([a]) == Longest(a) + LongestAll([]);
    assert [a, b][1..] == [b];
  }

  lemma ThreeKinds(a: Kind, b: Kind, c: Kind)
    ensures LongestAll([a, b, c]) == Longest(a) + Longest(b) + Longest(c)
  {
    assert [a, b, c][1..] == [b, c];
    TwoKinds(b, c);
  }

  lemma FourKinds(a: Kind, b: Kind, c: Kind, d: Kind)
    ensures LongestAll([a, b, c, d]) == Longest(a) + Longest(b) + Longest(c) + Longest(d)
  {
    assert [a, b, c, d][1..] == [b, c, d];
    ThreeKinds(b, c, d);
  }

  lemma PasskeySchemaSize(op: OperationCode)
    requires op in {MakePasskey, GetPasskeyAssertion, ConfirmPasskeyCreation, RollbackPasskeyCreation, ListPasskeysForAssertion}
    ensures LongestAll(Schema(op).value) <= MAX_REQUEST_BODY_BYTES
  {
    PartSizes();
    TwoKinds(KArr(6), KArr(6));
    TwoKinds(KArr(7), KArr(7));
    TwoKinds(KArr(4), KArr(4));
    TwoKinds(KFixed(CREDENTIAL_ID_BYTES), KArr(7));
    LongestAppends([KArr(6)], PROOF_SCHEMA);
    LongestAppends([KArr(7)], PROOF_SCHEMA);
    LongestAppends([KArr(7)] + PROOF_SCHEMA, [KFixed(CREDENTIAL_ID_BYTES)]);
    LongestAppends([KArr(4)], REQUEST_PROOF_SCHEMA);
  }

  lemma AccountSchemaSize(op: OperationCode)
    requires op == AddAccount || op == UpdateAccount
    ensures LongestAll(Schema(op).value) <= MAX_REQUEST_BODY_BYTES
  {
    PartSizes();
    TwoKinds(KArr(4), KArr(4));
    TwoKinds(KArr(5), KFixed(16));
    LongestAppends([KArr(4)], ACCOUNT_SCHEMA);
    LongestAppends([KArr(5), KFixed(16)], ACCOUNT_SCHEMA);
  }

  lemma BrowserSchemaSize(op: OperationCode)
    requires op == ExactOriginMatches || op == GetSelectedCredential
    ensures LongestAll(Schema(op).value) <= MAX_REQUEST_BODY_BYTES
  {
    PartSizes();
    TwoKinds(KArr(1), KArr(1));
    TwoKinds(KArr(2), KArr(2));
    LongestAppends([KArr(1)], CONTEXT_SCHEMA);
    LongestAppends([KArr(2)], CONTEXT_SCHEMA);
    LongestAppends([KArr(2)] + CONTEXT_SCHEMA, SELECTION_SCHEMA);
  }

  lemma SchemaSize(op: OperationCode)
    requires Schema(op).Some?
    ensures LongestAll(Schema(op).value) <= MAX_REQUEST_BODY_BYTES
  {
    match op
    case Status | Lock | RemoveWindowsHello | ListPasskeys => TwoKinds(KArr(0), KArr(0));
    case CreateVault | UnlockMasterPassword => TwoKinds(KArr(1), KText(MAX_MASTER_PASSWORD_BYTES));
    case ListAccountSummaries => ThreeKinds(KArr(2), KInt(U32_MAX), KInt(U16_MAX));
    case GetAccount | DeleteAccount => TwoKinds(KArr(1), KFixed(16));
    case EnrollWindowsHello | UnlockWindowsHello => TwoKinds(KArr(1), KInt(U64_MAX));
    case DeletePasskey => TwoKinds(KArr(1), KFixed(CREDENTIAL_ID_BYTES));
    case AddAccount | UpdateAccount => AccountSchemaSize(op);
    case ExactOriginMatches | GetSelectedCredential => BrowserSchemaSize(op);
    case MakePasskey | GetPasskeyAssertion | ConfirmPasskeyCreation | RollbackPasskeyCreation
       | ListPasskeysForAssertion => PasskeySchemaSize(op);
  }

  /** Every well-formed request encodes within the body limit, without a writer overflow. */
  lemma RequestEncodes(r: Request)
    requires WellFormed(r)
    ensures EncodeRequest(r) == Some(Encode(FieldsOf(r)))
    ensures |Encode(FieldsOf(r))| <= MAX_REQUEST_BODY_BYTES < MAX_PAYLOAD_BYTES
  {
    EveryRequestIsFaithful(r);
    EncodingIsBounded(FieldsOf(r), Schema(OpOf(r)).value);
    SchemaSize(OpOf(r));
  }

  lemma EncodedIsAccepted(r: Request)
    requires WellFormed(r)
    ensures DecodeRequest(OpOf(r), Encode(FieldsOf(r))) == Accepted(r)
  {
    var bytes := Encode(FieldsOf(r));
    RequestEncodes(r);
    EveryRequestIsFaithful(r);
    DecodeEncoded(Schema(OpOf(r)).value, FieldsOf(r), []);
    assert bytes + [] == bytes;
  }

  /**
   * The codec: a body is accepted under an operation exactly when it is the encoding of the
   * well-formed request returned. So decoding undoes encoding, and encodings are unique.
   */
  lemma RequestCodec(op: OperationCode, bytes: Bytes, r: Request)
    ensures DecodeRequest(op, bytes) == Accepted(r) <==>
              WellFormed(r) && OpOf(r) == op && EncodeRequest(r) == Some(bytes)
  {
    if WellFormed(r) {
      RequestEncodes(r);
      EncodedIsAccepted(r);
    }
  }

  /** Reserved operations have no schema; everything else is accepted or rejected. */
  lemma UnsupportedOperations(op: OperationCode, bytes: Bytes)
    requires |bytes| <= MAX_PAYLOAD_BYTES
    ensures DecodeRequest(op, bytes) == Unsupported <==> op == CaptureCredential || op == UpdateCredential
  {
  }
}
