/** Resume tokens: issuing, decoding, and binding a token to one request and one run. */
module ResumeToken {
  import opened Prelude
  import opened Text
  import Base64Url

  type Bytes = seq<Base64Url.Byte>

  /** The signed payload; a missing text is empty and a missing number zero, as the reader treats them. */
  datatype Claims = Claims(
    v: int,
    kid: string,
    conversationId: string,
    runId: string,
    executionThreadId: string,
    checkpointNamespace: string,
    stateSchemaVersion: int,
    requestHash: string,
    requestHashVersion: int,
    resumeTokenVersion: int,
    iat: int,
    exp: int)

  datatype Json = Malformed | NotAnObject | Object(claims: Claims)

  /** JSON, HMAC-SHA256 and UUID syntax, as functions of their own. */
  datatype Primitives = Primitives(
    dumps: Claims -> Bytes,
    loads: Bytes -> Json,
    mac: (Bytes, string) -> Bytes,
    isUuid: string -> bool)
  {
    ghost predicate JsonRoundTrips() {
      forall c :: loads(dumps(c)) == Object(c)
    }
  }

  /** The configured service; `keys` in the ring's own order. */
  datatype Service = Service(
    ttl: int,
    checkpointNamespace: string,
    stateSchemaVersion: int,
    requestHashVersion: int,
    activeKeyId: string,
    keys: seq<(string, Bytes)>)
  {
    predicate Usable() {
      && Plain(activeKeyId)
      && (exists k :: 0 <= k < |keys| && keys[k].0 == activeKeyId)
      && forall j, k :: 0 <= j < k < |keys| ==> keys[j].0 != keys[k].0
    }
  }

  datatype Identity = Identity(
    conversationId: string,
    runId: string,
    executionThreadId: string,
    checkpointNamespace: string,
    stateSchemaVersion: int,
    requestHash: string,
    requestHashVersion: int,
    resumeTokenVersion: int,
    keyId: string,
    resumeRequested: bool,
    resumed: bool,
    clientSuppliedRunId: bool)

  /** A request by its supplied ids (empty when absent) and the two hashes of its content. */
  datatype Request = Request(conversationId: string, threadId: string, runId: string, hash: string, legacyHash: string)

  datatype Refusal = Invalid | Expired | Incompatible

  // ---- Issuing ----

  /** The identity of a first request whose ids are all decided. */
  function Normalize(svc: Service, request: Request, freshConversation: string, freshRun: string): Identity {
    var conversation := if request.conversationId != "" then request.conversationId
                        else if request.threadId != "" then request.threadId else freshConversation;
    var run := if request.runId != "" then request.runId else freshRun;
    Identity(conversation, run, conversation + ":" + run, svc.checkpointNamespace, svc.stateSchemaVersion, request.hash,
             svc.requestHashVersion, 1, svc.activeKeyId, false, false, request.runId != "")
  }

  function KeyOf(keys: seq<(string, Bytes)>, id: string): (key: Option<Bytes>)
    ensures key.None? <==> forall k :: 0 <= k < |keys| ==> keys[k].0 != id
    ensures key.Some? ==> (id, key.value) in keys
  {
    if keys == [] then None
    else if keys[0].0 == id then Some(keys[0].1)
    else KeyOf(keys[1..], id)
  }

  function ClaimsOf(svc: Service, id: Identity, now: int): Claims {
    Claims(2, svc.activeKeyId, id.conversationId, id.runId, id.executionThreadId, id.checkpointNamespace, id.stateSchemaVersion,
           id.requestHash, id.requestHashVersion, id.resumeTokenVersion, now, now + svc.ttl)
  }

  function Issue(p: Primitives, svc: Service, id: Identity, now: int): string
    requires svc.Usable()
  {
    var payload := Base64Url.Encode(p.dumps(ClaimsOf(svc, id, now)));
    payload + "." + Base64Url.Encode(p.mac(KeyOf(svc.keys, svc.activeKeyId).value, payload))
  }

  // ---- Decoding ----

  /** `split(".", 1)`. */
  function Split(token: string): (parts: Option<(string, string)>)
    ensures parts.Some? <==> '.' in token
    ensures parts.Some? ==> parts.value.0 + "." + parts.value.1 == token && '.' !in parts.value.0
  {
    if token == "" then None
    else if token[0] == '.' then Some(("", token[1..]))
    else match Split(token[1..])
      case None => None
      case Some(rest) => Some(([token[0]] + rest.0, rest.1))
  }

  /** The keys to try: the named one alone if the ring has it, else all. */
  function Candidates(keys: seq<(string, Bytes)>, kid: string): seq<(string, Bytes)> {
    match KeyOf(keys, kid)
    case Some(secret) => [(kid, secret)]
    case None => keys
  }

  function FirstSigner(p: Primitives, candidates: seq<(string, Bytes)>, payload: string, signature: Bytes): (id: Option<string>)
    ensures id.Some? <==> exists k :: 0 <= k < |candidates| && p.mac(candidates[k].1, payload) == signature
    ensures id.Some? ==> exists k :: 0 <= k < |candidates| && candidates[k].0 == id.value && p.mac(candidates[k].1, payload) == signature
  {
    if candidates == [] then None
    else if p.mac(candidates[0].1, payload) == signature then Some(candidates[0].0)
    else
      var id := FirstSigner(p, candidates[1..], payload, signature);
      assert forall k :: 0 < k < |candidates| ==> candidates[k] == candidates[1..][k - 1];
      id
  }

  /** `_decode_token`: the claims and the key that signed them. */
  function Open(p: Primitives, svc: Service, token: string): Result<(Claims, string), Refusal> {
    match Split(token)
    case None => Err(Invalid)
    case Some(parts) =>
      match Base64Url.Decode(parts.0)
      case None => Err(Invalid)
      case Some(raw) =>
        match p.loads(raw)
        case Malformed => Err(Invalid)
        case NotAnObject => Err(Invalid)
        case Object(claims) =>
          match Base64Url.Decode(parts.1)
          case None => Err(Invalid)
          case Some(signature) =>
            match FirstSigner(p, Candidates(svc.keys, Strip(claims.kid)), parts.0, signature)
            case None => Err(Invalid)
            case Some(id) => Ok((claims, id))
  }

  function OrElse(n: int, otherwise: int): int {
    if n == 0 then otherwise else n
  }

  /** The checks of `_identity_from_token` on opened claims, in its order. */
  function Judge(p: Primitives, svc: Service, request: Request, c: Claims, keyId: string, now: int): Result<Identity, Refusal> {
    var hashVersion := OrElse(c.requestHashVersion, svc.requestHashVersion);
    var conversation, run, thread := Strip(c.conversationId), Strip(c.runId), Strip(c.executionThreadId);
    var ns, hash := Strip(c.checkpointNamespace), Strip(c.requestHash);
    var supplied := if request.conversationId != "" then request.conversationId else request.threadId;
    if c.v != 1 && c.v != 2 then Err(Invalid)
    else if c.exp <= now then Err(Expired)
    else if c.stateSchemaVersion != svc.stateSchemaVersion then Err(Incompatible)
    else if c.v == 2 && hashVersion != svc.requestHashVersion then Err(Incompatible)
    else if conversation == "" || run == "" || thread == "" || ns == "" || hash == "" then Err(Invalid)
    else if !p.isUuid(run) then Err(Invalid)
    else if thread != conversation + ":" + run then Err(Invalid)
    else if ns != svc.checkpointNamespace then Err(Incompatible)
    else if hash != (if c.v == 1 then request.legacyHash else request.hash) then Err(Invalid)
    else if supplied != "" && supplied != conversation then Err(Invalid)
    else if request.runId != "" && request.runId != run then Err(Invalid)
    else Ok(Identity(conversation, run, thread, ns, c.stateSchemaVersion, request.hash, svc.requestHashVersion,
                     OrElse(c.resumeTokenVersion, 1), keyId, true, true, request.runId != ""))
  }

  function Resume(p: Primitives, svc: Service, request: Request, token: string, now: int): Result<Identity, Refusal> {
    match Open(p, svc, token)
    case Err(e) => Err(e)
    case Ok((claims, keyId)) => Judge(p, svc, request, claims, keyId, now)
  }

  // ---- What an accepted token proves ----

  /** Whatever text is presented: if it is accepted, it names this request's run under this service, unexpired and signed by a ring key. */
  lemma {:induction false} AcceptedTokenBindsRequest(p: Primitives, svc: Service, request: Request, token: string, now: int)
    requires Resume(p, svc, request, token, now).Ok?
    ensures var id := Resume(p, svc, request, token, now).value;
      && Plain(id.conversationId) && Plain(id.runId) && p.isUuid(id.runId)
      && id.executionThreadId == id.conversationId + ":" + id.runId
      && id.checkpointNamespace == svc.checkpointNamespace && id.stateSchemaVersion == svc.stateSchemaVersion
      && id.requestHash == request.hash
      && (request.conversationId != "" ==> request.conversationId == id.conversationId)
      && (request.conversationId == "" && request.threadId != "" ==> request.threadId == id.conversationId)
      && (request.runId != "" ==> request.runId == id.runId)
    ensures Split(token).Some?
    ensures var (payload, signature) := Split(token).value;
      && Base64Url.Decode(payload).Some? && p.loads(Base64Url.Decode(payload).value).Object?
      && (exists k :: 0 <= k < |svc.keys| && Some(p.mac(svc.keys[k].1, payload)) == Base64Url.Decode(signature))
      && var c := p.loads(Base64Url.Decode(payload).value).claims;
         c.exp > now && Strip(c.requestHash) == if c.v == 1 then request.legacyHash else request.hash
  {
    var (payload, signature) := Split(token).value;
    var c := p.loads(Base64Url.Decode(payload).value).claims;
    StripIsPlain(c.conversationId);
    StripIsPlain(c.runId);
    var candidates := Candidates(svc.keys, Strip(c.kid));
    var k :| 0 <= k < |candidates| && Some(p.mac(candidates[k].1, payload)) == Base64Url.Decode(signature);
    assert candidates[k] in svc.keys;
  }

  // ---- Round trip ----

  lemma {:induction false} SplitsAtSeparator(payload: string, signature: string)
    requires '.' !in payload
    ensures Split(payload + "." + signature) == Some((payload, signature))
  {
    var token := payload + "." + signature;
    var (a, b) := Split(token).value;
    assert token[|a|] == '.' && token[|payload|] == '.';
    assert forall i :: 0 <= i < |payload| ==> token[i] == payload[i];
    assert forall i :: 0 <= i < |a| ==> token[i] == a[i];
    assert |a| == |payload|;
    assert a + "." + b == token;
    assert a == token[..|payload|] == payload;
    assert b == token[|payload| + 1..] == signature;
  }

  /** Opening an issued token gives back exactly its claims, if and only if a key the reader tries signs its payload alike. */
  lemma {:induction false} OpenIssued(p: Primitives, issuer: Service, reader: Service, id: Identity, issued: int)
    requires p.JsonRoundTrips() && issuer.Usable()
    ensures var claims := ClaimsOf(issuer, id, issued);
      var payload := Base64Url.Encode(p.dumps(claims));
      var signature := p.mac(KeyOf(issuer.keys, issuer.activeKeyId).value, payload);
      var signer := FirstSigner(p, Candidates(reader.keys, issuer.activeKeyId), payload, signature);
      Open(p, reader, Issue(p, issuer, id, issued)) == if signer.Some? then Ok((claims, signer.value)) else Err(Invalid)
  {
    var claims := ClaimsOf(issuer, id, issued);
    var payload := Base64Url.Encode(p.dumps(claims));
    var signature := p.mac(KeyOf(issuer.keys, issuer.activeKeyId).value, payload);
    Base64Url.DecodeEncode(p.dumps(claims));
    Base64Url.DecodeEncode(signature);
    Base64Url.EncodeAvoidsSeparator(p.dumps(claims));
    SplitsAtSeparator(payload, Base64Url.Encode(signature));
    StripIsPlain(issuer.activeKeyId);
  }

  /** A reader's ring recognises the issuer's key: under its id, or, that id being gone, under any other. */
  predicate StillHolds(reader: Service, issuer: Service)
    requires issuer.Usable()
  {
    var secret := KeyOf(issuer.keys, issuer.activeKeyId).value;
    match KeyOf(reader.keys, issuer.activeKeyId)
    case Some(s) => s == secret
    case None => exists k :: 0 <= k < |reader.keys| && reader.keys[k].1 == secret
  }

  lemma {:induction false} HeldKeySigns(p: Primitives, reader: Service, issuer: Service, payload: string)
    requires issuer.Usable() && StillHolds(reader, issuer)
    ensures FirstSigner(p, Candidates(reader.keys, issuer.activeKeyId), payload,
                        p.mac(KeyOf(issuer.keys, issuer.activeKeyId).value, payload)).Some?
  {
    var candidates := Candidates(reader.keys, issuer.activeKeyId);
    var secret := KeyOf(issuer.keys, issuer.activeKeyId).value;
    if KeyOf(reader.keys, issuer.activeKeyId).None? {
      var k :| 0 <= k < |reader.keys| && reader.keys[k].1 == secret;
      assert candidates[k].1 == secret;
    } else {
      assert candidates[0].1 == secret;
    }
  }

  predicate SameRun(a: Identity, b: Identity) {
    && a.conversationId == b.conversationId
    && a.runId == b.runId
    && a.executionThreadId == b.executionThreadId
    && a.checkpointNamespace == b.checkpointNamespace
    && a.stateSchemaVersion == b.stateSchemaVersion
    && a.requestHash == b.requestHash
    && a.requestHashVersion == b.requestHashVersion
    && a.resumeTokenVersion == b.resumeTokenVersion
  }

  /** What `normalize` guarantees of an identity besides its supplied parts. */
  predicate Coherent(id: Identity) {
    id.executionThreadId == id.conversationId + ":" + id.runId && id.resumeTokenVersion == 1
  }

  /** Everything a caller can check before presenting the token: lifetime, configuration, spelling, and the request itself. */
  predicate Fits(p: Primitives, reader: Service, request: Request, id: Identity, expires: int, now: int) {
    && now < expires
    && id.stateSchemaVersion == reader.stateSchemaVersion
    && id.requestHashVersion == reader.requestHashVersion
    && id.checkpointNamespace == reader.checkpointNamespace
    && Plain(id.conversationId) && Plain(id.runId) && Plain(id.checkpointNamespace) && Plain(id.requestHash)
    && p.isUuid(id.runId)
    && id.requestHash == request.hash
    && (request.conversationId != "" ==> request.conversationId == id.conversationId)
    && (request.conversationId == "" && request.threadId != "" ==> request.threadId == id.conversationId)
    && (request.runId != "" ==> request.runId == id.runId)
  }

  lemma {:induction false} JoinIsPlain(a: string, b: string)
    requires Plain(a) && Plain(b)
    ensures Plain(a + ":" + b) && Strip(a + ":" + b) == a + ":" + b
  {
    StripIsPlain(a + ":" + b);
  }

  lemma {:induction false} JudgeExactly(p: Primitives, issuer: Service, reader: Service, request: Request, id: Identity, keyId: string, issued: int, now: int)
    requires Coherent(id)
    ensures var r := Judge(p, reader, request, ClaimsOf(issuer, id, issued), keyId, now);
      (r.Ok? && r.value.resumed && SameRun(r.value, id)) <==> Fits(p, reader, request, id, issued + issuer.ttl, now)
  {
    StripIsPlain(id.conversationId);
    StripIsPlain(id.runId);
    StripIsPlain(id.checkpointNamespace);
    StripIsPlain(id.requestHash);
    if Plain(id.conversationId) && Plain(id.runId) {
      JoinIsPlain(id.conversationId, id.runId);
    }
  }

  /**
    * For a reader still holding the signing key, a token gives back the run it was issued for if and only if it is unexpired,
    * the service is configured as it was, no field changes under stripping, and the request is the same one.
    */
  lemma {:induction false} RoundTripExactly(p: Primitives, issuer: Service, reader: Service, request: Request, id: Identity, issued: int, now: int)
    requires p.JsonRoundTrips() && issuer.Usable() && StillHolds(reader, issuer) && Coherent(id)
    ensures var r := Resume(p, reader, request, Issue(p, issuer, id, issued), now);
      (r.Ok? && r.value.resumed && SameRun(r.value, id)) <==> Fits(p, reader, request, id, issued + issuer.ttl, now)
  {
    var payload := Base64Url.Encode(p.dumps(ClaimsOf(issuer, id, issued)));
    OpenIssued(p, issuer, reader, id, issued);
    HeldKeySigns(p, reader, issuer, payload);
    var keyId := Open(p, reader, Issue(p, issuer, id, issued)).value.1;
    JudgeExactly(p, issuer, reader, request, id, keyId, issued, now);
  }

  /** A request fits the identity normalised from it, by a service configured alike. */
  lemma {:induction false} NormalizedFits(p: Primitives, issuer: Service, reader: Service, request: Request, c: string, r: string, expires: int, now: int)
    requires var id := Normalize(issuer, request, c, r); Plain(id.conversationId) && Plain(id.runId) && p.isUuid(id.runId)
    requires reader == issuer.(keys := reader.keys, activeKeyId := reader.activeKeyId) && Plain(issuer.checkpointNamespace)
    requires Plain(request.hash) && now < expires
    ensures Fits(p, reader, request, Normalize(issuer, request, c, r), expires, now)
  {
  }

  /** The case the design promises: the same request comes back before the token expires, to the same service or one that rotated keys. */
  lemma {:induction false} ResumeContinuesRun(p: Primitives, issuer: Service, reader: Service, request: Request, c: string, r: string, issued: int, now: int)
    requires p.JsonRoundTrips() && issuer.Usable() && StillHolds(reader, issuer)
    requires var id := Normalize(issuer, request, c, r); Plain(id.conversationId) && Plain(id.runId) && p.isUuid(id.runId)
    requires reader == issuer.(keys := reader.keys, activeKeyId := reader.activeKeyId) && Plain(issuer.checkpointNamespace)
    requires Plain(request.hash) && issued <= now < issued + issuer.ttl
    ensures var id := Normalize(issuer, request, c, r);
      var back := Resume(p, reader, request, Issue(p, issuer, id, issued), now);
      back.Ok? && back.value.resumed && SameRun(back.value, id)
  {
    NormalizedFits(p, issuer, reader, request, c, r, issued + issuer.ttl, now);
    RoundTripExactly(p, issuer, reader, request, Normalize(issuer, request, c, r), issued, now);
  }

  /** Reusing a key id for a new secret cuts off the old tokens even when the old secret is still in the ring. */
  lemma {:induction false} ReusedKeyIdRejects(p: Primitives, issuer: Service, reader: Service, request: Request, id: Identity, issued: int, now: int)
    requires p.JsonRoundTrips() && issuer.Usable()
    requires KeyOf(reader.keys, issuer.activeKeyId).Some?
    requires var payload := Base64Url.Encode(p.dumps(ClaimsOf(issuer, id, issued)));
      p.mac(KeyOf(reader.keys, issuer.activeKeyId).value, payload) != p.mac(KeyOf(issuer.keys, issuer.activeKeyId).value, payload)
    ensures Resume(p, reader, request, Issue(p, issuer, id, issued), now) == Err(Invalid)
  {
    OpenIssued(p, issuer, reader, id, issued);
  }
}
