/** The immutable delivery snapshot: creation, validation, and its encrypted form. */
module Snapshots {
  import opened Common
  import opened HostNames

  datatype Snapshot = Snapshot(
    submittedFields: map<string, string>,
    recipients: seq<string>,
    senderEmail: string,
    senderName: Option<string>,
    subject: string,
    smtpHost: string,
    smtpPort: int,
    smtpUsername: Option<string>,
    smtpPassword: Option<string>,
    smtpSecurity: string,
    replyToEmail: Option<string>)

  datatype SnapshotError = InvalidConfiguration | MissingPayload | UnreadablePayload

  // The libraries the snapshot code calls.
  datatype Library = Library(
    isEmail: string -> bool,
    ip6: AddressParser,
    dump: Snapshot -> string,
    load: string -> Option<Snapshot>,
    encrypt: string -> string,
    decrypt: string -> Option<string>)

  // Serialisation and encryption are inverse pairs, neither yields an empty text.
  ghost predicate Faithful(lib: Library) {
    && CanonicalParser(lib.ip6)
    && (forall s :: lib.dump(s) != "" && lib.load(lib.dump(s)) == Some(s))
    && (forall t :: t != "" ==> lib.encrypt(t) != "" && lib.decrypt(lib.encrypt(t)) == Some(t))
  }

  predicate IsCanonicalHost(lib: Library, host: string) {
    NormalizeHostname(lib.ip6, host) == Ok(host)
  }

  // Every validator except the one on the SMTP host.
  predicate WellFormedExceptHost(lib: Library, s: Snapshot) {
    && s.recipients != [] && (forall r :: r in s.recipients ==> lib.isEmail(r))
    && (forall i, j :: 0 <= i < j < |s.recipients| ==> s.recipients[i] != s.recipients[j])
    && lib.isEmail(s.senderEmail)
    && (s.replyToEmail.Some? ==> lib.isEmail(s.replyToEmail.value))
    && 1 <= s.smtpPort <= 65535
    && s.smtpSecurity in ["none", "starttls", "ssl"]
    && 1 <= |s.subject| <= 255
    && forall key :: key in s.submittedFields ==> 1 <= |key| <= 500
  }

  predicate WellFormed(lib: Library, s: Snapshot) {
    WellFormedExceptHost(lib, s) && IsCanonicalHost(lib, s.smtpHost)
  }

  function CreateDeliverySnapshot(lib: Library, raw: Snapshot): Result<Snapshot, SnapshotError> {
    match NormalizeHostname(lib.ip6, raw.smtpHost)
    case Err(_) => Err(InvalidConfiguration)
    case Ok(host) =>
      var s := raw.(smtpHost := host);
      if WellFormed(lib, s) then Ok(s) else Err(InvalidConfiguration)
  }

  function Encode(lib: Library, s: Snapshot): string {
    lib.encrypt(lib.dump(s))
  }

  function DecryptJobSnapshot(lib: Library, payload: Option<string>): Result<Snapshot, SnapshotError> {
    if payload.None? || payload.value == "" then
      Err(MissingPayload)
    else
      match lib.decrypt(payload.value)
      case None => Err(UnreadablePayload)
      case Some(text) =>
        match lib.load(text)
        case None => Err(UnreadablePayload)
        case Some(s) => if WellFormed(lib, s) then Ok(s) else Err(UnreadablePayload)
  }

  lemma AcceptedSnapshotReadable(lib: Library, s: Snapshot)
    requires Faithful(lib) && WellFormed(lib, s)
    ensures Encode(lib, s) != "" && DecryptJobSnapshot(lib, Some(Encode(lib, s))) == Ok(s)
  {
    var text := lib.dump(s);
    assert text != "" && lib.load(text) == Some(s);
  }

  // A snapshot that was accepted is exactly what a worker reads back.
  lemma SnapshotRoundTrip(lib: Library, raw: Snapshot)
    requires Faithful(lib)
    requires CreateDeliverySnapshot(lib, raw).Ok?
    ensures var s := CreateDeliverySnapshot(lib, raw).value;
            DecryptJobSnapshot(lib, Some(Encode(lib, s))) == Ok(s)
  {
    var s := CreateDeliverySnapshot(lib, raw).value;
    AcceptedSnapshotReadable(lib, s);
  }

  lemma HostIsIrrelevant(lib: Library, raw: Snapshot, host: string)
    ensures WellFormedExceptHost(lib, raw.(smtpHost := host)) == WellFormedExceptHost(lib, raw)
  {
  }

  lemma CreatedExactly(lib: Library, raw: Snapshot)
    ensures CreateDeliverySnapshot(lib, raw).Ok? ==>
              var s := CreateDeliverySnapshot(lib, raw).value;
              && Ok(s.smtpHost) == NormalizeHostname(lib.ip6, raw.smtpHost)
              && s == raw.(smtpHost := s.smtpHost)
    ensures CreateDeliverySnapshot(lib, raw).Err? ==> CreateDeliverySnapshot(lib, raw) == Err(InvalidConfiguration)
  {
  }

  // When nothing but the host can be wrong, creation fails exactly on the hosts
  // that normalisation rejects, plus those whose normal form it would reject:
  // bracketed texts that close twice.
  lemma CreationSucceedsExactly(lib: Library, raw: Snapshot)
    requires Faithful(lib)
    ensures CreateDeliverySnapshot(lib, raw).Ok? <==>
            && |raw.recipients| >= 1 && (forall r :: r in raw.recipients ==> lib.isEmail(r))
            && (forall i, j :: 0 <= i < j < |raw.recipients| ==> raw.recipients[i] != raw.recipients[j])
            && lib.isEmail(raw.senderEmail)
            && (raw.replyToEmail == None || lib.isEmail(raw.replyToEmail.value))
            && 1 <= raw.smtpPort <= 65535
            && (raw.smtpSecurity == "none" || raw.smtpSecurity == "starttls" || raw.smtpSecurity == "ssl")
            && 1 <= |raw.subject| <= 255
            && (forall key :: key in raw.submittedFields ==> 1 <= |key| <= 500)
            && NormalizeHostname(lib.ip6, raw.smtpHost).Ok?
            && !(raw.smtpHost[0] == '[' && ClosesTwice(raw.smtpHost))
  {
    var normal := NormalizeHostname(lib.ip6, raw.smtpHost);
    if normal.Ok? {
      NormalizeHostnameIdempotent(lib.ip6, raw.smtpHost);
      HostIsIrrelevant(lib, raw, normal.value);
    }
  }

  lemma CanonicalHostKept(lib: Library, raw: Snapshot)
    requires WellFormedExceptHost(lib, raw)
    ensures CreateDeliverySnapshot(lib, raw) == Ok(raw) <==> IsCanonicalHost(lib, raw.smtpHost)
  {
    var normal := NormalizeHostname(lib.ip6, raw.smtpHost);
    if normal == Ok(raw.smtpHost) {
      assert raw.(smtpHost := normal.value) == raw;
    }
  }

  // A host saved in its normal form passes the "already canonical" check of every
  // later snapshot exactly when it was not entered as a bracketed text that closes twice.
  lemma StoredHostStaysUsable(lib: Library, entered: string, raw: Snapshot)
    requires Faithful(lib)
    requires NormalizeHostname(lib.ip6, entered) == Ok(raw.smtpHost)
    requires WellFormedExceptHost(lib, raw)
    ensures CreateDeliverySnapshot(lib, raw) == Ok(raw) <==> !(entered[0] == '[' && ClosesTwice(entered))
  {
    NormalizeHostnameIdempotent(lib.ip6, entered);
    CanonicalHostKept(lib, raw);
  }

  // What a worker reads back: the decrypted and decoded payload, if it is one that
  // creation would have returned unchanged; a missing payload has its own error.
  lemma ReadExactly(lib: Library, payload: Option<string>, s: Snapshot)
    ensures DecryptJobSnapshot(lib, payload) == Err(MissingPayload) <==> payload == None || payload == Some("")
    ensures DecryptJobSnapshot(lib, payload) == Ok(s) <==>
            && payload.Some? && payload.value != ""
            && lib.decrypt(payload.value).Some? && lib.load(lib.decrypt(payload.value).value) == Some(s)
            && CreateDeliverySnapshot(lib, s) == Ok(s)
  {
    if WellFormedExceptHost(lib, s) {
      CanonicalHostKept(lib, s);
    }
    CreatedExactly(lib, s);
  }

  // ---- what the queue needs to know about snapshots ----

  // accepts: the validators; encode and decode: the stored payload and back.
  datatype Codec = Codec(
    accepts: Snapshot -> bool,
    encode: Snapshot -> string,
    decode: Option<string> -> Result<Snapshot, SnapshotError>)

  ghost predicate Reversible(codec: Codec) {
    forall s :: codec.accepts(s) ==> codec.decode(Some(codec.encode(s))) == Ok(s)
  }

  function JobCodec(lib: Library): Codec {
    Codec(s => WellFormed(lib, s), s => Encode(lib, s), payload => DecryptJobSnapshot(lib, payload))
  }

  lemma JobCodecReversible(lib: Library)
    requires Faithful(lib)
    ensures Reversible(JobCodec(lib))
  {
    var codec := JobCodec(lib);
    forall s | codec.accepts(s)
      ensures codec.decode(Some(codec.encode(s))) == Ok(s)
    {
      AcceptedSnapshotReadable(lib, s);
    }
  }
}
