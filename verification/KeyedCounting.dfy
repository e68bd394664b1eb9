/** Request events indexed by keyed digests of the client address, and the counting of one client's requests. */
module KeyedCounting {
  import opened Wrappers
  import opened NetworkAddress

  /** Milliseconds; an epoch is a UTC day number. */
  type Instant = int
  type Epoch = int

  const EPOCH_MS := 24 * 60 * 60_000

  datatype Key = Key(secret: string, version: nat)
  datatype Secrets = Secrets(current: Key, previous: Option<Key>)

  datatype Scope = IpScope | PrefixScope

  /** The keyed hash of its parts, taken as injective. */
  datatype Digest = Digest(key: Key, epoch: Epoch, scope: Scope, subject: string)

  datatype WriteMode = Legacy | Dual | Keyed

  datatype Request = Request(endpoint: string, ip: Option<string>, at: Instant)

  datatype Event = Event(endpoint: string, ip: Option<string>, digest: Option<Digest>, at: Instant)

  function EpochOf(t: Instant): Epoch {
    t / EPOCH_MS
  }

  function KeysOf(s: Secrets): seq<Key> {
    [s.current] + if s.previous.Some? then [s.previous.value] else []
  }

  function NormalOf(ip: Option<string>): Option<string> {
    if ip.None? then None else Normalize(ip.value)
  }

  // ---------- recording ----------

  function Identity(ip: Option<string>, secrets: Option<Secrets>, now: Instant): Option<Digest> {
    if secrets.Some? && NormalOf(ip).Some?
    then Some(Digest(secrets.value.current, EpochOf(now), IpScope, NormalOf(ip).value)) else None
  }

  function Recorded(mode: WriteMode, secrets: Option<Secrets>, r: Request): Event {
    match mode
    case Legacy => Event(r.endpoint, r.ip, None, r.at)
    case Dual => Event(r.endpoint, r.ip, Identity(r.ip, secrets, r.at), r.at)
    case Keyed => Event(r.endpoint, None, Identity(r.ip, secrets, r.at), r.at)
  }

  // ---------- the digests of a window ----------

  function Epochs(first: Epoch, last: Epoch): seq<Epoch>
    decreases last - first
  {
    if last < first then [] else Epochs(first, last - 1) + [last]
  }

  method EnumerateEpochs(windowStart: Instant, now: Instant) returns (epochs: seq<Epoch>)
    ensures epochs == Epochs(EpochOf(windowStart), EpochOf(now))
  {
    var startDay := EpochOf(windowStart);
    var endDay := EpochOf(now);
    epochs := [];
    var day := startDay;
    while day <= endDay
      invariant startDay <= day && (day <= endDay + 1 || day == startDay)
      invariant epochs == Epochs(startDay, day - 1)
      decreases endDay - day
    {
      epochs := epochs + [day];
      day := day + 1;
    }
    NoEpochs(startDay, endDay);
  }

  lemma NoEpochs(first: Epoch, last: Epoch)
    ensures last < first ==> Epochs(first, last) == [] && Epochs(first, first - 1) == []
  {
  }

  lemma {:induction false} EpochsAre(first: Epoch, last: Epoch, e: Epoch)
    ensures e in Epochs(first, last) <==> first <= e <= last
    decreases last - first
  {
    if first <= last {
      EpochsAre(first, last - 1, e);
    }
  }

  function DigestsOfEpoch(secrets: Secrets, subject: string, scope: Scope, epoch: Epoch): seq<Digest> {
    [Digest(secrets.current, epoch, scope, subject)]
    + if secrets.previous.Some? then [Digest(secrets.previous.value, epoch, scope, subject)] else []
  }

  function Digests(secrets: Secrets, subject: string, scope: Scope, epochs: seq<Epoch>): seq<Digest> {
    if epochs == [] then []
    else Digests(secrets, subject, scope, epochs[..|epochs| - 1]) + DigestsOfEpoch(secrets, subject, scope, epochs[|epochs| - 1])
  }

  method DeriveForWindow(secrets: Secrets, subject: string, now: Instant, scope: Scope, windowStart: Instant) returns (out: seq<Digest>)
    ensures out == Digests(secrets, subject, scope, Epochs(EpochOf(windowStart), EpochOf(now)))
  {
    var epochs := EnumerateEpochs(windowStart, now);
    out := [];
    for i := 0 to |epochs|
      invariant out == Digests(secrets, subject, scope, epochs[..i])
    {
      assert epochs[..i + 1][..i] == epochs[..i];
      out := out + [Digest(secrets.current, epochs[i], scope, subject)];
      if secrets.previous.Some? {
        out := out + [Digest(secrets.previous.value, epochs[i], scope, subject)];
      }
    }
    assert epochs[..|epochs|] == epochs;
  }

  /** The derived digests are those of a known key and an epoch of the window. */
  lemma {:induction false} DigestsAre(secrets: Secrets, subject: string, scope: Scope, epochs: seq<Epoch>, d: Digest)
    ensures d in Digests(secrets, subject, scope, epochs)
            <==> d.key in KeysOf(secrets) && d.epoch in epochs && d.scope == scope && d.subject == subject
  {
    if epochs != [] {
      var front := epochs[..|epochs| - 1];
      DigestsAre(secrets, subject, scope, front, d);
      assert epochs == front + [epochs[|epochs| - 1]];
    }
  }

  // ---------- matching ----------

  datatype IpMatch = IpMatch(digests: seq<Digest>, raw: Option<string>)

  function Candidates(ip: Option<string>, secrets: Option<Secrets>, now: Instant, windowStart: Instant): seq<Digest> {
    if secrets.Some? && NormalOf(ip).Some?
    then Digests(secrets.value, NormalOf(ip).value, IpScope, Epochs(EpochOf(windowStart), EpochOf(now))) else []
  }

  /** The raw address as a query clause: an empty text counts as none. */
  function RawOf(ip: Option<string>): Option<string> {
    if ip == Some("") then None else ip
  }

  /** None when no clause could be built; the caller then counts the whole endpoint. */
  function ResolveMatch(mode: WriteMode, ip: Option<string>, secrets: Option<Secrets>, now: Instant, windowStart: Instant): Option<IpMatch> {
    var digests := if mode == Legacy then [] else Candidates(ip, secrets, now, windowStart);
    var raw := if mode == Keyed then None else RawOf(ip);
    if digests == [] && raw.None? then None else Some(IpMatch(digests, raw))
  }

  predicate Matches(m: IpMatch, e: Event) {
    (e.digest.Some? && e.digest.value in m.digests) || (m.raw.Some? && e.ip == m.raw)
  }

  predicate Counts(m: Option<IpMatch>, endpoint: string, windowStart: Instant, e: Event) {
    e.endpoint == endpoint && (m.Some? ==> Matches(m.value, e)) && e.at >= windowStart
  }

  /** The rows a rate limit query sees, in the order they were written. */
  function Counted(m: Option<IpMatch>, endpoint: string, windowStart: Instant, log: seq<Event>): seq<Event> {
    if log == [] then []
    else
      var e := log[|log| - 1];
      Counted(m, endpoint, windowStart, log[..|log| - 1]) + if Counts(m, endpoint, windowStart, e) then [e] else []
  }

  // ---------- plain counting ----------

  /** Whether the digests of the queried address take part in the query. */
  predicate ByDigest(mode: WriteMode, secrets: Option<Secrets>, ip: Option<string>) {
    mode != Legacy && secrets.Some? && NormalOf(ip).Some?
  }

  /** What counts as the same client: the same normalised address where digests take part, else the same raw
      text, else, with nothing to compare, everybody. */
  predicate SameClient(mode: WriteMode, secrets: Option<Secrets>, ip: Option<string>, r: Request) {
    if ByDigest(mode, secrets, ip) then NormalOf(r.ip) == NormalOf(ip)
    else if mode == Keyed || ip.None? || ip == Some("") then true
    else r.ip == ip
  }

  predicate FromClient(mode: WriteMode, secrets: Option<Secrets>, ip: Option<string>, r: Request, endpoint: string, windowStart: Instant) {
    r.endpoint == endpoint && r.at >= windowStart && SameClient(mode, secrets, ip, r)
  }

  function Plain(mode: WriteMode, secrets: Option<Secrets>, ip: Option<string>, requests: seq<Request>, endpoint: string,
                 windowStart: Instant): seq<Request> {
    if requests == [] then []
    else
      var r := requests[|requests| - 1];
      Plain(mode, secrets, ip, requests[..|requests| - 1], endpoint, windowStart)
      + if FromClient(mode, secrets, ip, r, endpoint, windowStart) then [r] else []
  }

  /** Every request was recorded with the secrets of its own time. */
  function LogOf(mode: WriteMode, secretsAt: Instant -> Option<Secrets>, requests: seq<Request>): seq<Event> {
    if requests == [] then []
    else
      var r := requests[|requests| - 1];
      LogOf(mode, secretsAt, requests[..|requests| - 1]) + [Recorded(mode, secretsAt(r.at), r)]
  }

  /** The request is not of a later day than the query, and the key it was recorded with is still known. */
  predicate Known(secretsAt: Instant -> Option<Secrets>, at: Instant, now: Instant) {
    && EpochOf(at) <= EpochOf(now)
    && secretsAt(at).Some? && secretsAt(now).Some? && secretsAt(at).value.current in KeysOf(secretsAt(now).value)
  }

  lemma EpochMonotone(x: Instant, y: Instant)
    ensures x <= y ==> EpochOf(x) <= EpochOf(y)
  {
  }

  lemma EmptyHasNoNormalForm()
    ensures NormalOf(Some("")).None?
  {
    assert Trim("") == "";
  }

  /** Exactly which recorded digests a query finds. */
  lemma DigestFound(secretsAt: Instant -> Option<Secrets>, r: Request, ip: Option<string>, now: Instant, windowStart: Instant)
    ensures var d := Identity(r.ip, secretsAt(r.at), r.at);
            d.Some? && d.value in Candidates(ip, secretsAt(now), now, windowStart)
            <==> NormalOf(ip).Some? && NormalOf(r.ip) == NormalOf(ip) && EpochOf(windowStart) <= EpochOf(r.at) && Known(secretsAt, r.at, now)
  {
    hide Normalize;
    var d := Identity(r.ip, secretsAt(r.at), r.at);
    if d.Some? && secretsAt(now).Some? && NormalOf(ip).Some? {
      DigestsAre(secretsAt(now).value, NormalOf(ip).value, IpScope, Epochs(EpochOf(windowStart), EpochOf(now)), d.value);
      EpochsAre(EpochOf(windowStart), EpochOf(now), d.value.epoch);
    }
  }

  lemma SomeCandidate(ip: Option<string>, secrets: Option<Secrets>, now: Instant, windowStart: Instant)
    requires windowStart <= now
    ensures Candidates(ip, secrets, now, windowStart) != [] <==> secrets.Some? && NormalOf(ip).Some?
  {
    hide Normalize;
    if secrets.Some? && NormalOf(ip).Some? {
      var d := Digest(secrets.value.current, EpochOf(now), IpScope, NormalOf(ip).value);
      DigestsAre(secrets.value, NormalOf(ip).value, IpScope, Epochs(EpochOf(windowStart), EpochOf(now)), d);
      EpochMonotone(windowStart, now);
      EpochsAre(EpochOf(windowStart), EpochOf(now), EpochOf(now));
      assert d in Candidates(ip, secrets, now, windowStart);
    }
  }

  /** Exactly when no clause can be built, in each mode. */
  lemma NoClauseExactly(mode: WriteMode, ip: Option<string>, secrets: Option<Secrets>, now: Instant, windowStart: Instant)
    requires windowStart <= now
    ensures ResolveMatch(mode, ip, secrets, now, windowStart).None?
            <==> !ByDigest(mode, secrets, ip) && (mode == Keyed || ip.None? || ip == Some(""))
  {
    hide Normalize;
    SomeCandidate(ip, secrets, now, windowStart);
  }

  /** And the query then counts every row of the endpoint in the window. */
  lemma {:induction false} NoClauseCountsAll(endpoint: string, windowStart: Instant, log: seq<Event>, e: Event)
    ensures e in Counted(None, endpoint, windowStart, log) <==> e in log && e.endpoint == endpoint && e.at >= windowStart
  {
    if log != [] {
      NoClauseCountsAll(endpoint, windowStart, log[..|log| - 1], e);
      assert log == log[..|log| - 1] + [log[|log| - 1]];
    }
  }

  /** One request and any queried address: without a usable digest the keyed index counts the whole endpoint;
      with one it counts the requests from the same normalised address whose key is still known. */
  lemma KeyedCountsExactly(secretsAt: Instant -> Option<Secrets>, r: Request, endpoint: string, ip: Option<string>, now: Instant,
                           windowStart: Instant)
    requires windowStart <= now
    ensures Counts(ResolveMatch(Keyed, ip, secretsAt(now), now, windowStart), endpoint, windowStart, Recorded(Keyed, secretsAt(r.at), r))
            <==> FromClient(Keyed, secretsAt(now), ip, r, endpoint, windowStart)
                 && (ByDigest(Keyed, secretsAt(now), ip) ==> Known(secretsAt, r.at, now))
  {
    hide Normalize;
    DigestFound(secretsAt, r, ip, now, windowStart);
    EpochMonotone(windowStart, r.at);
    NoClauseExactly(Keyed, ip, secretsAt(now), now, windowStart);
  }

  /** The same while rows carry both the raw address and the digest: an equal raw address counts whatever its key. */
  lemma DualCountsExactly(secretsAt: Instant -> Option<Secrets>, r: Request, endpoint: string, ip: Option<string>, now: Instant,
                          windowStart: Instant)
    requires windowStart <= now
    ensures Counts(ResolveMatch(Dual, ip, secretsAt(now), now, windowStart), endpoint, windowStart, Recorded(Dual, secretsAt(r.at), r))
            <==> FromClient(Dual, secretsAt(now), ip, r, endpoint, windowStart)
                 && (ByDigest(Dual, secretsAt(now), ip) ==> r.ip == ip || Known(secretsAt, r.at, now))
  {
    hide Normalize;
    DigestFound(secretsAt, r, ip, now, windowStart);
    EpochMonotone(windowStart, r.at);
    NoClauseExactly(Dual, ip, secretsAt(now), now, windowStart);
    assert ip == Some("") ==> NormalOf(ip).None? by { EmptyHasNoNormalForm(); }
  }

  lemma LegacyCountsExactly(secretsAt: Instant -> Option<Secrets>, r: Request, endpoint: string, ip: Option<string>, now: Instant,
                            windowStart: Instant)
    ensures Counts(ResolveMatch(Legacy, ip, secretsAt(now), now, windowStart), endpoint, windowStart, Recorded(Legacy, secretsAt(r.at), r))
            <==> FromClient(Legacy, secretsAt(now), ip, r, endpoint, windowStart)
  {
    hide Normalize;
  }

  /** The requests of the window, where digests decide, were recorded with a key that is still known. */
  predicate Covered(mode: WriteMode, secretsAt: Instant -> Option<Secrets>, ip: Option<string>, requests: seq<Request>,
                    windowStart: Instant, now: Instant) {
    ByDigest(mode, secretsAt(now), ip) ==> forall r <- requests :: r.at >= windowStart ==> Known(secretsAt, r.at, now)
  }

  predicate AgreesOn(r: Request, mode: WriteMode, secretsAt: Instant -> Option<Secrets>, secrets: Option<Secrets>, ip: Option<string>,
                     endpoint: string, windowStart: Instant, m: Option<IpMatch>) {
    Counts(m, endpoint, windowStart, Recorded(mode, secretsAt(r.at), r)) <==> FromClient(mode, secrets, ip, r, endpoint, windowStart)
  }

  lemma {:induction false} AgreesOnAll(mode: WriteMode, secretsAt: Instant -> Option<Secrets>, secrets: Option<Secrets>, ip: Option<string>,
                                       requests: seq<Request>, endpoint: string, windowStart: Instant, m: Option<IpMatch>)
    requires forall r <- requests :: AgreesOn(r, mode, secretsAt, secrets, ip, endpoint, windowStart, m)
    ensures Counted(m, endpoint, windowStart, LogOf(mode, secretsAt, requests))
            == LogOf(mode, secretsAt, Plain(mode, secrets, ip, requests, endpoint, windowStart))
    decreases |requests|
  {
    hide Counts, FromClient, Recorded, Counted, LogOf, Plain;
    if requests == [] {
      Nothing(mode, secretsAt, secrets, ip, endpoint, windowStart, m);
    } else {
      var front := requests[..|requests| - 1];
      var r := requests[|requests| - 1];
      assert r in requests && forall x <- front :: x in requests;
      AgreesOnAll(mode, secretsAt, secrets, ip, front, endpoint, windowStart, m);
      assert AgreesOn(r, mode, secretsAt, secrets, ip, endpoint, windowStart, m);
      assert requests == front + [r];
      OneMore(mode, secretsAt, secrets, ip, front, r, endpoint, windowStart, m);
      assert Plain(mode, secrets, ip, front, endpoint, windowStart) + [] == Plain(mode, secrets, ip, front, endpoint, windowStart);
    }
  }

  lemma Nothing(mode: WriteMode, secretsAt: Instant -> Option<Secrets>, secrets: Option<Secrets>, ip: Option<string>, endpoint: string,
                windowStart: Instant, m: Option<IpMatch>)
    ensures Counted(m, endpoint, windowStart, LogOf(mode, secretsAt, []))
            == LogOf(mode, secretsAt, Plain(mode, secrets, ip, [], endpoint, windowStart))
  {
  }

  lemma OneMore(mode: WriteMode, secretsAt: Instant -> Option<Secrets>, secrets: Option<Secrets>, ip: Option<string>, front: seq<Request>,
                r: Request, endpoint: string, windowStart: Instant, m: Option<IpMatch>)
    ensures LogOf(mode, secretsAt, front + [r]) == LogOf(mode, secretsAt, front) + [Recorded(mode, secretsAt(r.at), r)]
    ensures Counted(m, endpoint, windowStart, LogOf(mode, secretsAt, front + [r]))
            == Counted(m, endpoint, windowStart, LogOf(mode, secretsAt, front))
               + (if Counts(m, endpoint, windowStart, Recorded(mode, secretsAt(r.at), r)) then [Recorded(mode, secretsAt(r.at), r)] else [])
    ensures Plain(mode, secrets, ip, front + [r], endpoint, windowStart)
            == Plain(mode, secrets, ip, front, endpoint, windowStart)
               + (if FromClient(mode, secrets, ip, r, endpoint, windowStart) then [r] else [])
    ensures LogOf(mode, secretsAt, Plain(mode, secrets, ip, front, endpoint, windowStart) + [r])
            == LogOf(mode, secretsAt, Plain(mode, secrets, ip, front, endpoint, windowStart)) + [Recorded(mode, secretsAt(r.at), r)]
  {
    hide Counts, FromClient, Recorded;
    var kept := Plain(mode, secrets, ip, front, endpoint, windowStart);
    assert (front + [r])[..|front|] == front;
    assert (kept + [r])[..|kept|] == kept;
    var log := LogOf(mode, secretsAt, front);
    var e := Recorded(mode, secretsAt(r.at), r);
    assert LogOf(mode, secretsAt, front + [r]) == log + [e];
    assert (log + [e])[..|log|] == log;
  }

  /** The current key changed at most once in the window, and if it did, the query still knows the key before it. */
  ghost predicate RotatedAtMostOnce(secretsAt: Instant -> Option<Secrets>, windowStart: Instant, now: Instant) {
    exists before: Key, changed: Instant :: RotatedAt(secretsAt, windowStart, now, before, changed)
  }

  ghost predicate RotatedAt(secretsAt: Instant -> Option<Secrets>, windowStart: Instant, now: Instant, before: Key, changed: Instant) {
    && secretsAt(now).Some?
    && (forall t | windowStart <= t <= now ::
          secretsAt(t).Some? && secretsAt(t).value.current == if t < changed then before else secretsAt(now).value.current)
    && (windowStart < changed <= now ==> secretsAt(now).value.previous == Some(before))
  }

  /** Then the keys of all requests up to now are known. */
  lemma OneRotationCovers(mode: WriteMode, secretsAt: Instant -> Option<Secrets>, ip: Option<string>, requests: seq<Request>,
                          windowStart: Instant, now: Instant)
    requires windowStart <= now && RotatedAtMostOnce(secretsAt, windowStart, now)
    requires forall r <- requests :: r.at <= now
    ensures Covered(mode, secretsAt, ip, requests, windowStart, now)
  {
    hide Normalize;
    var previous, changed :| RotatedAt(secretsAt, windowStart, now, previous, changed);
    forall r <- requests | r.at >= windowStart ensures Known(secretsAt, r.at, now) {
      EpochMonotone(r.at, now);
      assert secretsAt(r.at).Some?;
    }
  }

  /** Main result, for every mode and every queried address: the rows that the query counts are exactly the
      records of the requests from the same client in the window, in the same order. So their number and their
      oldest time agree with plain counting. Where digests decide, this needs the keys of the window to be known
      still, which OneRotationCovers gives. */
  lemma KeyedIsPlain(mode: WriteMode, secretsAt: Instant -> Option<Secrets>, requests: seq<Request>, endpoint: string,
                     ip: Option<string>, now: Instant, windowStart: Instant)
    requires windowStart <= now && Covered(mode, secretsAt, ip, requests, windowStart, now)
    ensures Counted(ResolveMatch(mode, ip, secretsAt(now), now, windowStart), endpoint, windowStart, LogOf(mode, secretsAt, requests))
            == LogOf(mode, secretsAt, Plain(mode, secretsAt(now), ip, requests, endpoint, windowStart))
  {
    hide Normalize, ResolveMatch, Counts, Known, NormalOf, Counted, LogOf, Plain, SameClient, ByDigest;
    var m := ResolveMatch(mode, ip, secretsAt(now), now, windowStart);
    forall r <- requests ensures AgreesOn(r, mode, secretsAt, secretsAt(now), ip, endpoint, windowStart, m) {
      match mode
      case Keyed => KeyedCountsExactly(secretsAt, r, endpoint, ip, now, windowStart);
      case Dual => DualCountsExactly(secretsAt, r, endpoint, ip, now, windowStart);
      case Legacy => LegacyCountsExactly(secretsAt, r, endpoint, ip, now, windowStart);
    }
    AgreesOnAll(mode, secretsAt, secretsAt(now), ip, requests, endpoint, windowStart, m);
  }

  // ---------- what a row stores ----------

  /** Which address columns a row gets in each mode: the raw address unless only digests are kept, and the digest of the
      normalised address under the current key and the UTC day of the request unless only raw addresses are. */
  lemma RecordedColumns(mode: WriteMode, secrets: Option<Secrets>, r: Request)
    ensures var e := Recorded(mode, secrets, r);
            && e.endpoint == r.endpoint && e.at == r.at
            && e.ip == (if mode == Keyed then None else r.ip)
            && (e.digest.Some? <==> mode != Legacy && secrets.Some? && r.ip.Some? && Normalize(r.ip.value).Some?)
            && (e.digest.Some? ==>
                  && e.digest.value.key == secrets.value.current && e.digest.value.scope == IpScope
                  && Some(e.digest.value.subject) == Normalize(r.ip.value)
                  && 86_400_000 * e.digest.value.epoch <= r.at < 86_400_000 * (e.digest.value.epoch + 1))
  {
    hide Normalize;
  }

  /** Main result: while rows are keyed only, no row of the log has a raw address, whatever the requests. */
  lemma {:induction false} KeyedLogHasNoAddress(secretsAt: Instant -> Option<Secrets>, requests: seq<Request>, e: Event)
    requires e in LogOf(Keyed, secretsAt, requests)
    ensures e.ip.None?
  {
    hide Normalize;
    var front := requests[..|requests| - 1];
    RecordedColumns(Keyed, secretsAt(requests[|requests| - 1].at), requests[|requests| - 1]);
    if e in LogOf(Keyed, secretsAt, front) {
      KeyedLogHasNoAddress(secretsAt, front, e);
    }
  }
}
