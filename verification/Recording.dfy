/**
 The recording hash chain (product/catalog.go): what a final digest determines, what a replay
 returns, and how large a recording can grow. The hash stands for SHA-256 (section 6.2 of
 FIPS 180-4) followed by hexadecimal encoding, idealised as free of collisions.
 */
module RecordingChain {
  import opened Common

  type byte = b: int | 0 <= b < 256
  type bytes = seq<byte>
  type Hash = bytes -> bytes

  const MAX_RECORDING_SEGMENT_BYTES := 65536
  const MAX_RECORDING_SEGMENTS := 10000
  const MAX_RECORDING_BYTES := 268435456

  ghost predicate Ideal(hash: Hash) {
    && (forall x, y :: hash(x) == hash(y) ==> x == y)
    && (forall x :: 0 !in hash(x))
  }

  /** The text "sha256:". */
  const DIGEST_PREFIX: bytes := [115, 104, 97, 50, 53, 54, 58]

  function Chained(hash: Hash, previous: bytes, payload: bytes): bytes {
    DIGEST_PREFIX + hash(previous + [0] + payload)
  }

  /** The digest of the last segment of a recording with these payloads; empty before the first. */
  function Chain(hash: Hash, payloads: seq<bytes>): bytes {
    if payloads == [] then []
    else Chained(hash, Chain(hash, payloads[..|payloads| - 1]), payloads[|payloads| - 1])
  }

  function Total(payloads: seq<bytes>): nat {
    if payloads == [] then 0 else Total(payloads[..|payloads| - 1]) + |payloads[|payloads| - 1]|
  }

  lemma ChainFree(hash: Hash, payloads: seq<bytes>)
    requires Ideal(hash)
    ensures 0 !in Chain(hash, payloads)
  {
  }

  /** Equal links come from equal predecessors and equal payloads. */
  lemma LinkInjective(hash: Hash, p: bytes, q: bytes, x: bytes, y: bytes)
    requires Ideal(hash) && 0 !in p && 0 !in q && Chained(hash, p, x) == Chained(hash, q, y)
    ensures p == q && x == y
  {
    var s, t := p + [0] + x, q + [0] + y;
    assert hash(s) == Chained(hash, p, x)[|DIGEST_PREFIX|..] == Chained(hash, q, y)[|DIGEST_PREFIX|..] == hash(t);
    assert s == t;
    assert s[|p|] == 0 && s[|q|] == 0 && s[..|p|] == p && s[..|q|] == q;
    assert |p| == |q|;
    assert x == s[|p| + 1..] == y;
  }

  /** A final digest determines the whole payload sequence, its length included. */
  lemma {:induction false} ChainInjective(hash: Hash, a: seq<bytes>, b: seq<bytes>)
    requires Ideal(hash) && Chain(hash, a) == Chain(hash, b)
    ensures a == b
  {
    if a != [] && b != [] {
      var p, q := a[..|a| - 1], b[..|b| - 1];
      ChainFree(hash, p);
      ChainFree(hash, q);
      LinkInjective(hash, Chain(hash, p), Chain(hash, q), a[|a| - 1], b[|b| - 1]);
      ChainInjective(hash, p, q);
      assert a == p + [a[|a| - 1]] && b == q + [b[|b| - 1]];
    }
  }

  /** The idealisation is consistent: hexadecimal text of the input itself meets it. */
  function Hex(x: bytes): bytes {
    if x == [] then [] else [HexDigit(x[0] / 16), HexDigit(x[0] % 16)] + Hex(x[1..])
  }

  function HexDigit(n: nat): byte
    requires n < 16
  {
    if n < 10 then 48 + n else 87 + n
  }

  lemma {:induction false} HexInjective(x: bytes, y: bytes)
    requires Hex(x) == Hex(y)
    ensures x == y
  {
    if x != [] && y != [] {
      assert Hex(x)[0] == Hex(y)[0] && Hex(x)[1] == Hex(y)[1];
      assert Hex(x)[2..] == Hex(x[1..]) && Hex(y)[2..] == Hex(y[1..]);
      HexInjective(x[1..], y[1..]);
      assert x == [x[0]] + x[1..] && y == [y[0]] + y[1..];
    }
  }

  lemma HexIdeal()
    ensures Ideal(Hex)
  {
    forall x, y | Hex(x) == Hex(y) ensures x == y {
      HexInjective(x, y);
    }
    forall x ensures 0 !in Hex(x) {
      HexFree(x);
    }
  }

  lemma {:induction false} HexFree(x: bytes)
    ensures 0 !in Hex(x)
  {
    if x != [] {
      HexFree(x[1..]);
    }
  }

  // ---------------------------------------------------------------------------
  // Records.

  datatype Status = Recording | Available | Failed
  datatype Segment = Segment(sequence: int, reference: nat, digest: bytes, previous: bytes, size: int)
  datatype Record = Record(status: Status, digest: bytes, size: int, segments: seq<Segment>)

  /** A reader is what the content store answers for a segment: nothing, the bytes, or other bytes. */
  type Reader = Segment -> Option<bytes>

  /** The segment continues a chain of `before` with `payload`. */
  predicate Linked(hash: Hash, s: Segment, before: seq<bytes>, payload: bytes) {
    && s.size == |payload|
    && s.previous == Chain(hash, before)
    && s.digest == Chained(hash, Chain(hash, before), payload)
  }

  ghost predicate AllLinked(hash: Hash, segments: seq<Segment>, payloads: seq<bytes>) {
    && |payloads| <= |segments|
    && forall i :: 0 <= i < |payloads| ==> Linked(hash, segments[i], payloads[..i], payloads[i])
  }

  lemma LinkedSnoc(hash: Hash, segments: seq<Segment>, payloads: seq<bytes>, x: bytes)
    requires AllLinked(hash, segments, payloads) && |payloads| < |segments|
    ensures AllLinked(hash, segments, payloads + [x]) <==> Linked(hash, segments[|payloads|], payloads, x)
  {
    var more := payloads + [x];
    forall i | 0 <= i < |payloads| ensures Linked(hash, segments[i], more[..i], more[i]) {
      assert more[..i] == payloads[..i];
    }
    assert more[..|payloads|] == payloads;
  }

  /** The record describes exactly these payloads. */
  ghost predicate Describes(hash: Hash, r: Record, payloads: seq<bytes>) {
    && |r.segments| == |payloads|
    && r.size == Total(payloads)
    && (forall i :: 0 <= i < |payloads| ==> r.segments[i].sequence == i + 1)
    && AllLinked(hash, r.segments, payloads)
  }

  ghost predicate ReadSoFar(read: Reader, r: Record, payloads: seq<bytes>) {
    |payloads| <= |r.segments| && forall i :: 0 <= i < |payloads| ==> read(r.segments[i]) == Some(payloads[i])
  }

  ghost predicate Reads(read: Reader, r: Record, payloads: seq<bytes>) {
    |r.segments| == |payloads| && ReadSoFar(read, r, payloads)
  }

  /** What Replay checks of the payloads it read. */
  ghost predicate Checks(hash: Hash, r: Record, payloads: seq<bytes>) {
    && AllLinked(hash, r.segments, payloads)
    && Total(payloads) <= MAX_RECORDING_BYTES
    && Total(payloads) == r.size
    && Chain(hash, payloads) == r.digest
  }

  ghost predicate Replays(hash: Hash, r: Record, read: Reader, payloads: seq<bytes>) {
    r.status == Available && r.segments != [] && Reads(read, r, payloads) && Checks(hash, r, payloads)
  }

  lemma {:induction false} TotalGrows(payloads: seq<bytes>, k: nat)
    requires k <= |payloads|
    ensures Total(payloads[..k]) <= Total(payloads)
  {
    if k == |payloads| {
      assert payloads[..k] == payloads;
    } else {
      TotalGrows(payloads[..|payloads| - 1], k);
      assert payloads[..|payloads| - 1][..k] == payloads[..k];
    }
  }

  lemma OneReading(read: Reader, r: Record, a: seq<bytes>, b: seq<bytes>)
    requires Reads(read, r, a) && Reads(read, r, b)
    ensures a == b
  {
  }

  /** Replay over any record and any content store. */
  method Replay(hash: Hash, r: Record, read: Reader) returns (result: Option<seq<bytes>>)
    ensures result.Some? ==> Replays(hash, r, read, result.value)
    ensures result.None? ==> forall payloads :: !Replays(hash, r, read, payloads)
  {
    if r.status != Available || |r.segments| == 0 {
      return None;
    }
    var payloads: seq<bytes> := [];
    var previous: bytes := [];
    var total := 0;
    for i := 0 to |r.segments|
      invariant |payloads| == i && previous == Chain(hash, payloads) && total == Total(payloads) <= MAX_RECORDING_BYTES
      invariant ReadSoFar(read, r, payloads) && AllLinked(hash, r.segments, payloads)
    {
      var segment := r.segments[i];
      var payload := read(segment);
      if payload.None? || |payload.value| != segment.size || segment.previous != previous ||
         Chained(hash, previous, payload.value) != segment.digest
      {
        Stuck(hash, r, read, payloads);
        return None;
      }
      LinkedSnoc(hash, r.segments, payloads, payload.value);
      assert (payloads + [payload.value])[..i] == payloads;
      payloads := payloads + [payload.value];
      total := total + |payload.value|;
      if total > MAX_RECORDING_BYTES {
        TooLong(hash, r, read, payloads);
        return None;
      }
      previous := segment.digest;
    }
    if previous != r.digest || total != r.size {
      OnlyReading(hash, r, read, payloads);
      return None;
    }
    return Some(payloads);
  }

  lemma OnlyReading(hash: Hash, r: Record, read: Reader, payloads: seq<bytes>)
    requires Reads(read, r, payloads)
    ensures forall other :: Replays(hash, r, read, other) ==> other == payloads
  {
    forall other | Replays(hash, r, read, other) ensures other == payloads {
      OneReading(read, r, payloads, other);
    }
  }

  lemma Stuck(hash: Hash, r: Record, read: Reader, done: seq<bytes>)
    requires ReadSoFar(read, r, done) && |done| < |r.segments|
    requires var s := r.segments[|done|]; read(s).None? || !Linked(hash, s, done, read(s).value)
    ensures forall other :: !Replays(hash, r, read, other)
  {
    forall other | Replays(hash, r, read, other)
      ensures other[..|done|] == done
      ensures read(r.segments[|done|]) == Some(other[|done|])
      ensures Linked(hash, r.segments[|done|], other[..|done|], other[|done|])
    {
    }
  }

  lemma TooLong(hash: Hash, r: Record, read: Reader, done: seq<bytes>)
    requires ReadSoFar(read, r, done) && Total(done) > MAX_RECORDING_BYTES
    ensures forall other :: !Replays(hash, r, read, other)
  {
    forall other ensures !Replays(hash, r, read, other) {
      if Replays(hash, r, read, other) {
        assert other[..|done|] == done;
        TotalGrows(other, |done|);
      }
    }
  }

  /** Two successful replays under the same final digest return the same sequence, whatever the
      records and the content stores say. */
  lemma DigestDeterminesReplay(hash: Hash, r: Record, s: Record, readR: Reader, readS: Reader, a: seq<bytes>, b: seq<bytes>)
    requires Ideal(hash) && Replays(hash, r, readR, a) && Replays(hash, s, readS, b) && r.digest == s.digest
    ensures a == b
  {
    ChainInjective(hash, a, b);
  }

  /** A finalized recording read back faithfully replays exactly the recorded payloads, and does so
      exactly when their total fits the limit. */
  lemma RoundTrip(hash: Hash, r: Record, read: Reader, payloads: seq<bytes>)
    requires Describes(hash, r, payloads) && Reads(read, r, payloads) && payloads != []
    requires r.status == Available && r.digest == Chain(hash, payloads)
    ensures forall other :: Replays(hash, r, read, other) <==> other == payloads && Total(payloads) <= MAX_RECORDING_BYTES
  {
    forall other ensures Replays(hash, r, read, other) <==> other == payloads && Total(payloads) <= MAX_RECORDING_BYTES {
      if Replays(hash, r, read, other) {
        OneReading(read, r, payloads, other);
      }
    }
  }

  lemma LastDigest(hash: Hash, segments: seq<Segment>, payloads: seq<bytes>)
    requires AllLinked(hash, segments, payloads) && |segments| == |payloads| > 0
    ensures segments[|segments| - 1].digest == Chain(hash, payloads)
  {
    assert Linked(hash, segments[|segments| - 1], payloads[..|payloads| - 1], payloads[|payloads| - 1]);
  }

  // ---------------------------------------------------------------------------
  // How large a recording grows.

  predicate ValidSegment(payload: bytes) {
    1 <= |payload| <= MAX_RECORDING_SEGMENT_BYTES
  }

  /** Append tests the raw length against the limit but stores the redacted one. */
  predicate Accepts(payloads: seq<bytes>, raw: bytes, redacted: bytes) {
    && ValidSegment(raw) && ValidSegment(redacted)
    && |payloads| < MAX_RECORDING_SEGMENTS
    && Total(payloads) + |raw| <= MAX_RECORDING_BYTES
  }

  /** Some sequence of appends records these payloads. */
  ghost predicate Recordable(payloads: seq<bytes>) {
    payloads == [] ||
    (var n := |payloads| - 1;
     Recordable(payloads[..n]) && exists raw :: Accepts(payloads[..n], raw, payloads[n]))
  }

  lemma AcceptedRecordable(payloads: seq<bytes>, raw: bytes, redacted: bytes)
    requires Recordable(payloads) && Accepts(payloads, raw, redacted)
    ensures Recordable(payloads + [redacted])
  {
    var more := payloads + [redacted];
    assert more[..|payloads|] == payloads;
    assert Accepts(more[..|payloads|], raw, more[|payloads|]);
  }

  /** The segment Append adds after `payloads`. */
  function NextSegment(hash: Hash, payloads: seq<bytes>, redacted: bytes, reference: nat): Segment {
    var previous := Chain(hash, payloads);
    Segment(|payloads| + 1, reference, Chained(hash, previous, redacted), previous, |redacted|)
  }

  function Extended(r: Record, segment: Segment): Record {
    r.(size := r.size + segment.size, segments := r.segments + [segment])
  }

  lemma LinkedLonger(hash: Hash, segments: seq<Segment>, s: Segment, payloads: seq<bytes>)
    requires AllLinked(hash, segments, payloads)
    ensures AllLinked(hash, segments + [s], payloads)
  {
  }

  lemma TotalSnoc(payloads: seq<bytes>, x: bytes)
    ensures Total(payloads + [x]) == Total(payloads) + |x|
  {
    assert (payloads + [x])[..|payloads|] == payloads;
  }

  /** Appending a segment keeps the record and the payloads in step. */
  lemma AppendDescribes(hash: Hash, r: Record, payloads: seq<bytes>, redacted: bytes, reference: nat)
    requires Describes(hash, r, payloads)
    ensures Describes(hash, Extended(r, NextSegment(hash, payloads, redacted, reference)), payloads + [redacted])
  {
    var segment := NextSegment(hash, payloads, redacted, reference);
    LinkedLonger(hash, r.segments, segment, payloads);
    LinkedSnoc(hash, r.segments + [segment], payloads, redacted);
    TotalSnoc(payloads, redacted);
  }

  lemma SizeBound(payloads: seq<bytes>)
    requires Recordable(payloads)
    ensures Total(payloads) <= MAX_RECORDING_BYTES + MAX_RECORDING_SEGMENT_BYTES - 1
  {
  }

  function Zeros(n: nat): bytes {
    seq(n, _ => 0)
  }

  function Filled(n: nat): seq<bytes> {
    seq(n, _ => Zeros(MAX_RECORDING_SEGMENT_BYTES))
  }

  lemma {:induction false} FilledRecordable(n: nat)
    requires n <= 4096
    ensures Recordable(Filled(n)) && Total(Filled(n)) == n * MAX_RECORDING_SEGMENT_BYTES
  {
    if n > 0 {
      FilledRecordable(n - 1);
      assert Filled(n)[..n - 1] == Filled(n - 1);
      assert Accepts(Filled(n - 1), Zeros(MAX_RECORDING_SEGMENT_BYTES), Filled(n)[n - 1]);
    }
  }

  /** The bound is attained, so a recording can grow past what Replay returns. */
  lemma BoundAttained() returns (payloads: seq<bytes>)
    ensures Recordable(payloads)
    ensures Total(payloads) == MAX_RECORDING_BYTES + MAX_RECORDING_SEGMENT_BYTES - 1
  {
    FilledRecordable(4095);
    var almost := Filled(4095) + [Zeros(MAX_RECORDING_SEGMENT_BYTES - 1)];
    assert almost[..4095] == Filled(4095);
    assert Accepts(Filled(4095), Zeros(MAX_RECORDING_SEGMENT_BYTES - 1), almost[4095]);
    payloads := almost + [Zeros(MAX_RECORDING_SEGMENT_BYTES)];
    assert payloads[..4096] == almost;
    assert Accepts(almost, Zeros(1), payloads[4096]);
  }
}

/** The service that appends and finalizes, updating the record and the content store in place. */
module RecordingService {
  import opened Common
  import opened RecordingChain

  datatype Error = Invalid | Stale | Unavailable

  /** The content store keeps every segment's payload under the segment's reference. */
  ghost predicate Holds(content: map<nat, bytes>, segments: seq<Segment>, payloads: seq<bytes>) {
    && |segments| == |payloads|
    && forall i :: 0 <= i < |payloads| ==>
         segments[i].reference in content && content[segments[i].reference] == payloads[i]
  }

  lemma HoldsPut(content: map<nat, bytes>, segments: seq<Segment>, payloads: seq<bytes>, s: Segment, payload: bytes)
    requires Holds(content, segments, payloads) && s.reference !in content
    ensures Holds(content[s.reference := payload], segments, payloads)
    ensures Holds(content[s.reference := payload], segments + [s], payloads + [payload])
  {
  }

  class Recorder {
    const hash: Hash
    var record: Record
    var content: map<nat, bytes>
    ghost var payloads: seq<bytes>

    ghost predicate Valid()
      reads this
    {
      && Describes(hash, record, payloads)
      && Recordable(payloads)
      && Holds(content, record.segments, payloads)
      && (record.status == Available ==> payloads != [] && record.digest == Chain(hash, payloads))
    }

    constructor (hash: Hash)
      ensures Valid() && this.hash == hash && record == Record(Recording, [], 0, []) && payloads == []
    {
      this.hash := hash;
      record := Record(Recording, [], 0, []);
      content := map[];
      payloads := [];
    }

    /** `redact` is the redactor's reply; `put` is the content store's fresh reference, if it stored
        the bytes; `stored` says whether the catalog accepted the segment. */
    method Append(payload: bytes, redact: Option<bytes>, put: Option<nat>, stored: bool) returns (error: Option<Error>)
      requires Valid() && (put.Some? ==> put.value !in content)
      modifies this
      ensures Valid()
      ensures error == Some(Invalid) <==> !ValidSegment(payload)
      ensures error == Some(Stale) <==>
              ValidSegment(payload) &&
              (old(record.status) != Recording || |old(payloads)| >= MAX_RECORDING_SEGMENTS ||
               Total(old(payloads)) + |payload| > MAX_RECORDING_BYTES)
      ensures error.None? <==>
              && old(record.status) == Recording && redact.Some? && put.Some? && stored
              && Accepts(old(payloads), payload, redact.value)
      ensures error.None? ==> payloads == old(payloads) + [redact.value]
      ensures error.Some? ==> payloads == old(payloads) && record == old(record)
      ensures record.status == old(record.status) && record.digest == old(record.digest)
    {
      if |payload| < 1 || |payload| > MAX_RECORDING_SEGMENT_BYTES {
        return Some(Invalid);
      }
      if record.status != Recording || |record.segments| >= MAX_RECORDING_SEGMENTS || record.size + |payload| > MAX_RECORDING_BYTES {
        return Some(Stale);
      }
      if redact.None? || |redact.value| < 1 || |redact.value| > MAX_RECORDING_SEGMENT_BYTES {
        return Some(Unavailable);
      }
      error := Store(payload, redact.value, put, stored);
    }

    /** The rest of Append: link the redacted payload to the chain, store it, and record the segment. */
    method Store(ghost payload: bytes, redacted: bytes, put: Option<nat>, stored: bool) returns (error: Option<Error>)
      requires Valid() && (put.Some? ==> put.value !in content)
      requires record.status == Recording && Accepts(payloads, payload, redacted)
      modifies this
      ensures Valid()
      ensures error == if put.Some? && stored then None else Some(Unavailable)
      ensures payloads == if error.None? then old(payloads) + [redacted] else old(payloads)
      ensures error.Some? ==> record == old(record)
      ensures record.status == old(record.status) && record.digest == old(record.digest)
    {
      var sequence := |record.segments| + 1;
      var previous: bytes := [];
      if |record.segments| > 0 {
        previous := record.segments[|record.segments| - 1].digest;
        LastDigest(hash, record.segments, payloads);
      }
      assert previous == Chain(hash, payloads);
      var digest := Chained(hash, previous, redacted);
      if put.None? {
        return Some(Unavailable);
      }
      var segment := Segment(sequence, put.value, digest, previous, |redacted|);
      assert segment == NextSegment(hash, payloads, redacted, put.value);
      HoldsPut(content, record.segments, payloads, segment, redacted);
      content := content[put.value := redacted];
      if !stored {
        return Some(Unavailable);
      }
      AppendDescribes(hash, record, payloads, redacted, put.value);
      AcceptedRecordable(payloads, payload, redacted);
      record := record.(size := record.size + segment.size, segments := record.segments + [segment]);
      payloads := payloads + [redacted];
      return None;
    }

    method Finalize(stored: bool) returns (error: Option<Error>)
      requires Valid()
      modifies this
      ensures Valid() && payloads == old(payloads)
      ensures error.None? ==> record.status == Available
      ensures error.Some? ==> record == old(record)
      ensures error == Some(Stale) <==>
              old(record.status) != Available && (old(record.status) != Recording || old(payloads) == [])
    {
      if record.status == Available {
        return None;
      }
      if record.status != Recording || |record.segments| == 0 {
        return Some(Stale);
      }
      if !stored {
        return Some(Unavailable);
      }
      LastDigest(hash, record.segments, payloads);
      record := record.(status := Available, digest := record.segments[|record.segments| - 1].digest);
      return None;
    }
  }

  /** Record, finalize, replay: the redacted payloads come back in order exactly when they fit. */
  method ReplayRecorded(service: Recorder) returns (result: Option<seq<bytes>>)
    requires service.Valid() && service.record.status == Available
    ensures result == if Total(service.payloads) <= MAX_RECORDING_BYTES then Some(service.payloads) else None
  {
    var content := service.content;
    var read: Reader := (s: Segment) => if s.reference in content then Some(content[s.reference]) else None;
    RoundTrip(service.hash, service.record, read, service.payloads);
    result := Replay(service.hash, service.record, read);
    if Total(service.payloads) <= MAX_RECORDING_BYTES {
      assert Replays(service.hash, service.record, read, service.payloads);
    }
  }
}
