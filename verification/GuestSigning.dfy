/** Strings joined and split: the facts the signing encoding rests on. */
module Text {
  /** strings.Join */
  function Join(parts: seq<string>, sep: char): string {
    if |parts| == 0 then ""
    else if |parts| == 1 then parts[0]
    else parts[0] + [sep] + Join(parts[1..], sep)
  }

  /** A first field without the separator is determined by the whole. */
  lemma FirstField(a: string, b: string, x: string, y: string, sep: char)
    requires a + [sep] + x == b + [sep] + y
    requires sep !in a && sep !in b
    ensures a == b && x == y
  {
    var t := a + [sep] + x;
    assert t[|a|] == sep && t[|b|] == sep;
    assert t[..|a|] == a && t[..|b|] == b;
    assert |a| == |b|;
    assert x == t[|a| + 1..] == y;
  }

  /** So is a last field without it, whatever comes before. */
  lemma LastField(a: string, b: string, x: string, y: string, sep: char)
    requires a + [sep] + x == b + [sep] + y
    requires sep !in x && sep !in y
    ensures a == b && x == y
  {
    var t := a + [sep] + x;
    assert t[|a|] == sep && t[|b|] == sep;
    assert t[|a| + 1..] == x && t[|b| + 1..] == y;
    assert |a| == |b|;
    assert a == t[..|a|] == b;
  }

  ghost predicate Plain(parts: seq<string>, sep: char) {
    forall i :: 0 <= i < |parts| ==> parts[i] != "" && sep !in parts[i]
  }

  lemma JoinSeparated(parts: seq<string>, sep: char)
    requires Plain(parts, sep)
    ensures sep in Join(parts, sep) <==> |parts| > 1
    ensures Join(parts, sep) == "" <==> parts == []
  {
    if |parts| > 1 {
      assert Join(parts, sep)[|parts[0]|] == sep;
    }
  }

  /** Non-empty fields without the separator can be read back from their join. */
  lemma {:induction false} JoinInjective(a: seq<string>, b: seq<string>, sep: char)
    requires Plain(a, sep) && Plain(b, sep) && Join(a, sep) == Join(b, sep)
    ensures a == b
  {
    JoinSeparated(a, sep);
    JoinSeparated(b, sep);
    if |a| > 1 {
      FirstField(a[0], b[0], Join(a[1..], sep), Join(b[1..], sep), sep);
      JoinInjective(a[1..], b[1..], sep);
      assert a == [a[0]] + a[1..] && b == [b[0]] + b[1..];
    }
  }

  /** A join of fields free of `c` is free of `c`. */
  lemma {:induction false} JoinFree(parts: seq<string>, sep: char, c: char)
    requires c != sep && forall i :: 0 <= i < |parts| ==> c !in parts[i]
    ensures c !in Join(parts, sep)
  {
    if |parts| > 1 {
      JoinFree(parts[1..], sep, c);
    }
  }

  /** fmt.Sprintf("%d") of a non-negative number */
  function Decimal(n: nat): (r: string)
    ensures |r| > 0 && forall i :: 0 <= i < |r| ==> '0' <= r[i] <= '9'
  {
    if n < 10 then [Digit(n)] else Decimal(n / 10) + [Digit(n % 10)]
  }

  function Digit(n: nat): (r: char)
    requires n < 10
    ensures '0' <= r <= '9'
  {
    ['0', '1', '2', '3', '4', '5', '6', '7', '8', '9'][n]
  }

  lemma {:induction false} DecimalInjective(m: nat, n: nat)
    requires Decimal(m) == Decimal(n)
    ensures m == n
  {
    LastDigit(m);
    LastDigit(n);
    DigitInjective(m % 10, n % 10);
    if m >= 10 && n >= 10 {
      DecimalInjective(m / 10, n / 10);
    }
  }

  /** The last character is the last digit, and the rest is the rest of the number. */
  lemma LastDigit(n: nat)
    ensures var s := Decimal(n);
            s[|s| - 1] == Digit(n % 10) && (|s| == 1 <==> n < 10) && (n >= 10 ==> s[..|s| - 1] == Decimal(n / 10))
  {
  }

  lemma DigitInjective(m: nat, n: nat)
    requires m < 10 && n < 10 && Digit(m) == Digit(n)
    ensures m == n
  {
  }
}

/** Sorting strings bytewise. */
module SortedStrings {
  predicate Leq(a: string, b: string) {
    a == "" || (b != "" && (a[0] < b[0] || (a[0] == b[0] && Leq(a[1..], b[1..]))))
  }

  lemma {:induction false} LeqTotal(a: string, b: string)
    ensures Leq(a, b) || Leq(b, a)
    ensures Leq(a, b) && Leq(b, a) ==> a == b
  {
    if a != "" && b != "" && a[0] == b[0] {
      LeqTotal(a[1..], b[1..]);
      assert a == [a[0]] + a[1..] && b == [b[0]] + b[1..];
    }
  }

  lemma {:induction false} LeqTransitive(a: string, b: string, c: string)
    requires Leq(a, b) && Leq(b, c)
    ensures Leq(a, c)
  {
    if a != "" && a[0] == b[0] && b[0] == c[0] {
      LeqTransitive(a[1..], b[1..], c[1..]);
    }
  }

  ghost predicate Sorted(s: seq<string>) {
    forall i, j :: 0 <= i < j < |s| ==> Leq(s[i], s[j])
  }

  function Insert(x: string, s: seq<string>): seq<string> {
    if s == [] then [x]
    else if Leq(x, s[0]) then [x] + s
    else [s[0]] + Insert(x, s[1..])
  }

  /** sort.Strings */
  function Sort(s: seq<string>): seq<string> {
    if s == [] then [] else Insert(s[0], Sort(s[1..]))
  }

  lemma {:induction false} InsertSorts(x: string, s: seq<string>)
    requires Sorted(s)
    ensures Sorted(Insert(x, s)) && multiset(Insert(x, s)) == multiset(s) + multiset{x}
  {
    if s != [] {
      if Leq(x, s[0]) {
        forall i | 0 <= i < |s| ensures Leq(x, s[i]) {
          if i > 0 {
            LeqTransitive(x, s[0], s[i]);
          }
        }
      } else {
        LeqTotal(x, s[0]);
        assert s == [s[0]] + s[1..];
        InsertSorts(x, s[1..]);
        HeadStaysLeast(x, s, Insert(x, s[1..]));
      }
    }
  }

  lemma HeadStaysLeast(x: string, s: seq<string>, r: seq<string>)
    requires s != [] && Sorted(s) && Leq(s[0], x) && Sorted(r) && multiset(r) == multiset(s[1..]) + multiset{x}
    ensures Sorted([s[0]] + r)
  {
    forall i | 0 <= i < |r| ensures Leq(s[0], r[i]) {
      assert r[i] in multiset(r);
      assert r[i] in s[1..] || r[i] == x;
    }
  }

  lemma {:induction false} SortSorts(s: seq<string>)
    ensures Sorted(Sort(s)) && multiset(Sort(s)) == multiset(s)
  {
    if s != [] {
      SortSorts(s[1..]);
      InsertSorts(s[0], Sort(s[1..]));
      assert s == [s[0]] + s[1..];
    }
  }

  /** The first element of a sorted sequence is its least. */
  lemma FirstLeast(a: seq<string>, x: string)
    requires Sorted(a) && x in multiset(a)
    ensures a != [] && Leq(a[0], x)
  {
    var i :| 0 <= i < |a| && a[i] == x;
    LeqTotal(x, x);
  }

  /** A collection has one sorted arrangement. */
  lemma {:induction false} SortedUnique(a: seq<string>, b: seq<string>)
    requires Sorted(a) && Sorted(b) && multiset(a) == multiset(b)
    ensures a == b
  {
    if a == [] {
      assert multiset(b) == multiset{};
      assert |multiset(b)| == |b|;
    } else {
      FirstLeast(b, a[0]);
      FirstLeast(a, b[0]);
      LeqTotal(a[0], b[0]);
      Uncons(a);
      Uncons(b);
      SortedUnique(a[1..], b[1..]);
    }
  }

  lemma Uncons(a: seq<string>)
    requires a != []
    ensures a == [a[0]] + a[1..] && multiset(a[1..]) == multiset(a) - multiset{a[0]}
    ensures Sorted(a) ==> Sorted(a[1..])
  {
    assert a == [a[0]] + a[1..];
  }
}

/** The Guest Agent authentication request and the bytes its signature covers (guestagent/protocol.go). */
module GuestSigning {
  import opened Common
  import opened Identifiers
  import opened Text
  import opened SortedStrings

  const MAX_CAPABILITIES := 32

  datatype Challenge = Challenge(kind: string, nonce: string, expiresAt: string)
  datatype Hello = Hello(
    kind: string, guestId: string, generation: int, version: string, capabilities: seq<string>, nonce: string)
  datatype AuthRequest = AuthRequest(hello: Hello, challenge: Challenge)

  // ---------------------------------------------------------------------------
  // Nonces: base64url without padding (section 5 of RFC 4648), CR and LF skipped.

  predicate IsBreak(c: char) { c == '\r' || c == '\n' }

  predicate IsBase64Url(c: char) { IsAlnum(c) || c == '-' || c == '_' }

  function Significant(s: string): string {
    if s == "" then "" else (if IsBreak(s[0]) then "" else [s[0]]) + Significant(s[1..])
  }

  /** How many bytes `n` characters without padding decode to. */
  function DecodedLength(n: nat): nat {
    n / 4 * 3 + if n % 4 == 0 then 0 else n % 4 - 1
  }

  predicate ValidNonce(s: string) {
    var t := Significant(s);
    && (forall i :: 0 <= i < |t| ==> IsBase64Url(t[i]))
    && |t| % 4 != 1
    && DecodedLength(|t|) == 32
  }

  lemma {:induction false} SignificantConcat(a: string, b: string)
    ensures Significant(a + b) == Significant(a) + Significant(b)
  {
    if a == "" {
      assert a + b == b;
    } else {
      assert (a + b)[1..] == a[1..] + b;
      SignificantConcat(a[1..], b);
    }
  }

  /** Extending a nonce past a line break and another character adds a significant character. */
  lemma LongerNonce(m: string, n: string)
    requires |m| + 1 < |n| && n[..|m|] == m && !IsBreak(n[|m| + 1])
    ensures |Significant(n)| > |Significant(m)|
  {
    assert n == m + n[|m|..|m| + 1] + [n[|m| + 1]] + n[|m| + 2..];
    SignificantConcat(m + n[|m|..|m| + 1] + [n[|m| + 1]], n[|m| + 2..]);
    SignificantConcat(m + n[|m|..|m| + 1], [n[|m| + 1]]);
    SignificantConcat(m, n[|m|..|m| + 1]);
    assert Significant([n[|m| + 1]]) == [n[|m| + 1]] + Significant([n[|m| + 1]][1..]);
  }

  /** A nonce is determined by the text it begins, although it may itself contain line breaks. */
  lemma NonceField(m: string, n: string, x: string, y: string)
    requires ValidNonce(m) && ValidNonce(n) && m + ['\n'] + x == n + ['\n'] + y
    requires x != "" && y != "" && !IsBreak(x[0]) && !IsBreak(y[0])
    ensures m == n && x == y
  {
    var t := m + ['\n'] + x;
    SameLength(t, m, n);
    assert t[|m| + 1..] == x && t[|n| + 1..] == y;
  }

  lemma SameLength(t: string, m: string, n: string)
    requires ValidNonce(m) && ValidNonce(n)
    requires |m| + 1 < |t| && |n| + 1 < |t| && t[..|m|] == m && t[..|n|] == n
    requires t[|m|] == '\n' && t[|n|] == '\n' && !IsBreak(t[|m| + 1]) && !IsBreak(t[|n| + 1])
    ensures m == n
  {
    if |m| + 1 < |n| {
      LongerNonce(m, n);
    } else if |n| + 1 < |m| {
      LongerNonce(n, m);
    }
  }

  // ---------------------------------------------------------------------------
  // Validation.

  /** The characters of an RFC 3339 timestamp as time.Parse reads it: it begins with a digit. */
  predicate TimestampShape(s: string) {
    && s != "" && IsDigit(s[0])
    && forall i :: 0 <= i < |s| ==> IsDigit(s[i]) || s[i] in "T:.,Z+-"
  }

  ghost predicate ValidCapabilities(s: seq<string>) {
    (forall i :: 0 <= i < |s| ==> IsIdentifier(s[i])) && Distinct(s)
  }

  ghost predicate Valid(r: AuthRequest) {
    && r.challenge.kind == "challenge" && r.hello.kind == "hello"
    && IsIdentifier(r.hello.guestId)
    && r.hello.generation >= 1
    && r.hello.version != ""
    && ValidNonce(r.challenge.nonce) && ValidNonce(r.hello.nonce)
    && |r.hello.capabilities| <= MAX_CAPABILITIES && ValidCapabilities(r.hello.capabilities)
    && TimestampShape(r.challenge.expiresAt)
  }

  /** validID walks the string once. */
  method ValidId(value: string) returns (ok: bool)
    ensures ok <==> IsIdentifier(value)
  {
    if |value| < 1 || |value| > 200 {
      return false;
    }
    for i := 0 to |value|
      invariant forall j :: 0 <= j < i ==> IsAlnum(value[j]) || (j > 0 && value[j] in "._:-")
    {
      var c := value[i];
      if !(IsAlnum(c) || (i > 0 && c in "._:-")) {
        assert c !in "._:-" || i == 0;
        return false;
      }
    }
    assert IsAlnum(value[0]);
    return true;
  }

  /** uniqueCapabilities fills a set of the names already seen. */
  method UniqueCapabilities(values: seq<string>) returns (ok: bool)
    ensures ok <==> ValidCapabilities(values)
  {
    var seen: set<string> := {};
    for i := 0 to |values|
      invariant seen == set j | 0 <= j < i :: values[j]
      invariant ValidCapabilities(values[..i])
    {
      var fine := ValidId(values[i]);
      if !fine {
        return false;
      }
      if values[i] in seen {
        return false;
      }
      assert values[..i + 1] == values[..i] + [values[i]];
      seen := seen + {values[i]};
    }
    assert values[..|values|] == values;
    return true;
  }

  // ---------------------------------------------------------------------------
  // The signed text.

  function Fields(r: AuthRequest): seq<string>
    requires r.hello.generation >= 0
  {
    ["sandbox-runtime-guest-auth-v1", r.challenge.nonce, r.challenge.expiresAt, r.hello.nonce, r.hello.guestId,
     Decimal(r.hello.generation), r.hello.version, Join(Sort(r.hello.capabilities), ',')]
  }

  function Signed(r: AuthRequest): string
    requires r.hello.generation >= 0
  {
    Join(Fields(r), '\n')
  }

  method SigningBytes(r: AuthRequest) returns (bytes: Option<string>)
    ensures bytes.Some? <==> Valid(r)
    ensures bytes.Some? ==> bytes == Some(Signed(r))
  {
    var id := ValidId(r.hello.guestId);
    var unique := UniqueCapabilities(r.hello.capabilities);
    if r.challenge.kind != "challenge" || r.hello.kind != "hello" || !id || r.hello.generation < 1 ||
       r.hello.version == "" || !ValidNonce(r.challenge.nonce) || !ValidNonce(r.hello.nonce) ||
       |r.hello.capabilities| > MAX_CAPABILITIES || !unique || !TimestampShape(r.challenge.expiresAt)
    {
      return None;
    }
    return Some(Signed(r));
  }

  /** The signed text after the first `k` fields. */
  function Tail(r: AuthRequest, k: nat): string
    requires r.hello.generation >= 0 && k < 8
  {
    Join(Fields(r)[k..], '\n')
  }

  lemma TailStep(r: AuthRequest, k: nat)
    requires r.hello.generation >= 0 && k < 7
    ensures Tail(r, k) == Fields(r)[k] + ['\n'] + Tail(r, k + 1)
  {
    assert Fields(r)[k..][1..] == Fields(r)[k + 1..];
  }

  lemma TailStart(r: AuthRequest, k: nat)
    requires r.hello.generation >= 0 && k < 7 && Fields(r)[k] != ""
    ensures Tail(r, k) != "" && Tail(r, k)[0] == Fields(r)[k][0]
  {
    TailStep(r, k);
  }

  lemma NoBreaks(r: AuthRequest, k: nat)
    requires Valid(r) && (k == 0 || k == 2 || k == 4 || k == 5)
    ensures '\n' !in Fields(r)[k]
  {
  }

  /** Fields that contain no line break are peeled off one by one. */
  lemma PeelLine(a: AuthRequest, b: AuthRequest, k: nat)
    requires Valid(a) && Valid(b) && (k == 0 || k == 2 || k == 4 || k == 5) && Tail(a, k) == Tail(b, k)
    ensures Fields(a)[k] == Fields(b)[k] && Tail(a, k + 1) == Tail(b, k + 1)
  {
    TailStep(a, k);
    TailStep(b, k);
    NoBreaks(a, k);
    NoBreaks(b, k);
    FirstField(Fields(a)[k], Fields(b)[k], Tail(a, k + 1), Tail(b, k + 1), '\n');
  }

  lemma PeelNonce(a: AuthRequest, b: AuthRequest, k: nat)
    requires Valid(a) && Valid(b) && (k == 1 || k == 3) && Tail(a, k) == Tail(b, k)
    ensures Fields(a)[k] == Fields(b)[k] && Tail(a, k + 1) == Tail(b, k + 1)
  {
    TailStep(a, k);
    TailStep(b, k);
    TailStart(a, k + 1);
    TailStart(b, k + 1);
    NonceField(Fields(a)[k], Fields(b)[k], Tail(a, k + 1), Tail(b, k + 1));
  }

  /** The protocol version is unrestricted, but the capabilities after it contain no line break. */
  lemma PeelVersion(a: AuthRequest, b: AuthRequest)
    requires Valid(a) && Valid(b) && Tail(a, 6) == Tail(b, 6)
    ensures a.hello.version == b.hello.version
    ensures Sort(a.hello.capabilities) == Sort(b.hello.capabilities)
  {
    TailStep(a, 6);
    TailStep(b, 6);
    CapabilitiesPlain(a.hello.capabilities);
    CapabilitiesPlain(b.hello.capabilities);
    var x, y := Sort(a.hello.capabilities), Sort(b.hello.capabilities);
    assert Tail(a, 7) == Join(x, ',') && Tail(b, 7) == Join(y, ',');
    LastField(a.hello.version, b.hello.version, Join(x, ','), Join(y, ','), '\n');
    JoinInjective(x, y, ',');
  }

  lemma CapabilitiesPlain(s: seq<string>)
    requires ValidCapabilities(s)
    ensures Plain(Sort(s), ',') && '\n' !in Join(Sort(s), ',')
  {
    SortSorts(s);
    forall i | 0 <= i < |Sort(s)| ensures IsIdentifier(Sort(s)[i]) {
      assert Sort(s)[i] in multiset(s);
    }
    JoinFree(Sort(s), ',', '\n');
  }

  function Names(s: seq<string>): set<string> {
    set x | x in s
  }

  lemma SameNames(a: seq<string>, b: seq<string>)
    requires Distinct(a) && Distinct(b)
    ensures Names(a) == Names(b) <==> Sort(a) == Sort(b)
  {
    SortSorts(a);
    SortSorts(b);
    if Sort(a) == Sort(b) {
      assert forall x :: x in a <==> x in multiset(a);
      assert forall x :: x in b <==> x in multiset(b);
    }
    if Names(a) == Names(b) {
      forall x ensures multiset(a)[x] == multiset(b)[x] {
        DistinctCount(a, x);
        DistinctCount(b, x);
        assert x in Names(a) <==> x in Names(b);
      }
      SortedUnique(Sort(a), Sort(b));
    }
  }

  lemma {:induction false} DistinctCount(s: seq<string>, x: string)
    requires Distinct(s)
    ensures multiset(s)[x] == if x in s then 1 else 0
  {
    if s != [] {
      assert s == [s[0]] + s[1..];
      DistinctCount(s[1..], x);
    }
  }

  ghost predicate SameRequest(a: AuthRequest, b: AuthRequest) {
    && a.challenge.nonce == b.challenge.nonce
    && a.challenge.expiresAt == b.challenge.expiresAt
    && a.hello.nonce == b.hello.nonce
    && a.hello.guestId == b.hello.guestId
    && a.hello.generation == b.hello.generation
    && a.hello.version == b.hello.version
    && Names(a.hello.capabilities) == Names(b.hello.capabilities)
  }

  lemma {:induction false} EqualBytesEqualFields(a: AuthRequest, b: AuthRequest, k: nat)
    requires Valid(a) && Valid(b) && Tail(a, 0) == Tail(b, 0) && k <= 6
    ensures forall j :: 0 <= j < k ==> Fields(a)[j] == Fields(b)[j]
    ensures Tail(a, k) == Tail(b, k)
  {
    if k > 0 {
      EqualBytesEqualFields(a, b, k - 1);
      if k == 2 || k == 4 {
        PeelNonce(a, b, k - 1);
      } else {
        PeelLine(a, b, k - 1);
      }
    }
  }

  lemma EqualBytesEqualRequests(a: AuthRequest, b: AuthRequest)
    requires Valid(a) && Valid(b) && Signed(a) == Signed(b)
    ensures SameRequest(a, b)
  {
    assert Fields(a)[0..] == Fields(a) && Fields(b)[0..] == Fields(b);
    EqualBytesEqualFields(a, b, 6);
    assert Fields(a)[1] == Fields(b)[1] && Fields(a)[2] == Fields(b)[2] && Fields(a)[3] == Fields(b)[3];
    assert Fields(a)[4] == Fields(b)[4] && Fields(a)[5] == Fields(b)[5];
    DecimalInjective(a.hello.generation, b.hello.generation);
    PeelVersion(a, b);
    SameNames(a.hello.capabilities, b.hello.capabilities);
  }

  /** Two valid requests are signed as the same bytes exactly when they agree on every field and
      name the same set of capabilities. */
  lemma SignedDetermines(a: AuthRequest, b: AuthRequest)
    requires Valid(a) && Valid(b)
    ensures Signed(a) == Signed(b) <==> SameRequest(a, b)
  {
    if Signed(a) == Signed(b) {
      EqualBytesEqualRequests(a, b);
    }
    if SameRequest(a, b) {
      SameNames(a.hello.capabilities, b.hello.capabilities);
      assert Fields(a) == Fields(b);
    }
  }
}
