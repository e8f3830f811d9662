/** The tracked event and its object key (server/internal/domain/event.go). */
module Domain {
  import opened Sequences
  import opened Calendar

  const TWO_32 := 0x1_0000_0000
  const TWO_64 := 0x1_0000_0000_0000_0000

  type uint32 = n: int | 0 <= n < TWO_32
  type uint64 = n: int | 0 <= n < TWO_64

  datatype S3Status = NoText | Pending | Uploaded

  datatype Tag = Tag(key: string, value: string)

  /** One LLM call. `uuid` is what parsing `eventId` as a UUID yields; `zoneMs` is the offset the
      timestamp carries; `tags` lists the tag map in some order. Strings stand for byte strings. */
  datatype Event = Event(
    org: uint64, eventId: string, uuid: Option<nat>, project: string,
    ms: int, zoneMs: int, model: string, provider: string,
    promptTokens: uint32, completionTokens: uint32, totalTokens: uint32, cost: real,
    tags: seq<Tag>, prompt: string, response: string, promptHash: string,
    s3Key: string, s3Status: S3Status)

  predicate HasText(e: Event) {
    e.prompt != "" || e.response != ""
  }

  /** The calendar day `t.Format` prints: the one in the timestamp's own offset. */
  function LocalDay(e: Event): int {
    DayOf(e.ms + e.zoneMs)
  }

  /** Map assignment on a tag list. */
  function SetTag(tags: seq<Tag>, key: string, value: string): seq<Tag> {
    if tags == [] then [Tag(key, value)]
    else if tags[0].key == key then [Tag(key, value)] + tags[1..]
    else [tags[0]] + SetTag(tags[1..], key, value)
  }

  /** Map lookup; the empty string when absent, as a missing key reads. */
  function TagValue(tags: seq<Tag>, key: string): string {
    if tags == [] then "" else if tags[0].key == key then tags[0].value else TagValue(tags[1..], key)
  }

  predicate HasTag(tags: seq<Tag>, key: string) {
    tags != [] && (tags[0].key == key || HasTag(tags[1..], key))
  }

  ghost predicate UniqueTags(tags: seq<Tag>) {
    forall i, j :: 0 <= i < j < |tags| ==> tags[i].key != tags[j].key
  }

  // ---------------------------------------------------------------- decimal text

  function Digit(d: int): char
    requires 0 <= d <= 9
  {
    '0' + d as char
  }

  /** Decimal notation of `n`, most significant digit first. */
  function DecimalText(n: nat): string {
    if n < 10 then [Digit(n)] else DecimalText(n / 10) + [Digit(n % 10)]
  }

  predicate AllDigits(s: string) {
    forall i :: 0 <= i < |s| ==> '0' <= s[i] <= '9'
  }

  /** The number a digit string denotes. */
  function ReadDecimal(s: string): nat
    requires AllDigits(s)
  {
    if s == "" then 0 else 10 * ReadDecimal(s[..|s| - 1]) + (s[|s| - 1] - '0') as int
  }

  function Pow10(k: nat): nat {
    if k == 0 then 1 else 10 * Pow10(k - 1)
  }

  /** Printing and reading back is the identity; the text has no superfluous leading zero and is
      never longer than the number of digits its bound allows. */
  lemma {:induction false} DecimalTextReads(n: nat)
    ensures AllDigits(DecimalText(n)) && DecimalText(n) != ""
    ensures ReadDecimal(DecimalText(n)) == n
    ensures DecimalText(n)[0] == '0' ==> n == 0
  {
    if n >= 10 {
      DecimalTextReads(n / 10);
      var t := DecimalText(n / 10);
      assert DecimalText(n) == t + [Digit(n % 10)];
      assert (t + [Digit(n % 10)])[..|t|] == t;
    }
  }

  lemma {:induction false} DecimalTextLength(n: nat, k: nat)
    requires k >= 1 && n < Pow10(k)
    ensures |DecimalText(n)| <= k
  {
    assert Pow10(1) == 10;
    if n >= 10 {
      DecimalTextLength(n / 10, k - 1);
    }
  }

  /** A `uint64` prints in at most twenty digits. */
  lemma Uint64TextLength(n: uint64)
    ensures |DecimalText(n)| <= 20
  {
    Pow10Of20();
    DecimalTextLength(n, 20);
  }

  lemma Pow10Of20()
    ensures Pow10(20) == 100_000_000_000_000_000_000
  {
    assert Pow10(10) == 10_000_000_000;
  }

  function Reversed(s: string): string {
    if s == "" then "" else Reversed(s[1..]) + [s[0]]
  }

  lemma {:induction false} ReversedAt(s: string, k: nat)
    requires k < |s|
    ensures |Reversed(s)| == |s| && Reversed(s)[k] == s[|s| - 1 - k]
  {
    if |s| > 1 {
      ReversedAt(s[1..], if k < |s| - 1 then k else 0);
    }
  }

  lemma {:induction false} ReversedSnoc(s: string, c: char)
    ensures Reversed(s + [c]) == [c] + Reversed(s)
  {
    if s != "" {
      assert (s + [c])[1..] == s[1..] + [c];
      ReversedSnoc(s[1..], c);
    }
  }

  lemma ReversedIs(was: string, now: string)
    requires |now| == |was| && forall k :: 0 <= k < |was| ==> now[k] == was[|was| - 1 - k]
    ensures now == Reversed(was)
  {
    if was != "" {
      forall k | 0 <= k < |was| ensures |Reversed(was)| == |was| && now[k] == Reversed(was)[k] {
        ReversedAt(was, k);
      }
    }
  }

  /** Reverses the first `len` cells in place. */
  method ReversePrefix(buf: array<char>, len: nat)
    requires len <= buf.Length
    modifies buf
    ensures buf[..len] == Reversed(old(buf[..len]))
  {
    var i, j := 0, len - 1;
    while i < j
      invariant 0 <= i <= len && j == len - 1 - i && i <= j + 2
      invariant forall k :: 0 <= k < i ==> buf[k] == old(buf[len - 1 - k]) && buf[len - 1 - k] == old(buf[k])
      invariant forall k :: i <= k <= j ==> buf[k] == old(buf[k])
    {
      buf[i], buf[j] := buf[j], buf[i];
      i, j := i + 1, j - 1;
    }
    ReversedIs(old(buf[..len]), buf[..len]);
  }

  /** The digits the loop has still to produce. */
  function Remaining(rest: nat): string {
    if rest > 0 then DecimalText(rest) else ""
  }

  lemma DigitMoves(rest: nat, done: string)
    requires rest > 0
    ensures Remaining(rest) + Reversed(done) == Remaining(rest / 10) + Reversed(done + [Digit(rest % 10)])
  {
    ReversedSnoc(done, Digit(rest % 10));
    RemainingDigit(rest);
    MoveOne(Remaining(rest / 10), Digit(rest % 10), Reversed(done));
  }

  lemma RemainingDigit(rest: nat)
    requires rest > 0
    ensures Remaining(rest) == Remaining(rest / 10) + [Digit(rest % 10)]
  {
    assert rest < 10 ==> Remaining(rest / 10) + [Digit(rest % 10)] == [Digit(rest)];
  }

  lemma MoveOne(a: string, c: char, b: string)
    ensures (a + [c]) + b == a + ([c] + b)
  {
  }

  /** While digits remain there is room for the next one. */
  lemma RoomLeft(rest: nat, len: nat)
    requires 0 < rest && len <= 20 && rest < Pow10(20 - len)
    ensures len < 20 && rest / 10 < Pow10(20 - (len + 1))
  {
  }

  /** The digit loop: least significant digit first; twenty cells always suffice. */
  method WriteDigits(n: uint64, buf: array<char>) returns (len: nat)
    requires buf.Length == 20
    modifies buf
    ensures len <= 20 && Reversed(buf[..len]) == Remaining(n)
  {
    len := 0;
    var rest: nat := n;
    Pow10Of20();
    assert buf[..0] == "";
    EndsReversed(n);
    while rest > 0
      invariant len <= 20 && rest < Pow10(20 - len)
      invariant Remaining(n) == Remaining(rest) + Reversed(buf[..len])
    {
      RoomLeft(rest, len);
      ghost var done := buf[..len];
      DigitMoves(rest, done);
      buf[len] := Digit(rest % 10);
      assert buf[..len + 1] == done + [Digit(rest % 10)];
      len := len + 1;
      rest := rest / 10;
    }
    assert Remaining(0) + Reversed(buf[..len]) == Reversed(buf[..len]);
  }

  lemma EndsReversed(n: nat)
    ensures Remaining(n) + Reversed("") == Remaining(n)
  {
  }

  /** `uintToStr`: the digits and their in-place reversal. */
  method UintToStr(n: uint64) returns (s: string)
    ensures s == DecimalText(n)
    ensures AllDigits(s) && ReadDecimal(s) == n && |s| <= 20
  {
    if n == 0 {
      s := "0";
    } else {
      var buf := new char[20];
      var len := WriteDigits(n, buf);
      ReversePrefix(buf, len);
      s := buf[..len];
    }
    DecimalTextReads(n);
    Uint64TextLength(n);
  }

  // ---------------------------------------------------------------- object keys

  /** Zero padding to a given width, as the time layouts `2006`, `01` and `02` print. */
  function Padded(n: nat, width: nat): string {
    WithZeros(DecimalText(n), width)
  }

  function WithZeros(t: string, width: nat): string {
    Zeros(if |t| >= width then 0 else width - |t|) + t
  }

  function Zeros(k: nat): string {
    if k == 0 then "" else "0" + Zeros(k - 1)
  }

  function YearText(year: int): string {
    Signed(year < 0, Padded(if year < 0 then -year else year, 4))
  }

  function DateText(d: Date, rest: string): string
    requires d.month >= 0 && d.day >= 0
  {
    YearText(d.year) + "/" + (Padded(d.month, 2) + "/" + (Padded(d.day, 2) + "/" + rest))
  }

  /** `v1/{org}/{YYYY}/{MM}/{DD}/{id}.zst`. */
  function S3ObjectKey(e: Event): string {
    CivilRoundTrip(LocalDay(e));
    "v1/" + (DecimalText(e.org) + "/" + DateText(CivilOf(LocalDay(e)), e.eventId + ".zst"))
  }

  /** The variable parts of a key between organisation and id. */
  datatype KeyDate = KeyDate(year: string, month: string, day: string, date: Date)

  /** The texts spell the date, month and day in two digits. */
  predicate SpellsDate(p: KeyDate) {
    && (p.date.year >= 0 ==> AllDigits(p.year) && ReadDecimal(p.year) == p.date.year && |p.year| >= 4)
    && AllDigits(p.month) && ReadDecimal(p.month) == p.date.month && |p.month| == 2
    && AllDigits(p.day) && ReadDecimal(p.day) == p.date.day && |p.day| == 2
  }

  /** How a key reads: organisation and id, and between them the date of the timestamp's own day. */
  lemma S3KeyReads(e: Event) returns (p: KeyDate)
    ensures S3ObjectKey(e) == "v1/" + DecimalText(e.org) + "/" + p.year + "/" + p.month + "/" + p.day + "/" + e.eventId + ".zst"
    ensures SpellsDate(p) && DayNumber(p.date) == (e.ms + e.zoneMs) / 86_400_000
  {
    var d := CivilOf(LocalDay(e));
    CivilRoundTrip(LocalDay(e));
    p := KeyDate(YearText(d.year), Padded(d.month, 2), Padded(d.day, 2), d);
    PaddedReads(if d.year < 0 then -d.year else d.year, 4);
    PaddedReads(d.month, 2);
    PaddedReads(d.day, 2);
    TwoDigits(d.month);
    TwoDigits(d.day);
    PaddedWidth(if d.year < 0 then -d.year else d.year, 4);
    KeyParts(DecimalText(e.org), p.year, p.month, p.day, e.eventId);
  }

  lemma KeyParts(org: string, year: string, month: string, day: string, id: string)
    ensures "v1/" + (org + "/" + (year + "/" + (month + "/" + (day + "/" + (id + ".zst"))))) ==
            "v1/" + org + "/" + year + "/" + month + "/" + day + "/" + id + ".zst"
  {
  }

  lemma {:induction false} ZerosLength(k: nat)
    ensures |Zeros(k)| == k
  {
    if k > 0 {
      ZerosLength(k - 1);
    }
  }

  lemma PaddedWidth(n: nat, width: nat)
    ensures |Padded(n, width)| >= width
    ensures |DecimalText(n)| <= width ==> |Padded(n, width)| == width
  {
    ZerosLength(if |DecimalText(n)| >= width then 0 else width - |DecimalText(n)|);
  }

  lemma TwoDigits(n: nat)
    requires n < 100
    ensures |Padded(n, 2)| == 2
  {
    assert Pow10(2) == 100;
    DecimalTextLength(n, 2);
    PaddedWidth(n, 2);
  }

  lemma ReadSnoc(s: string, c: char)
    requires AllDigits(s) && '0' <= c <= '9'
    ensures AllDigits(s + [c]) && ReadDecimal(s + [c]) == 10 * ReadDecimal(s) + (c - '0') as int
  {
    assert (s + [c])[..|s|] == s;
  }

  lemma {:induction false} ZerosRead(k: nat, t: string)
    requires AllDigits(t)
    ensures AllDigits(Zeros(k) + t) && ReadDecimal(Zeros(k) + t) == ReadDecimal(t)
  {
    if t == "" {
      OnlyZerosRead(k);
      assert Zeros(k) + t == Zeros(k);
    } else {
      var init, c := t[..|t| - 1], t[|t| - 1];
      assert t == init + [c];
      ZerosRead(k, init);
      ReadSnoc(init, c);
      ReadSnoc(Zeros(k) + init, c);
      assert Zeros(k) + t == (Zeros(k) + init) + [c];
    }
  }

  lemma {:induction false} OnlyZerosRead(k: nat)
    ensures AllDigits(Zeros(k)) && ReadDecimal(Zeros(k)) == 0
  {
    if k > 0 {
      OnlyZerosRead(k - 1);
      ZerosSnoc(k - 1);
      ReadSnoc(Zeros(k - 1), '0');
    }
  }

  lemma {:induction false} ZerosSnoc(k: nat)
    ensures Zeros(k + 1) == Zeros(k) + "0"
  {
    if k > 0 {
      ZerosSnoc(k - 1);
    }
  }

  lemma PaddedReads(n: nat, width: nat)
    ensures AllDigits(Padded(n, width)) && ReadDecimal(Padded(n, width)) == n && Padded(n, width) != ""
  {
    DecimalTextReads(n);
    WithZerosReads(DecimalText(n), width);
  }

  lemma WithZerosReads(t: string, width: nat)
    requires AllDigits(t) && t != ""
    ensures AllDigits(WithZeros(t, width)) && ReadDecimal(WithZeros(t, width)) == ReadDecimal(t)
    ensures WithZeros(t, width) != ""
  {
    ZerosRead(if |t| >= width then 0 else width - |t|, t);
  }

  function Signed(negative: bool, digits: string): string {
    if negative then "-" + digits else digits
  }

  lemma SignedInjective(m: bool, p: string, n: bool, q: string)
    requires AllDigits(p) && AllDigits(q) && p != "" && q != ""
    ensures '/' !in Signed(m, p)
    ensures Signed(m, p) == Signed(n, q) ==> m == n && p == q
  {
    assert m ==> Signed(m, p)[0] == '-' && Signed(m, p)[1..] == p;
    assert n ==> Signed(n, q)[0] == '-' && Signed(n, q)[1..] == q;
    assert p[0] != '-' && q[0] != '-';
  }

  lemma YearTextInjective(a: int, b: int)
    ensures '/' !in YearText(a)
    ensures YearText(a) == YearText(b) ==> a == b
  {
    var m, n := if a < 0 then -a else a, if b < 0 then -b else b;
    PaddedReads(m, 4);
    PaddedReads(n, 4);
    SignedInjective(a < 0, Padded(m, 4), b < 0, Padded(n, 4));
  }

  /** A `/`-free segment followed by `/` can be read off the front. */
  lemma SegmentUnique(a: string, x: string, b: string, y: string)
    requires '/' !in a && '/' !in b
    requires a + "/" + x == b + "/" + y
    ensures a == b && x == y
  {
    var s := a + "/" + x;
    var t := b + "/" + y;
    assert s[|a|] == '/' && t[|b|] == '/';
    assert forall i :: 0 <= i < |a| ==> s[i] in a;
    assert forall i :: 0 <= i < |b| ==> t[i] in b;
    assert a == s[..|a|] && b == t[..|b|];
    assert x == s[|a| + 1..] && y == t[|b| + 1..];
  }

  lemma DateTextInjective(c: Date, x: string, d: Date, y: string)
    requires c.month >= 0 && c.day >= 0 && d.month >= 0 && d.day >= 0
    requires DateText(c, x) == DateText(d, y)
    ensures c == d && x == y
  {
    YearTextInjective(c.year, d.year);
    YearTextInjective(d.year, c.year);
    PaddedReads(c.month, 2);
    PaddedReads(d.month, 2);
    PaddedReads(c.day, 2);
    PaddedReads(d.day, 2);
    var c2, d2 := Padded(c.day, 2) + "/" + x, Padded(d.day, 2) + "/" + y;
    SegmentUnique(YearText(c.year), Padded(c.month, 2) + "/" + c2, YearText(d.year), Padded(d.month, 2) + "/" + d2);
    SegmentUnique(Padded(c.month, 2), c2, Padded(d.month, 2), d2);
    SegmentUnique(Padded(c.day, 2), x, Padded(d.day, 2), y);
  }

  /** Two events share an object exactly when organisation, printed day and id agree: for every year,
      every offset and every id text, `/` included. */
  lemma S3KeyInjective(e: Event, f: Event)
    ensures S3ObjectKey(e) == S3ObjectKey(f) <==>
            e.org == f.org && LocalDay(e) == LocalDay(f) && e.eventId == f.eventId
  {
    if S3ObjectKey(e) == S3ObjectKey(f) {
      CivilRoundTrip(LocalDay(e));
      CivilRoundTrip(LocalDay(f));
      DecimalTextReads(e.org);
      DecimalTextReads(f.org);
      var x, y := DateText(CivilOf(LocalDay(e)), e.eventId + ".zst"), DateText(CivilOf(LocalDay(f)), f.eventId + ".zst");
      assert S3ObjectKey(e)[3..] == DecimalText(e.org) + "/" + x;
      assert S3ObjectKey(f)[3..] == DecimalText(f.org) + "/" + y;
      SegmentUnique(DecimalText(e.org), x, DecimalText(f.org), y);
      DateTextInjective(CivilOf(LocalDay(e)), e.eventId + ".zst", CivilOf(LocalDay(f)), f.eventId + ".zst");
      assert e.eventId == (e.eventId + ".zst")[..|e.eventId + ".zst"| - 4];
    }
  }
}
