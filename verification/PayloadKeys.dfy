/** Object keys of payloads, and the parser the orphan sweep uses to find the lock of a key.
  *
  * Text is ASCII: a character stands for a byte.
  */
module PayloadKeys {
  import opened Basics

  const SHA256_LENGTH := 64

  // ---- UUID text ----

  const UUID_COUNT: int := 0x1_0000_0000_0000_0000_0000_0000_0000_0000

  /** A 128-bit identifier. */
  type Uuid128 = n: int | 0 <= n < 0x1_0000_0000_0000_0000_0000_0000_0000_0000

  function DigitChar(d: nat): char
    requires d < 16
  {
    if d < 10 then '0' + d as char else 'a' + (d - 10) as char
  }

  function DigitOf(c: char): Option<nat> {
    if '0' <= c <= '9' then Some((c - '0') as nat)
    else if 'a' <= c <= 'f' then Some((c - 'a') as nat + 10)
    else if 'A' <= c <= 'F' then Some((c - 'A') as nat + 10)
    else None
  }

  /** The last `width` lower-case hexadecimal digits of `n`. */
  function Hex(n: nat, width: nat): (s: string)
    ensures |s| == width
  {
    if width == 0 then "" else Hex(n / 16, width - 1) + [DigitChar(n % 16)]
  }

  /** The value of a string of hexadecimal digits of either case. */
  function Unhex(s: string): Option<nat> {
    if s == "" then Some(0)
    else
      var high := Unhex(s[..|s| - 1]);
      var low := DigitOf(s[|s| - 1]);
      if high.Some? && low.Some? then Some(16 * high.value + low.value) else None
  }

  function Power16(width: nat): nat {
    if width == 0 then 1 else 16 * Power16(width - 1)
  }

  lemma {:induction false} DigitsRoundTrip(d: nat)
    requires d < 16
    ensures DigitOf(DigitChar(d)) == Some(d)
  {
  }

  lemma {:induction false} UnhexHex(n: nat, width: nat)
    requires n < Power16(width)
    ensures Unhex(Hex(n, width)) == Some(n)
  {
    hide DigitOf, DigitChar;
    if width > 0 {
      UnhexHex(n / 16, width - 1);
      DigitsRoundTrip(n % 16);
      assert Hex(n, width)[..width - 1] == Hex(n / 16, width - 1);
      assert Hex(n, width)[width - 1] == DigitChar(n % 16);
    }
  }

  lemma {:induction false} HexIsPlain(n: nat, width: nat)
    ensures '/' !in Hex(n, width)
  {
    if width > 0 {
      HexIsPlain(n / 16, width - 1);
    }
  }

  /** Digits grouped 8-4-4-4-12, as `Uuid` is displayed. */
  function Grouped(s: string): string
    requires |s| == 32
  {
    s[..8] + "-" + s[8..12] + "-" + s[12..16] + "-" + s[16..20] + "-" + s[20..]
  }

  function UuidText(id: Uuid128): string {
    Grouped(Hex(id, 32))
  }

  /** `Uuid::parse_str`: the grouped form, bare, or wrapped as a URN or in braces. */
  function ParseUuid(s: string): Option<Uuid128> {
    if |s| == 32 then Bounded(Unhex(s))
    else if |s| == 36 then ParseGrouped(s)
    else if |s| == 38 && s[0] == '{' && s[37] == '}' then ParseGrouped(s[1..37])
    else if |s| == 45 && s[..9] == "urn:uuid:" then ParseGrouped(s[9..])
    else None
  }

  function Bounded(n: Option<nat>): Option<Uuid128> {
    if n.Some? && n.value < UUID_COUNT then Some(n.value) else None
  }

  function ParseGrouped(s: string): Option<Uuid128>
    requires |s| == 36
  {
    if s[8] == '-' && s[13] == '-' && s[18] == '-' && s[23] == '-'
    then Bounded(Unhex(s[..8] + s[9..13] + s[14..18] + s[19..23] + s[24..]))
    else None
  }

  lemma {:induction false} UngroupGrouped(s: string)
    requires |s| == 32
    ensures var t := Grouped(s);
      && |t| == 36 && t[8] == '-' && t[13] == '-' && t[18] == '-' && t[23] == '-'
      && t[..8] + t[9..13] + t[14..18] + t[19..23] + t[24..] == s
  {
    var t := Grouped(s);
    assert t[..8] == s[..8] && t[9..13] == s[8..12] && t[14..18] == s[12..16] && t[19..23] == s[16..20] && t[24..] == s[20..];
    assert s[..8] + s[8..12] == s[..12];
    assert s[..12] + s[12..16] == s[..16];
    assert s[..16] + s[16..20] == s[..20];
    assert s[..20] + s[20..] == s;
  }

  lemma {:induction false} GroupedIsPlain(s: string)
    requires |s| == 32 && '/' !in s
    ensures '/' !in Grouped(s)
  {
    forall i | 0 <= i < 36 ensures Grouped(s)[i] in s || Grouped(s)[i] == '-' {
    }
  }

  lemma {:induction false} ParseUuidText(id: Uuid128)
    ensures ParseUuid(UuidText(id)) == Some(id)
    ensures '/' !in UuidText(id)
  {
    hide Hex, Unhex, Grouped, Power16;
    PowerIsUuidCount();
    UnhexHex(id, 32);
    HexIsPlain(id, 32);
    UngroupGrouped(Hex(id, 32));
    GroupedIsPlain(Hex(id, 32));
  }

  lemma {:induction false} PowerIsUuidCount()
    ensures Power16(32) == UUID_COUNT
  {
    assert Power16(8) == 0x1_0000_0000;
    assert Power16(16) == 0x1_0000_0000_0000_0000;
    assert Power16(24) == 0x1_0000_0000_0000_0000_0000_0000;
  }

  // ---- Splitting ----

  /** `str::split('/')`. */
  function Split(s: string): (parts: seq<string>)
    ensures parts != []
  {
    if s == "" then [""]
    else if s[0] == '/' then [""] + Split(s[1..])
    else
      var rest := Split(s[1..]);
      [[s[0]] + rest[0]] + rest[1..]
  }

  lemma {:induction false} SplitPlain(s: string)
    requires '/' !in s
    ensures Split(s) == [s]
  {
    if s != "" {
      SplitPlain(s[1..]);
      assert [s[0]] + s[1..] == s;
    }
  }

  lemma {:induction false} SplitAfter(a: string, b: string)
    requires '/' !in a
    ensures Split(a + "/" + b) == [a] + Split(b)
  {
    var s := a + "/" + b;
    if a == "" {
      assert s[1..] == b;
    } else {
      SplitAfter(a[1..], b);
      assert s[1..] == a[1..] + "/" + b;
      assert [a[0]] + a[1..] == a;
    }
  }

  lemma {:induction false} SplitSlashes(s: string)
    requires '/' in s
    ensures |Split(s)| > 1
  {
    if s[0] != '/' {
      assert s == [s[0]] + s[1..];
      SplitSlashes(s[1..]);
    }
  }

  // ---- Keys ----

  function Shard(hash: string): string {
    if |hash| >= 2 then hash[..2] else hash
  }

  function PayloadKey(owner: Uuid128, project: Uuid128, hash: string): string {
    "users" + "/" + (UuidText(owner) + "/" + ("projects" + "/" + (UuidText(project) + "/" +
      ("payloads" + "/" + ("sha256" + "/" + (Shard(hash) + "/" + hash))))))
  }

  function ParsePayloadKey(key: string): Option<(Uuid128, Uuid128, string)> {
    var parts := Split(key);
    if |parts| != 8 || parts[0] != "users" || ParseUuid(parts[1]).None? || parts[2] != "projects" || ParseUuid(parts[3]).None?
      || parts[4] != "payloads" || parts[5] != "sha256" || |parts[7]| != SHA256_LENGTH
    then None
    else Some((ParseUuid(parts[1]).value, ParseUuid(parts[3]).value, parts[7]))
  }

  lemma {:induction false} KeyParts(owner: Uuid128, project: Uuid128, hash: string)
    ensures Split(PayloadKey(owner, project, hash)) ==
      ["users", UuidText(owner), "projects", UuidText(project), "payloads", "sha256"] + Split(Shard(hash) + "/" + hash)
  {
    hide UuidText, ParseUuid, Shard, Split;
    ParseUuidText(owner);
    ParseUuidText(project);
    var tail := Shard(hash) + "/" + hash;
    var e := "sha256" + "/" + tail;
    var d := "payloads" + "/" + e;
    var c := UuidText(project) + "/" + d;
    var b := "projects" + "/" + c;
    var a := UuidText(owner) + "/" + b;
    SplitAfter("sha256", tail);
    SplitAfter("payloads", e);
    SplitAfter(UuidText(project), d);
    SplitAfter("projects", c);
    SplitAfter(UuidText(owner), b);
    SplitAfter("users", a);
  }

  lemma {:induction false} TailParts(hash: string)
    ensures '/' !in hash ==> Split(Shard(hash) + "/" + hash) == [Shard(hash), hash]
    ensures '/' in hash ==> |Split(Shard(hash) + "/" + hash)| > 2
  {
    if '/' in Shard(hash) {
      TwoSplits(Shard(hash), hash);
      SplitSlashes(Shard(hash));
    } else {
      SplitAfter(Shard(hash), hash);
      if '/' in hash {
        SplitSlashes(hash);
      } else {
        SplitPlain(hash);
      }
    }
  }

  lemma {:induction false} TwoSplits(a: string, b: string)
    ensures |Split(a + "/" + b)| == |Split(a)| + |Split(b)|
  {
    var s := a + "/" + b;
    if a == "" {
      assert s[1..] == b;
    } else {
      TwoSplits(a[1..], b);
      assert s[1..] == a[1..] + "/" + b;
    }
  }

  /** The parser inverts the key exactly on hashes of 64 characters without a slash, among them
    * every hexadecimal SHA-256. */
  lemma {:induction false} ParseInvertsKey(owner: Uuid128, project: Uuid128, hash: string)
    ensures ParsePayloadKey(PayloadKey(owner, project, hash)) == Some((owner, project, hash))
      <==> |hash| == SHA256_LENGTH && '/' !in hash
  {
    KeyParts(owner, project, hash);
    TailParts(hash);
    ParseUuidText(owner);
    ParseUuidText(project);
    if '/' in hash {
      assert |Split(PayloadKey(owner, project, hash))| > 8;
    }
  }

  /** No two payloads share an object key. */
  lemma {:induction false} KeysAreDistinct(owner: Uuid128, project: Uuid128, hash: string,
      owner': Uuid128, project': Uuid128, hash': string)
    requires |hash| == SHA256_LENGTH && '/' !in hash && |hash'| == SHA256_LENGTH && '/' !in hash'
    requires PayloadKey(owner, project, hash) == PayloadKey(owner', project', hash')
    ensures owner == owner' && project == project' && hash == hash'
  {
    ParseInvertsKey(owner, project, hash);
    ParseInvertsKey(owner', project', hash');
  }

  /** Whatever key the parser accepts is a payload key up to its shard and the spelling of its ids:
    * it names a hash of 64 characters in one segment. */
  lemma {:induction false} ParsedHash(key: string)
    requires ParsePayloadKey(key).Some?
    ensures var (_, _, hash) := ParsePayloadKey(key).value; |hash| == SHA256_LENGTH && '/' !in hash
  {
    PartsArePlain(key);
  }

  lemma {:induction false} PartsArePlain(s: string)
    ensures forall i :: 0 <= i < |Split(s)| ==> '/' !in Split(s)[i]
  {
    if s != "" {
      PartsArePlain(s[1..]);
    }
  }
}
