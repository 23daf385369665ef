/**
 Affinity keys: the 64-bit FNV-1a hash (draft-eastlake-fnv, section 2) of the first user message,
 written in hexadecimal.
 */
module AffinityKey {
  import opened Common
  import opened Json

  const TWO_64: nat := 0x1_0000_0000_0000_0000
  const OFFSET_64: nat := 14695981039346656037
  const PRIME_64: nat := 1099511628211

  /** 0xCE965057AFF6957B, the inverse of the prime modulo 2^64. */
  const INVERSE_64: nat := 14886173955864302971

  type uint64 = n: nat | n < TWO_64

  const USER: Bytes := Ascii("user")
  const TEXT: Bytes := Ascii("text")

  // ---- FNV-1a ----------------------------------------------------------------------------

  /** Bitwise exclusive or. */
  function Xor(a: nat, b: nat): nat {
    if a == 0 && b == 0 then 0 else 2 * Xor(a / 2, b / 2) + (a + b) % 2
  }

  lemma {:induction false} XorCancels(a: nat, b: nat)
    ensures Xor(Xor(a, b), b) == a && Xor(a, b) == Xor(b, a)
  {
    if a != 0 || b != 0 {
      XorCancels(a / 2, b / 2);
      var x := Xor(a, b);
      assert x / 2 == Xor(a / 2, b / 2) && x % 2 == (a + b) % 2;
    }
  }

  lemma {:induction false} XorBound(a: nat, b: nat, limit: nat, bits: nat)
    requires limit == Pow2(bits) && a < limit && b < limit
    ensures Xor(a, b) < limit
    decreases bits
  {
    if a != 0 || b != 0 {
      XorBound(a / 2, b / 2, Pow2(bits - 1), bits - 1);
    }
  }

  function Pow2(n: nat): nat {
    if n == 0 then 1 else 2 * Pow2(n - 1)
  }

  lemma Pow2Double(n: nat)
    ensures Pow2(2 * n) == Pow2(n) * Pow2(n)
  {
    Pow2Sum(n, n);
  }

  lemma {:induction false} Pow2Sum(m: nat, n: nat)
    ensures Pow2(m + n) == Pow2(m) * Pow2(n)
  {
    if m > 0 {
      Pow2Sum(m - 1, n);
    }
  }

  lemma Xor64(a: uint64, b: nat)
    requires b < 256
    ensures Xor(a, b) < TWO_64
  {
    assert Pow2(8) == 0x100;
    Pow2Double(8);
    Pow2Double(16);
    Pow2Double(32);
    XorBound(a, b, TWO_64, 64);
  }

  function Times(x: nat): uint64 {
    x * PRIME_64 % TWO_64
  }

  /** One round: xor with the byte, then multiply by the FNV prime modulo 2^64. */
  function Mix(h: uint64, b: byte): uint64 {
    Times(Xor(h, b))
  }

  function FnvFrom(h: uint64, data: Bytes): uint64
    decreases |data|
  {
    if data == [] then h else Mix(FnvFrom(h, data[..|data| - 1]), data[|data| - 1])
  }

  function Fnv64a(data: Bytes): uint64 {
    FnvFrom(OFFSET_64, data)
  }

  lemma {:induction false} FnvConcat(h: uint64, a: Bytes, b: Bytes)
    ensures FnvFrom(h, a + b) == FnvFrom(FnvFrom(h, a), b)
    decreases |b|
  {
    if b == [] {
      assert a + b == a;
    } else {
      assert (a + b)[..|a + b| - 1] == a + b[..|b| - 1];
      FnvConcat(h, a, b[..|b| - 1]);
    }
  }

  method HashBytes(data: Bytes) returns (h: uint64)
    ensures h == Fnv64a(data)
  {
    h := OFFSET_64;
    for i := 0 to |data|
      invariant h == Fnv64a(data[..i])
    {
      assert data[..i + 1][..i] == data[..i];
      h := Mix(h, data[i]);
    }
    assert data[..|data|] == data;
  }

  /** The prime is invertible modulo 2^64, so the multiplication loses nothing. */
  lemma TimesInverse(x: uint64)
    ensures Times(x) * INVERSE_64 % TWO_64 == x
  {
    var q, r := x * PRIME_64 / TWO_64, Times(x);
    var c := (PRIME_64 * INVERSE_64 - 1) / TWO_64;
    assert PRIME_64 * INVERSE_64 == 1 + c * TWO_64;
    assert r == x * PRIME_64 - q * TWO_64;
    assert r * INVERSE_64 == x + (x * c - q * INVERSE_64) * TWO_64;
    RemainderIs(r * INVERSE_64, x, x * c - q * INVERSE_64);
  }

  lemma RemainderIs(n: int, x: uint64, k: int)
    requires n == x + k * TWO_64
    ensures n % TWO_64 == x
  {
  }

  /** For a fixed byte, one round is a permutation of the state. */
  lemma MixSeparatesStates(h: uint64, g: uint64, b: byte)
    requires Mix(h, b) == Mix(g, b)
    ensures h == g
  {
    Xor64(h, b);
    Xor64(g, b);
    TimesInverse(Xor(h, b));
    TimesInverse(Xor(g, b));
    XorCancels(h, b);
    XorCancels(g, b);
  }

  /** For a fixed state, one round separates bytes. */
  lemma MixSeparatesBytes(h: uint64, a: byte, b: byte)
    requires Mix(h, a) == Mix(h, b)
    ensures a == b
  {
    Xor64(h, a);
    Xor64(h, b);
    TimesInverse(Xor(h, a));
    TimesInverse(Xor(h, b));
    XorCancels(h, a);
    XorCancels(h, b);
    XorCancels(a, h);
    XorCancels(b, h);
  }

  lemma {:induction false} FnvSeparatesStates(h: uint64, g: uint64, data: Bytes)
    requires FnvFrom(h, data) == FnvFrom(g, data)
    ensures h == g
    decreases |data|
  {
    if data != [] {
      var front := data[..|data| - 1];
      MixSeparatesStates(FnvFrom(h, front), FnvFrom(g, front), data[|data| - 1]);
      FnvSeparatesStates(h, g, front);
    }
  }

  /** The two strings have one length and differ at position i and nowhere else. */
  ghost predicate DifferOnlyAt(s: Bytes, t: Bytes, i: nat) {
    && |s| == |t| && i < |s| && s[i] != t[i]
    && forall j :: 0 <= j < |s| && j != i ==> s[j] == t[j]
  }

  /** Changing exactly one byte always changes the hash. */
  lemma FnvSeparatesOneByte(s: Bytes, t: Bytes, i: nat)
    requires DifferOnlyAt(s, t, i)
    ensures Fnv64a(s) != Fnv64a(t)
  {
    var front, back := s[..i], s[i + 1..];
    assert t[..i] == front && t[i + 1..] == back;
    assert s == front + ([s[i]] + back) && t == front + ([t[i]] + back);
    FnvConcat(OFFSET_64, front, [s[i]] + back);
    FnvConcat(OFFSET_64, front, [t[i]] + back);
    FnvConcat(FnvFrom(OFFSET_64, front), [s[i]], back);
    FnvConcat(FnvFrom(OFFSET_64, front), [t[i]], back);
    var h := FnvFrom(OFFSET_64, front);
    assert FnvFrom(h, [s[i]]) == Mix(h, s[i]) && FnvFrom(h, [t[i]]) == Mix(h, t[i]) by {
      assert [s[i]][..0] == [] && [t[i]][..0] == [];
    }
    if Fnv64a(s) == Fnv64a(t) {
      FnvSeparatesStates(Mix(h, s[i]), Mix(h, t[i]), back);
      MixSeparatesBytes(h, s[i], t[i]);
    }
  }

  // ---- Base 16 ---------------------------------------------------------------------------

  const DIGITS: Bytes := [
    0x30, 0x31, 0x32, 0x33, 0x34, 0x35, 0x36, 0x37, 0x38, 0x39, 0x61, 0x62, 0x63, 0x64, 0x65, 0x66]

  function FormatHex(n: nat): (s: Bytes)
    ensures |s| > 0
  {
    if n < 16 then [DIGITS[n]] else FormatHex(n / 16) + [DIGITS[n % 16]]
  }

  lemma DigitsDistinct(a: nat, b: nat)
    requires a < 16 && b < 16 && DIGITS[a] == DIGITS[b]
    ensures a == b
  {
  }

  lemma {:induction false} FormatHexInjective(m: nat, n: nat)
    requires FormatHex(m) == FormatHex(n)
    ensures m == n
    decreases m
  {
    var s, t := FormatHex(m), FormatHex(n);
    if m < 16 || n < 16 {
      assert |s| == 1 && |t| == 1;
      DigitsDistinct(if m < 16 then m else 0, if n < 16 then n else 0);
    } else {
      assert s[|s| - 1] == DIGITS[m % 16] && t[|t| - 1] == DIGITS[n % 16];
      DigitsDistinct(m % 16, n % 16);
      assert s[..|s| - 1] == FormatHex(m / 16) && t[..|t| - 1] == FormatHex(n / 16);
      FormatHexInjective(m / 16, n / 16);
    }
  }

  // ---- The key of a request --------------------------------------------------------------

  /** The text of one part of a multipart content, empty unless the part is a text part. */
  function PartText(part: Json): Bytes {
    if part.Obj? && "type" in part.fields && part.fields["type"] == Str(TEXT)
    then StringAt(part.fields, "text") else []
  }

  function PartsText(parts: seq<Json>): Bytes
    decreases |parts|
  {
    if parts == [] then [] else PartsText(parts[..|parts| - 1]) + PartText(parts[|parts| - 1])
  }

  function ContentText(msg: Object): Bytes {
    if "content" !in msg then []
    else match msg["content"]
      case Str(s) => s
      case Arr(parts) => PartsText(parts)
      case _ => []
  }

  method StringifyContent(msg: Object) returns (s: Bytes)
    ensures s == ContentText(msg)
  {
    s := [];
    if "content" in msg {
      match msg["content"]
      case Str(text) =>
        s := text;
      case Arr(parts) =>
        for i := 0 to |parts|
          invariant s == PartsText(parts[..i])
        {
          assert parts[..i + 1][..i] == parts[..i];
          var part := parts[i];
          if part.Obj? && "type" in part.fields && part.fields["type"] == Str(TEXT) {
            s := s + StringAt(part.fields, "text");
          }
        }
        assert parts[..|parts|] == parts;
      case _ =>
    }
  }

  predicate IsUser(m: Json) {
    m.Obj? && StringAt(m.fields, "role") == USER
  }

  /** The first message with role "user". */
  function FirstUser(messages: seq<Json>): (r: Option<Object>)
    ensures r == None <==> forall m :: m in messages ==> !IsUser(m)
    ensures r.Some? ==> Obj(r.value) in messages && IsUser(Obj(r.value))
    decreases |messages|
  {
    if messages == [] then None
    else if IsUser(messages[0]) then Some(messages[0].fields)
    else FirstUser(messages[1..])
  }

  function Truncate(s: Bytes, maxBytes: nat): Bytes {
    if |s| > maxBytes then s[..maxBytes] else s
  }

  function KeyOf(messages: seq<Json>, maxBytes: nat): Bytes {
    match FirstUser(messages)
    case None => []
    case Some(msg) => FormatHex(Fnv64a(Truncate(ContentText(msg), maxBytes)))
  }

  /** The code: the first user message decides, and a body without one has the empty key. */
  method FirstUserMessageKey(body: Object, maxBytes: nat) returns (key: Bytes)
    ensures key == if "messages" in body && body["messages"].Arr? then KeyOf(body["messages"].items, maxBytes) else []
  {
    if "messages" !in body || !body["messages"].Arr? {
      return [];
    }
    var messages := body["messages"].items;
    if |messages| == 0 {
      return [];
    }
    for i := 0 to |messages|
      invariant FirstUser(messages[i..]) == FirstUser(messages)
    {
      assert messages[i..][0] == messages[i] && messages[i..][1..] == messages[i + 1..];
      if !messages[i].Obj? {
        continue;
      }
      var msg := messages[i].fields;
      if StringAt(msg, "role") != USER {
        continue;
      }
      var content := StringifyContent(msg);
      if |content| > maxBytes {
        content := content[..maxBytes];
      }
      var h := HashBytes(content);
      return FormatHex(h);
    }
    return [];
  }

  /**
   Two conversations whose first user messages have one length and differ in exactly one of the
   hashed bytes get different keys.
   */
  lemma OneByteChangesKey(a: seq<Json>, b: seq<Json>, maxBytes: nat, i: nat)
    requires FirstUser(a).Some? && FirstUser(b).Some?
    requires DifferOnlyAt(ContentText(FirstUser(a).value), ContentText(FirstUser(b).value), i) && i < maxBytes
    ensures KeyOf(a, maxBytes) != KeyOf(b, maxBytes)
  {
    var s, t := ContentText(FirstUser(a).value), ContentText(FirstUser(b).value);
    var h, g := Fnv64a(Truncate(s, maxBytes)), Fnv64a(Truncate(t, maxBytes));
    assert DifferOnlyAt(Truncate(s, maxBytes), Truncate(t, maxBytes), i);
    FnvSeparatesOneByte(Truncate(s, maxBytes), Truncate(t, maxBytes), i);
    if FormatHex(h) == FormatHex(g) {
      FormatHexInjective(h, g);
    }
  }

  /** Later turns append messages, and that never changes the key once a user message is there. */
  lemma {:induction false} AppendingKeepsFirstUser(messages: seq<Json>, more: seq<Json>)
    requires FirstUser(messages).Some?
    ensures FirstUser(messages + more) == FirstUser(messages)
    decreases |messages|
  {
    assert (messages + more)[0] == messages[0];
    if !IsUser(messages[0]) {
      AppendingKeepsFirstUser(messages[1..], more);
      assert (messages + more)[1..] == messages[1..] + more;
    }
  }

  lemma AppendingKeepsKey(messages: seq<Json>, more: seq<Json>, maxBytes: nat)
    requires FirstUser(messages).Some?
    ensures KeyOf(messages + more, maxBytes) == KeyOf(messages, maxBytes) != []
  {
    AppendingKeepsFirstUser(messages, more);
  }
}
