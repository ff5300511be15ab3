/** Keys of queue entries in etcd and the order in which a sorted read returns them. */
module EntryKey {

  /** Byte-wise order of strings, as etcd and Go sort them. */
  predicate LexLess(a: string, b: string) {
    if b == [] then false
    else if a == [] then true
    else if a[0] != b[0] then a[0] < b[0]
    else LexLess(a[1..], b[1..])
  }

  lemma {:induction false} LexTotal(a: string, b: string)
    ensures a == b || LexLess(a, b) || LexLess(b, a)
    ensures !(LexLess(a, b) && LexLess(b, a))
    ensures a == b ==> !LexLess(a, b)
  {
    if a != [] && b != [] && a[0] == b[0] {
      LexTotal(a[1..], b[1..]);
      assert a == [a[0]] + a[1..] && b == [b[0]] + b[1..];
    }
  }

  lemma {:induction false} LexTransitive(a: string, b: string, c: string)
    requires LexLess(a, b) && LexLess(b, c)
    ensures LexLess(a, c)
  {
    if a != [] && a[0] == b[0] && b[0] == c[0] { LexTransitive(a[1..], b[1..], c[1..]); }
  }

  lemma {:induction false} LexPrefix(p: string, a: string, b: string)
    ensures LexLess(p + a, p + b) <==> LexLess(a, b)
  {
    if p == [] {
      assert p + a == a && p + b == b;
    } else {
      LexPrefix(p[1..], a, b);
      assert (p + a)[1..] == p[1..] + a && (p + b)[1..] == p[1..] + b;
    }
  }

  lemma {:induction false} LexLastChar(a: string, b: string, x: char, y: char)
    requires |a| == |b|
    ensures LexLess(a + [x], b + [y]) <==> LexLess(a, b) || (a == b && x < y)
  {
    if a == [] {
      assert a + [x] == [x] && b + [y] == [y];
    } else {
      assert (a + [x])[1..] == a[1..] + [x] && (b + [y])[1..] == b[1..] + [y];
      LexLastChar(a[1..], b[1..], x, y);
      assert a == [a[0]] + a[1..] && b == [b[0]] + b[1..];
    }
  }

  // ----- The zero-padded hexadecimal key -----

  const DIGITS := "0123456789abcdef"

  /** The last `width` hexadecimal digits of `n`. */
  function Hex(n: nat, width: nat): (s: string)
    ensures |s| == width
  {
    if width == 0 then "" else Hex(n / 16, width - 1) + [DIGITS[n % 16]]
  }

  function Power16(k: nat): nat {
    if k == 0 then 1 else 16 * Power16(k - 1)
  }

  /** Padded keys are ordered like the numbers they encode, and different numbers get different keys. */
  lemma {:induction false} HexOrder(m: nat, n: nat, width: nat)
    requires m < Power16(width) && n < Power16(width)
    ensures LexLess(Hex(m, width), Hex(n, width)) <==> m < n
    ensures Hex(m, width) == Hex(n, width) <==> m == n
  {
    if width > 0 {
      HexOrder(m / 16, n / 16, width - 1);
      var a, b := Hex(m / 16, width - 1), Hex(n / 16, width - 1);
      LexLastChar(a, b, DIGITS[m % 16], DIGITS[n % 16]);
      LastDigitsDiffer(a, b, m % 16, n % 16);
    }
  }

  lemma LastDigitsDiffer(a: string, b: string, i: nat, j: nat)
    requires |a| == |b| && i < 16 && j < 16
    ensures a + [DIGITS[i]] == b + [DIGITS[j]] <==> a == b && i == j
  {
    var s, t := a + [DIGITS[i]], b + [DIGITS[j]];
    assert s[..|a|] == a && t[..|b|] == b;
    assert s[|a|] == DIGITS[i] && t[|b|] == DIGITS[j];
  }

  const MAX_INT64: nat := 0x7fff_ffff_ffff_ffff

  function Key(prefix: string, index: nat): string {
    prefix + Hex(index, 16)
  }

  lemma Int64Fits()
    ensures MAX_INT64 < Power16(16)
  {
    assert Power16(4) == 0x1_0000;
    assert Power16(8) == 0x1_0000_0000;
    assert Power16(12) == 0x1_0000_0000_0000;
    assert Power16(16) == 0x1_0000_0000_0000_0000;
  }

  /** Entry keys are injective and strictly monotone on every non-negative 64-bit index. */
  lemma KeyOrder(prefix: string, m: nat, n: nat)
    requires m <= MAX_INT64 && n <= MAX_INT64
    ensures LexLess(Key(prefix, m), Key(prefix, n)) <==> m < n
    ensures Key(prefix, m) == Key(prefix, n) <==> m == n
  {
    Int64Fits();
    HexOrder(m, n, 16);
    LexPrefix(prefix, Hex(m, 16), Hex(n, 16));
    assert Key(prefix, m)[|prefix|..] == Hex(m, 16) && Key(prefix, n)[|prefix|..] == Hex(n, 16);
  }

  predicate KeysAscend(prefix: string, indices: seq<nat>) {
    forall i, j :: 0 <= i < j < |indices| ==> LexLess(Key(prefix, indices[i]), Key(prefix, indices[j]))
  }

  /** A prefix read sorted by key yields the entries in registration order. */
  lemma SortedReadInRegistrationOrder(prefix: string, indices: seq<nat>)
    requires forall i :: 0 <= i < |indices| ==> indices[i] <= MAX_INT64
    ensures KeysAscend(prefix, indices) <==> forall i, j :: 0 <= i < j < |indices| ==> indices[i] < indices[j]
  {
    forall i, j | 0 <= i < j < |indices|
      ensures LexLess(Key(prefix, indices[i]), Key(prefix, indices[j])) <==> indices[i] < indices[j]
    {
      KeyOrder(prefix, indices[i], indices[j]);
    }
  }

  // ----- Sorting addresses -----

  predicate StrictlyAscending(s: seq<string>) {
    forall i, j :: 0 <= i < j < |s| ==> LexLess(s[i], s[j])
  }

  function InsertAddress(s: seq<string>, a: string): seq<string> {
    if s == [] then [a]
    else if a == s[0] then s
    else if LexLess(a, s[0]) then [a] + s
    else [s[0]] + InsertAddress(s[1..], a)
  }

  lemma {:induction false} InsertKeepsOrder(s: seq<string>, a: string)
    requires StrictlyAscending(s)
    ensures StrictlyAscending(InsertAddress(s, a))
    ensures forall x :: x in InsertAddress(s, a) <==> x == a || x in s
  {
    if s != [] && a != s[0] {
      LexTotal(a, s[0]);
      if LexLess(a, s[0]) {
        forall j | 0 <= j < |s| ensures LexLess(a, s[j]) {
          if j > 0 { LexTransitive(a, s[0], s[j]); }
        }
      } else {
        InsertKeepsOrder(s[1..], a);
        var t := InsertAddress(s[1..], a);
        forall j | 0 <= j < |t| ensures LexLess(s[0], t[j]) { assert t[j] in t; }
      }
      assert s == [s[0]] + s[1..];
    }
  }

  /** Sorted without duplicates: what sorting and compacting a list of addresses yields. */
  function SortCompact(s: seq<string>): seq<string> {
    if s == [] then [] else InsertAddress(SortCompact(s[1..]), s[0])
  }

  lemma {:induction false} SortCompactSpec(s: seq<string>)
    ensures StrictlyAscending(SortCompact(s))
    ensures forall x :: x in SortCompact(s) <==> x in s
  {
    if s != [] {
      SortCompactSpec(s[1..]);
      InsertKeepsOrder(SortCompact(s[1..]), s[0]);
      assert s == [s[0]] + s[1..];
    }
  }
}
