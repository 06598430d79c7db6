/** Text and byte primitives that several components are built on: splitting and
    joining, fixed-width big-endian integers, and the option and result types. */
module Text {

  type byte = b: int | 0 <= b < 256

  datatype Option<+T> = None | Some(value: T)

  datatype Result<+T> = Ok(value: T) | Err

  /** `strings.Split(s, c)` for a one-character separator. */
  function SplitOn(s: string, c: char): (parts: seq<string>)
    ensures |parts| >= 1
  {
    if s == "" then [""]
    else if s[0] == c then [""] + SplitOn(s[1..], c)
    else
      var rest := SplitOn(s[1..], c);
      [[s[0]] + rest[0]] + rest[1..]
  }

  /** `strings.Join(parts, c)`. */
  function Join(parts: seq<string>, c: char): string
    requires parts != []
  {
    if |parts| == 1 then parts[0] else parts[0] + [c] + Join(parts[1..], c)
  }

  /** Every part followed by the separator, as the metadata printer writes lines. */
  function Terminated(parts: seq<string>, c: char): string {
    if parts == [] then "" else parts[0] + [c] + Terminated(parts[1..], c)
  }

  /** `strings.SplitN(s, c, 2)`: the text before the first separator and the text
      after it, or nothing when the separator does not occur. */
  function Cut(s: string, c: char): (r: Option<(string, string)>) {
    if s == "" then None
    else if s[0] == c then Some(("", s[1..]))
    else
      match Cut(s[1..], c)
      case None => None
      case Some((before, after)) => Some(([s[0]] + before, after))
  }

  lemma {:induction false} SplitSeparator(a: string, c: char, rest: string)
    requires c !in a
    ensures SplitOn(a + [c] + rest, c) == [a] + SplitOn(rest, c)
  {
    var s := a + [c] + rest;
    if a == "" {
      assert s[1..] == rest;
    } else {
      assert s[1..] == a[1..] + [c] + rest;
      SplitSeparator(a[1..], c, rest);
      assert [s[0]] + a[1..] == a;
    }
  }

  lemma {:induction false} SplitNoSeparator(a: string, c: char)
    requires c !in a
    ensures SplitOn(a, c) == [a]
  {
    if a != "" {
      SplitNoSeparator(a[1..], c);
      assert [a[0]] + a[1..] == a;
    }
  }

  lemma {:induction false} SplitOfJoin(parts: seq<string>, c: char)
    requires parts != [] && forall p | p in parts :: c !in p
    ensures SplitOn(Join(parts, c), c) == parts
  {
    if |parts| == 1 {
      SplitNoSeparator(parts[0], c);
    } else {
      SplitOfJoin(parts[1..], c);
      SplitSeparator(parts[0], c, Join(parts[1..], c));
    }
  }

  lemma {:induction false} TerminatedIsJoined(parts: seq<string>, c: char)
    requires parts != []
    ensures Terminated(parts, c) == Join(parts, c) + [c]
  {
    if |parts| > 1 {
      TerminatedIsJoined(parts[1..], c);
    } else {
      assert Terminated(parts[1..], c) == "";
    }
  }

  lemma {:induction false} TerminatedAppend(a: seq<string>, b: seq<string>, c: char)
    ensures Terminated(a + b, c) == Terminated(a, c) + Terminated(b, c)
  {
    if a == [] {
      assert a + b == b;
    } else {
      assert (a + b)[1..] == a[1..] + b;
      TerminatedAppend(a[1..], b, c);
    }
  }

  lemma {:induction false} CutSeparator(a: string, c: char, rest: string)
    requires c !in a
    ensures Cut(a + [c] + rest, c) == Some((a, rest))
  {
    var s := a + [c] + rest;
    if a == "" {
      assert s[1..] == rest;
    } else {
      assert s[1..] == a[1..] + [c] + rest;
      CutSeparator(a[1..], c, rest);
      assert [s[0]] + a[1..] == a;
    }
  }

  /** `unicode.IsSpace`. */
  predicate IsSpace(c: char) {
    || '\U{0009}' <= c <= '\U{000D}'
    || c == ' ' || c == '\U{0085}' || c == '\U{00A0}' || c == '\U{1680}'
    || '\U{2000}' <= c <= '\U{200A}'
    || c == '\U{2028}' || c == '\U{2029}' || c == '\U{202F}' || c == '\U{205F}' || c == '\U{3000}'
  }

  function TrimLeft(s: string): string {
    if s != "" && IsSpace(s[0]) then TrimLeft(s[1..]) else s
  }

  function TrimRight(s: string): string {
    if s != "" && IsSpace(s[|s| - 1]) then TrimRight(s[..|s| - 1]) else s
  }

  /** `strings.TrimSpace`. */
  function TrimSpace(s: string): string {
    TrimRight(TrimLeft(s))
  }

  /** Base-256 digits of `n`, most significant first, `width` of them. */
  function BigEndian(n: nat, width: nat): (bs: seq<byte>)
    ensures |bs| == width
  {
    if width == 0 then [] else BigEndian(n / 256, width - 1) + [n % 256]
  }

  function FromBigEndian(bs: seq<byte>): nat {
    if bs == [] then 0 else 256 * FromBigEndian(bs[..|bs| - 1]) + bs[|bs| - 1]
  }

  function Pow256(width: nat): nat {
    if width == 0 then 1 else 256 * Pow256(width - 1)
  }

  lemma {:induction false} BigEndianRoundTrip(n: nat, width: nat)
    requires n < Pow256(width)
    ensures FromBigEndian(BigEndian(n, width)) == n
  {
    if width > 0 {
      BigEndianRoundTrip(n / 256, width - 1);
      assert BigEndian(n, width)[..width - 1] == BigEndian(n / 256, width - 1);
    }
  }

  const TWO_64: nat := 0x1_0000_0000_0000_0000

  type uint64 = n: nat | n < 0x1_0000_0000_0000_0000

  lemma Pow256Widths()
    ensures Pow256(2) == 0x1_0000
    ensures Pow256(8) == TWO_64
  {
    assert Pow256(4) == 0x1_0000_0000;
    assert Pow256(6) == 0x1_0000_0000_0000;
  }
}
