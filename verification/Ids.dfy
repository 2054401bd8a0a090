/** Bytes, 32-byte digests and 16-byte identifiers with their byte order. */
module Ids {
  type Byte = b: int | 0 <= b < 256

  type Digest = d: seq<Byte> | |d| == 32 witness seq(32, _ => 0)

  type Uuid = u: seq<Byte> | |u| == 16 witness seq(16, _ => 0)

  /** Byte strings compared as Rust compares `[u8]`: byte by byte. */
  predicate BytesLe(a: seq<Byte>, b: seq<Byte>) {
    a == [] || (b != [] && (a[0] < b[0] || (a[0] == b[0] && BytesLe(a[1..], b[1..]))))
  }

  lemma {:induction false} BytesLeTotal(a: seq<Byte>, b: seq<Byte>)
    ensures BytesLe(a, b) || BytesLe(b, a)
    ensures BytesLe(a, b) && BytesLe(b, a) ==> a == b
  {
    if a != [] && b != [] {
      BytesLeTotal(a[1..], b[1..]);
      assert a == [a[0]] + a[1..] && b == [b[0]] + b[1..];
    }
  }

  /** Two strings of one length are in order if they are equal, or the first byte in which
      they differ is. */
  lemma {:induction false} BytesLeIsLexicographic(a: seq<Byte>, b: seq<Byte>)
    requires |a| == |b|
    ensures BytesLe(a, b) <==> a == b || exists i | 0 <= i < |a| :: a[..i] == b[..i] && a[i] < b[i]
  {
    if a != [] {
      BytesLeIsLexicographic(a[1..], b[1..]);
      assert a == [a[0]] + a[1..] && b == [b[0]] + b[1..];
      if a[0] == b[0] && BytesLe(a[1..], b[1..]) && a != b {
        var i :| 0 <= i < |a[1..]| && a[1..][..i] == b[1..][..i] && a[1..][i] < b[1..][i];
        assert a[..i + 1] == [a[0]] + a[1..][..i] && b[..i + 1] == [b[0]] + b[1..][..i];
        assert a[i + 1] < b[i + 1];
      }
      if i :| 0 <= i < |a| && a[..i] == b[..i] && a[i] < b[i] {
        if i > 0 {
          assert a[0] == a[..i][0] == b[..i][0] == b[0];
          assert a[1..][..i - 1] == a[..i][1..] && b[1..][..i - 1] == b[..i][1..];
          assert a[1..][i - 1] < b[1..][i - 1];
        } else {
          assert a[0] < b[0];
        }
      }
    }
  }

  lemma {:induction false} BytesLeTransitive(a: seq<Byte>, b: seq<Byte>, c: seq<Byte>)
    requires BytesLe(a, b) && BytesLe(b, c)
    ensures BytesLe(a, c)
  {
    if a != [] && a[0] == b[0] == c[0] {
      BytesLeTransitive(a[1..], b[1..], c[1..]);
    }
  }
}
