/** Machine integers, addresses and byte strings shared by every part of the proxy. */
module Base {

  type byte = x: int | 0 <= x < 0x100
  type u16 = x: int | 0 <= x < 0x1_0000
  type u32 = x: int | 0 <= x < 0x1_0000_0000

  const TWO32 := 0x1_0000_0000

  /** The `wrapping_add` of the source. */
  function WrapAdd(a: u32, b: u32): u32 {
    (a + b) % TWO32
  }

  datatype Option<+T> = None | Some(value: T) {
    predicate IsFailure() {
      None?
    }

    function PropagateFailure<U>(): Option<U>
      requires None?
    {
      None
    }

    function Extract(): T
      requires Some?
    {
      value
    }
  }

  type Octets4 = s: seq<byte> | |s| == 4 witness [0, 0, 0, 0]
  type Octets16 = s: seq<byte> | |s| == 16 witness [0, 0, 0, 0, 0, 0, 0, 0, 0, 0, 0, 0, 0, 0, 0, 0]

  datatype IpAddr = V4(four: Octets4) | V6(sixteen: Octets16)

  predicate SameFamily(a: IpAddr, b: IpAddr) {
    a.V4? <==> b.V4?
  }

  lemma Front<T>(a: seq<T>, b: seq<T>)
    ensures (a + b)[..|a|] == a && (a + b)[0..|a|] == a && (a + b)[|a|..] == b
  {
  }

  /** A slice of a concatenation that lies in its second part. */
  lemma Behind<T>(a: seq<T>, b: seq<T>, from: nat, to: nat)
    requires from <= to <= |b|
    ensures (a + b)[|a| + from..|a| + to] == b[from..to]
  {
  }

  lemma Joined<T>(a: seq<T>, b: seq<T>, c: seq<T>)
    ensures (a + b) + c == a + (b + c)
  {
  }

  lemma Adjacent<T>(s: seq<T>, from: nat, mid: nat, to: nat)
    requires from <= mid <= to <= |s|
    ensures s[from..mid] + s[mid..to] == s[from..to]
  {
  }

  /** The concatenation of a list of byte strings. */
  function Concat(parts: seq<seq<byte>>): seq<byte> {
    if parts == [] then [] else parts[0] + Concat(parts[1..])
  }

  lemma {:induction false} ConcatAppend(parts: seq<seq<byte>>, last: seq<byte>)
    ensures Concat(parts + [last]) == Concat(parts) + last
  {
    if parts == [] {
      assert parts + [last] == [last];
      assert Concat([last]) == last + Concat([]);
    } else {
      assert (parts + [last])[1..] == parts[1..] + [last];
      ConcatAppend(parts[1..], last);
      assert parts[0] + (Concat(parts[1..]) + last) == (parts[0] + Concat(parts[1..])) + last;
    }
  }

  function Pow256(width: nat): nat {
    if width == 0 then 1 else 256 * Pow256(width - 1)
  }

  /** The number a big-endian byte string denotes. */
  function FromBig(bs: seq<byte>): (n: nat)
    ensures n < Pow256(|bs|)
  {
    if bs == [] then 0 else 256 * FromBig(bs[..|bs| - 1]) + bs[|bs| - 1]
  }

  /** The big-endian byte string of a given width. */
  function ToBig(n: nat, width: nat): (bs: seq<byte>)
    requires n < Pow256(width)
    ensures |bs| == width && FromBig(bs) == n
  {
    if width == 0 then []
    else
      var front := ToBig(n / 256, width - 1);
      assert (front + [n % 256])[..width - 1] == front;
      front + [n % 256]
  }

  /** Two and four octets of a byte string, most significant first. */
  function Two(bs: seq<byte>, at: nat): nat
    requires at + 2 <= |bs|
  {
    var high: nat := bs[at];
    256 * high + bs[at + 1]
  }

  function Four(bs: seq<byte>, at: nat): nat
    requires at + 4 <= |bs|
  {
    0x1_0000 * Two(bs, at) + Two(bs, at + 2)
  }

  lemma BigEndian(bs: seq<byte>)
    ensures |bs| == 2 ==> FromBig(bs) == Two(bs, 0)
    ensures |bs| == 4 ==> FromBig(bs) == Four(bs, 0)
  {
    if |bs| == 2 {
      assert bs[..1] == [bs[0]] && FromBig([bs[0]]) == bs[0];
    } else if |bs| == 4 {
      BigEndian(bs[..2]);
      assert bs[..3][..2] == bs[..2];
      assert FromBig(bs[..3]) == 256 * FromBig(bs[..2]) + bs[2];
    }
  }

  lemma Widths()
    ensures Pow256(1) == 0x100 && Pow256(2) == 0x1_0000 && Pow256(4) == TWO32
    ensures Pow256(8) == 0x1_0000_0000_0000_0000
  {
    assert Pow256(3) == 0x100_0000;
    assert Pow256(5) == 0x100_0000_0000;
    assert Pow256(6) == 0x1_0000_0000_0000;
    assert Pow256(7) == 0x100_0000_0000_0000;
  }
}
