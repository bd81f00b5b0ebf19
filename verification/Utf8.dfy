/** Text as UTF-8 bytes (section 3 of RFC 3629), and the boundaries at which it may be cut. */
module Utf8 {
  import opened Common
  import opened Messages

  type Byte = b: nat | b < 0x100

  function Encode(c: char): (bytes: seq<Byte>)
    ensures |bytes| == CharBytes(c)
  {
    var n := c as int;
    if n < 0x80 then [n]
    else if n < 0x800 then [0xC0 + n / 0x40, 0x80 + n % 0x40]
    else if n < 0x10000 then [0xE0 + n / 0x1000, 0x80 + n / 0x40 % 0x40, 0x80 + n % 0x40]
    else [0xF0 + n / 0x40000, 0x80 + n / 0x1000 % 0x40, 0x80 + n / 0x40 % 0x40, 0x80 + n % 0x40]
  }

  function EncodeAll(t: Text): (bytes: seq<Byte>)
    ensures |bytes| == TextBytes(t)
  {
    if t == [] then [] else Encode(t[0]) + EncodeAll(t[1..])
  }

  predicate IsContinuation(b: Byte) { 0x80 <= b < 0xC0 }

  /** The library's test: the ends of the text, or a byte that does not continue a character. */
  predicate IsBoundary(bytes: seq<Byte>, i: nat) {
    i == 0 || i == |bytes| || (i < |bytes| && !IsContinuation(bytes[i]))
  }

  /** The byte offset of the k-th character. */
  function Offset(t: Text, k: nat): nat
    requires k <= |t|
  {
    TextBytes(t[..k])
  }

  lemma EncodeShape(c: char)
    ensures !IsContinuation(Encode(c)[0])
    ensures forall j :: 1 <= j < |Encode(c)| ==> IsContinuation(Encode(c)[j])
  {
  }

  lemma {:induction false} TextBytesConcat(a: Text, b: Text)
    ensures TextBytes(a + b) == TextBytes(a) + TextBytes(b)
    ensures EncodeAll(a + b) == EncodeAll(a) + EncodeAll(b)
  {
    if a == [] {
      assert a + b == b;
    } else {
      assert (a + b)[1..] == a[1..] + b;
      TextBytesConcat(a[1..], b);
    }
  }

  lemma OffsetSplit(t: Text, j: nat, k: nat)
    requires j <= k <= |t|
    ensures Offset(t, k) == Offset(t, j) + TextBytes(t[j..k])
    ensures k - j <= TextBytes(t[j..k])
    ensures Offset(t, k) <= |EncodeAll(t)|
    ensures EncodeAll(t)[Offset(t, j)..Offset(t, k)] == EncodeAll(t[j..k])
  {
    assert t[..k] == t[..j] + t[j..k];
    TextBytesConcat(t[..j], t[j..k]);
    LengthBound(t[j..k]);
    assert t == t[..k] + t[k..];
    TextBytesConcat(t[..k], t[k..]);
  }

  lemma LengthBound(t: Text)
    ensures |t| <= TextBytes(t)
  {
  }

  /** Offsets of characters are boundaries. */
  lemma OffsetIsBoundary(t: Text, k: nat)
    requires k <= |t|
    ensures Offset(t, k) <= |EncodeAll(t)|
    ensures IsBoundary(EncodeAll(t), Offset(t, k))
  {
    OffsetSplit(t, k, |t|);
    OffsetSplit(t, 0, k);
    assert t[..|t|] == t && t[k..|t|] == t[k..];
    if k < |t| {
      EncodeShape(t[k]);
      assert EncodeAll(t)[Offset(t, k)] == EncodeAll(t[k..])[0] by {
        assert EncodeAll(t)[Offset(t, k)..Offset(t, |t|)] == EncodeAll(t[k..]);
        OffsetSplit(t, k, k + 1);
      }
    }
  }

  /** And nothing else is: a boundary by the byte test is the offset of exactly one character (or the end). */
  lemma {:induction false} BoundaryIsOffset(t: Text, i: nat) returns (k: nat)
    requires i <= |EncodeAll(t)| && IsBoundary(EncodeAll(t), i)
    ensures k <= |t| && Offset(t, k) == i
    decreases |t|
  {
    if i == 0 {
      k := 0;
    } else {
      EncodeShape(t[0]);
      var n := CharBytes(t[0]);
      if i < n {
        assert false;
      }
      var rest := t[1..];
      assert i < |EncodeAll(t)| ==> EncodeAll(t)[i] == EncodeAll(rest)[i - n];
      assert IsBoundary(EncodeAll(rest), i - n);
      var j := BoundaryIsOffset(rest, i - n);
      k := j + 1;
      assert t[..k] == [t[0]] + rest[..j];
      assert t[..k][1..] == rest[..j];
    }
  }

  /** The largest boundary at or below an index. */
  method FloorBoundary(bytes: seq<Byte>, index: nat) returns (i: nat)
    ensures i <= index && i <= |bytes| && IsBoundary(bytes, i)
    ensures forall j :: i < j <= index && j <= |bytes| ==> !IsBoundary(bytes, j)
  {
    i := Min(index, |bytes|);
    while !IsBoundary(bytes, i)
      invariant i <= index && i <= |bytes|
      invariant forall j :: i < j <= index && j <= |bytes| ==> !IsBoundary(bytes, j)
      decreases i
    {
      i := i - 1;
    }
  }

  /** The smallest boundary at or above an index, or the end of the text. */
  method CeilBoundary(bytes: seq<Byte>, index: nat) returns (i: nat)
    ensures Min(index, |bytes|) <= i <= |bytes| && IsBoundary(bytes, i)
    ensures forall j :: Min(index, |bytes|) <= j < i ==> !IsBoundary(bytes, j)
  {
    i := Min(index, |bytes|);
    while !IsBoundary(bytes, i)
      invariant Min(index, |bytes|) <= i <= |bytes|
      invariant forall j :: Min(index, |bytes|) <= j < i ==> !IsBoundary(bytes, j)
      decreases |bytes| - i
    {
      i := i + 1;
    }
  }
}
