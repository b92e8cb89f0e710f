/** UTF-8 as section 4 of RFC 3629 defines it, and cutting it between characters. */
module Utf8 {
  newtype byte = x: int | 0 <= x < 256

  /** Not a continuation byte. */
  predicate RuneStart(b: byte) {
    b < 0x80 || b >= 0xC0
  }

  predicate Tail(b: byte) {
    0x80 <= b <= 0xBF
  }

  /** What a first byte announces: the length of the character, 0 for none, and the range of its
      second byte. */
  datatype Lead = Lead(length: nat, low: byte, high: byte)

  function LeadOf(b: byte): (l: Lead)
    ensures l.length <= 4 && 0x80 <= l.low && l.high <= 0xBF && (l.length > 0 ==> RuneStart(b))
  {
    if b < 0x80 then Lead(1, 0x80, 0xBF)
    else if b < 0xC2 then Lead(0, 0x80, 0xBF)
    else if b <= 0xDF then Lead(2, 0x80, 0xBF)
    else if b <= 0xEF then Lead(3, if b == 0xE0 then 0xA0 else 0x80, if b == 0xED then 0x9F else 0xBF)
    else if b <= 0xF4 then Lead(4, if b == 0xF0 then 0x90 else 0x80, if b == 0xF4 then 0x8F else 0xBF)
    else Lead(0, 0x80, 0xBF)
  }

  /** The length of the character at the front, or 0 when there is none. */
  function RuneLength(s: seq<byte>): (n: nat)
    ensures n <= 4 && n <= |s|
    ensures n > 0 ==> RuneStart(s[0]) && forall i :: 1 <= i < n ==> !RuneStart(s[i])
  {
    if s == [] then 0
    else
      var l := LeadOf(s[0]);
      if && l.length <= |s| && (l.length >= 2 ==> l.low <= s[1] <= l.high)
         && (l.length >= 3 ==> Tail(s[2])) && (l.length == 4 ==> Tail(s[3]))
      then l.length else 0
  }

  predicate Valid(s: seq<byte>) {
    s == [] || (RuneLength(s) > 0 && Valid(s[RuneLength(s)..]))
  }

  lemma RuneLengthPrefix(s: seq<byte>, t: seq<byte>)
    requires RuneLength(s) > 0 && |t| >= RuneLength(s) && t[..RuneLength(s)] == s[..RuneLength(s)]
    ensures RuneLength(t) == RuneLength(s)
  {
    forall i | 0 <= i < RuneLength(s) ensures t[i] == s[i] {
      assert t[i] == t[..RuneLength(s)][i];
      assert s[i] == s[..RuneLength(s)][i];
    }
  }

  lemma {:induction false} ValidConcat(s: seq<byte>, t: seq<byte>)
    requires Valid(s) && Valid(t)
    ensures Valid(s + t)
  {
    hide RuneLength;
    if s == [] {
      assert s + t == t;
    } else {
      var n := RuneLength(s);
      ValidConcat(s[n..], t);
      assert (s + t)[..n] == s[..n] && (s + t)[n..] == s[n..] + t;
      RuneLengthPrefix(s, s + t);
    }
  }

  /** Valid text may be cut wherever a character starts. */
  lemma {:induction false} ValidCut(s: seq<byte>, n: nat)
    requires Valid(s) && n <= |s| && (n < |s| ==> RuneStart(s[n]))
    ensures Valid(s[..n]) && Valid(s[n..])
  {
    hide RuneLength;
    if n == |s| {
      assert s[..n] == s && s[n..] == [];
    } else if n > 0 {
      var r := RuneLength(s);
      assert r <= n;
      ValidCut(s[r..], n - r);
      RunePrepend(s, r, n);
      assert s[r..][n - r..] == s[n..];
    } else {
      assert s[..n] == [] && s[n..] == s;
    }
  }

  /** A first character and valid text after it are valid. */
  lemma RunePrepend(s: seq<byte>, r: nat, n: nat)
    requires 0 < r == RuneLength(s) <= n <= |s| && Valid(s[r..][..n - r])
    ensures Valid(s[..n])
  {
    hide RuneLength;
    assert s[r..][..n - r] == s[..n][r..];
    assert s[..n][..r] == s[..r];
    RuneLengthPrefix(s, s[..n]);
  }

  /** What follows a valid beginning of valid text is valid. */
  lemma {:induction false} ValidRest(s: seq<byte>, n: nat)
    requires Valid(s) && n <= |s| && Valid(s[..n])
    ensures Valid(s[n..])
  {
    hide RuneLength;
    if n == 0 {
      assert s[n..] == s;
    } else {
      var r := RuneLength(s[..n]);
      RuneLengthPrefix(s[..n], s);
      assert s[..n][r..] == s[r..][..n - r];
      ValidRest(s[r..], n - r);
      assert s[r..][n - r..] == s[n..];
    }
  }

  /** In every stretch of max + 1 bytes, a character starts after the first byte. */
  predicate NoLongRun(s: seq<byte>, max: nat) {
    forall q :: 0 <= q < |s| && q + max < |s| ==> StartsWithin(s, q, max)
  }

  predicate StartsWithin(s: seq<byte>, q: nat, max: nat)
    requires q + max < |s|
  {
    exists p :: q < p <= q + max && RuneStart(s[p])
  }

  lemma {:induction false} ValidStarts(s: seq<byte>, q: nat)
    requires Valid(s) && q + 4 < |s|
    ensures StartsWithin(s, q, 4)
  {
    var n := RuneLength(s);
    if q < n {
      assert s[n..] != [] && RuneLength(s[n..]) > 0;
      assert RuneStart(s[n]);
    } else {
      ValidStarts(s[n..], q - n);
      var p :| q - n < p <= q - n + 4 && RuneStart(s[n..][p]);
      assert s[p + n] == s[n..][p];
    }
  }

  lemma ValidHasNoLongRun(s: seq<byte>, max: nat)
    requires Valid(s) && max >= 4
    ensures NoLongRun(s, max)
  {
    forall q | 0 <= q < |s| && q + max < |s| ensures StartsWithin(s, q, max) {
      ValidStarts(s, q);
      var p :| q < p <= q + 4 && RuneStart(s[p]);
    }
  }
}
