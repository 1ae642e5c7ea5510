/**
 * Base64 with the standard alphabet and `=` padding (section 4 of RFC 4648),
 * as written by `Buffer.toString('base64')`.
 */
module Base64 {
  import opened Wrappers
  import opened Utf8
  import opened Seqs

  type Sextet = n: int | 0 <= n < 64

  /** The alphabet of table 1 in section 4 of RFC 4648. */
  function CharOf(n: Sextet): (c: char)
  {
    if n < 26 then ('A' as int + n) as char
    else if n < 52 then ('a' as int + (n - 26)) as char
    else if n < 62 then ('0' as int + (n - 52)) as char
    else if n == 62 then '+'
    else '/'
  }

  function IndexOf(c: char): (r: Option<Sextet>)
    ensures r.Some? ==> CharOf(r.value) == c
  {
    if 'A' <= c <= 'Z' then Some(c as int - 'A' as int)
    else if 'a' <= c <= 'z' then Some(c as int - 'a' as int + 26)
    else if '0' <= c <= '9' then Some(c as int - '0' as int + 52)
    else if c == '+' then Some(62)
    else if c == '/' then Some(63)
    else None
  }

  lemma IndexOfCharOf(n: Sextet)
    ensures IndexOf(CharOf(n)) == Some(n)
  {
  }

  /** Three bytes become four characters. */
  function EncodeGroup(b0: Byte, b1: Byte, b2: Byte): (s: string)
    ensures |s| == 4
  {
    [CharOf(b0 / 4), CharOf((b0 % 4) * 16 + b1 / 16), CharOf((b1 % 16) * 4 + b2 / 64), CharOf(b2 % 64)]
  }

  /** The `k`-th group of four characters: three bytes, or the last one or two bytes padded. */
  function Quad(bs: seq<Byte>, k: nat): (s: string)
    requires 3 * k < |bs|
    ensures |s| == 4
  {
    var j := 3 * k;
    if j + 3 <= |bs| then EncodeGroup(bs[j], bs[j + 1], bs[j + 2])
    else if j + 2 == |bs| then EncodeGroup(bs[j], bs[j + 1], 0)[..3] + "="
    else EncodeGroup(bs[j], 0, 0)[..2] + "=="
  }

  /** The groups of `bs`, in order. */
  function Encode(bs: seq<Byte>): string
  {
    Flatten(seq((|bs| + 2) / 3, k requires 0 <= k < (|bs| + 2) / 3 => Quad(bs, k)))
  }

  /** Four sextets become three bytes. */
  function DecodeGroup(c0: Sextet, c1: Sextet, c2: Sextet, c3: Sextet): (bs: seq<Byte>)
    ensures |bs| == 3
  {
    [c0 * 4 + c1 / 16, (c1 % 16) * 16 + c2 / 4, (c2 % 4) * 64 + c3]
  }

  /**
   * One group of four characters: three bytes, or, in the last group only,
   * one or two bytes followed by padding.
   */
  function DecodeQuad(c0: char, c1: char, c2: char, c3: char, last: bool): (r: Option<seq<Byte>>)
    ensures r.Some? ==> 1 <= |r.value| <= 3 && (|r.value| < 3 ==> last)
  {
    var i0, i1, i2, i3 := IndexOf(c0), IndexOf(c1), IndexOf(c2), IndexOf(c3);
    if i0.None? || i1.None? then None
    else if last && c2 == '=' && c3 == '=' then Some(DecodeGroup(i0.value, i1.value, 0, 0)[..1])
    else if last && i2.Some? && c3 == '=' then Some(DecodeGroup(i0.value, i1.value, i2.value, 0)[..2])
    else if i2.None? || i3.None? then None
    else Some(DecodeGroup(i0.value, i1.value, i2.value, i3.value))
  }

  /**
   * Decodes a padded base64 string; `None` for a length that is not a multiple
   * of four, a character outside the alphabet, or padding anywhere but at the
   * end of the last group.
   */
  function Decode(s: string): (r: Option<seq<Byte>>)
    decreases |s|
  {
    if |s| == 0 then Some([])
    else if |s| < 4 then None
    else
      match DecodeQuad(s[0], s[1], s[2], s[3], |s| == 4)
      case None => None
      case Some(group) =>
        if |s| == 4 then Some(group)
        else
          match Decode(s[4..])
          case None => None
          case Some(rest) => Some(group + rest)
  }

  lemma DecodeEncodeGroup(b0: Byte, b1: Byte, b2: Byte)
    ensures DecodeGroup(b0 / 4, (b0 % 4) * 16 + b1 / 16, (b1 % 16) * 4 + b2 / 64, b2 % 64) == [b0, b1, b2]
  {
  }

  /** One byte is two characters and two pads, and decodes back. */
  lemma DecodePaddedOne(b0: Byte)
    ensures Decode(EncodeGroup(b0, 0, 0)[..2] + "==") == Some([b0])
  {
    var s := EncodeGroup(b0, 0, 0)[..2] + "==";
    IndexOfCharOf(b0 / 4);
    IndexOfCharOf((b0 % 4) * 16);
    assert IndexOf(s[0]) == Some(b0 / 4) && IndexOf(s[1]) == Some((b0 % 4) * 16);
    assert s[2] == '=' && s[3] == '=';
    DecodeEncodeGroup(b0, 0, 0);
    assert DecodeGroup(b0 / 4, (b0 % 4) * 16, 0, 0)[..1] == [b0];
  }

  /** Two bytes are three characters and one pad, and decode back. */
  lemma DecodePaddedTwo(b0: Byte, b1: Byte)
    ensures Decode(EncodeGroup(b0, b1, 0)[..3] + "=") == Some([b0, b1])
  {
    var s := EncodeGroup(b0, b1, 0)[..3] + "=";
    IndexOfCharOf(b0 / 4);
    IndexOfCharOf((b0 % 4) * 16 + b1 / 16);
    IndexOfCharOf((b1 % 16) * 4);
    assert IndexOf(s[0]) == Some(b0 / 4) && IndexOf(s[1]) == Some((b0 % 4) * 16 + b1 / 16);
    assert IndexOf(s[2]) == Some((b1 % 16) * 4) && s[3] == '=';
    DecodeEncodeGroup(b0, b1, 0);
    assert DecodeGroup(b0 / 4, (b0 % 4) * 16 + b1 / 16, (b1 % 16) * 4, 0)[..2] == [b0, b1];
  }

  /** A group of four alphabet characters decodes to three bytes, then the rest. */
  lemma DecodeStep(g: string, t: string, c0: Sextet, c1: Sextet, c2: Sextet, c3: Sextet)
    requires |g| == 4
    requires IndexOf(g[0]) == Some(c0) && IndexOf(g[1]) == Some(c1)
    requires IndexOf(g[2]) == Some(c2) && IndexOf(g[3]) == Some(c3)
    ensures Decode(g + t) ==
      match Decode(t)
      case None => None
      case Some(rest) => Some(DecodeGroup(c0, c1, c2, c3) + rest)
  {
    var s := g + t;
    assert s[0] == g[0] && s[1] == g[1] && s[2] == g[2] && s[3] == g[3];
    assert g[2] != '=' && g[3] != '=';
    assert DecodeQuad(s[0], s[1], s[2], s[3], |s| == 4) == Some(DecodeGroup(c0, c1, c2, c3));
    if |t| == 0 {
      assert DecodeGroup(c0, c1, c2, c3) + [] == DecodeGroup(c0, c1, c2, c3);
    } else {
      assert s[4..] == t;
    }
  }

  /** The characters of a full group are the alphabet characters of its sextets. */
  lemma EncodeGroupIndices(b0: Byte, b1: Byte, b2: Byte)
    ensures var g := EncodeGroup(b0, b1, b2);
      && IndexOf(g[0]) == Some(b0 / 4)
      && IndexOf(g[1]) == Some((b0 % 4) * 16 + b1 / 16)
      && IndexOf(g[2]) == Some((b1 % 16) * 4 + b2 / 64)
      && IndexOf(g[3]) == Some(b2 % 64)
  {
    IndexOfCharOf(b0 / 4);
    IndexOfCharOf((b0 % 4) * 16 + b1 / 16);
    IndexOfCharOf((b1 % 16) * 4 + b2 / 64);
    IndexOfCharOf(b2 % 64);
  }

  /** A full group decodes to its three bytes, followed by whatever the rest decodes to. */
  lemma DecodeGroupThen(b0: Byte, b1: Byte, b2: Byte, t: string, rest: seq<Byte>)
    requires Decode(t) == Some(rest)
    ensures Decode(EncodeGroup(b0, b1, b2) + t) == Some([b0, b1, b2] + rest)
  {
    EncodeGroupIndices(b0, b1, b2);
    DecodeStep(EncodeGroup(b0, b1, b2), t, b0 / 4, (b0 % 4) * 16 + b1 / 16, (b1 % 16) * 4 + b2 / 64, b2 % 64);
    DecodeEncodeGroup(b0, b1, b2);
  }

  /** The three shapes of an encoding: one padded group, or a full group and the rest. */
  lemma EncodeShape(bs: seq<Byte>)
    requires |bs| >= 1
    ensures |bs| == 1 ==> Encode(bs) == EncodeGroup(bs[0], 0, 0)[..2] + "=="
    ensures |bs| == 2 ==> Encode(bs) == EncodeGroup(bs[0], bs[1], 0)[..3] + "="
    ensures |bs| >= 3 ==> Encode(bs) == EncodeGroup(bs[0], bs[1], bs[2]) + Encode(bs[3..])
  {
    var n := (|bs| + 2) / 3;
    var parts := seq(n, k requires 0 <= k < n => Quad(bs, k));
    if |bs| < 3 {
      assert parts[1..] == [];
      assert Flatten(parts) == parts[0] + [];
    } else {
      var rest := bs[3..];
      forall k | 0 <= k < n - 1
        ensures parts[1..][k] == Quad(rest, k)
      {
        assert rest[3 * k..] == bs[3 * (k + 1)..];
      }
      assert parts[1..] == seq((|rest| + 2) / 3, k requires 0 <= k < (|rest| + 2) / 3 => Quad(rest, k));
    }
  }

  predicate AllBase64(s: string)
  {
    forall i :: 0 <= i < |s| ==> s[i] == '=' || IndexOf(s[i]).Some?
  }

  lemma AllBase64Append(g: string, t: string)
    requires AllBase64(g) && AllBase64(t)
    ensures AllBase64(g + t)
  {
    forall i | 0 <= i < |g + t|
      ensures (g + t)[i] == '=' || IndexOf((g + t)[i]).Some?
    {
      if i >= |g| {
        assert (g + t)[i] == t[i - |g|];
      }
    }
  }

  lemma EncodeFormShort(bs: seq<Byte>)
    requires 1 <= |bs| <= 2
    ensures |Encode(bs)| == 4 && AllBase64(Encode(bs))
  {
    EncodeShape(bs);
    if |bs| == 1 {
      EncodeGroupIndices(bs[0], 0, 0);
    } else {
      EncodeGroupIndices(bs[0], bs[1], 0);
    }
  }

  lemma EncodeFormLong(bs: seq<Byte>)
    requires |bs| >= 3
    requires |Encode(bs[3..])| == 4 * ((|bs| - 1) / 3) && AllBase64(Encode(bs[3..]))
    ensures |Encode(bs)| == 4 * ((|bs| + 2) / 3) && AllBase64(Encode(bs))
  {
    EncodeShape(bs);
    EncodeGroupIndices(bs[0], bs[1], bs[2]);
    AllBase64Append(EncodeGroup(bs[0], bs[1], bs[2]), Encode(bs[3..]));
  }

  /** Base64 of n bytes has 4 * ceil(n / 3) characters, each from the alphabet or the pad. */
  lemma {:induction false} EncodeForm(bs: seq<Byte>)
    ensures |Encode(bs)| == 4 * ((|bs| + 2) / 3)
    ensures AllBase64(Encode(bs))
    decreases |bs|
  {
    if 1 <= |bs| <= 2 {
      EncodeFormShort(bs);
    } else if |bs| >= 3 {
      EncodeForm(bs[3..]);
      EncodeFormLong(bs);
    }
  }

  /** Inputs of one or two bytes decode back from their padded group. */
  lemma DecodeEncodeShort(bs: seq<Byte>)
    requires 1 <= |bs| <= 2
    ensures Decode(Encode(bs)) == Some(bs)
  {
    EncodeShape(bs);
    if |bs| == 1 {
      DecodePaddedOne(bs[0]);
      assert [bs[0]] == bs;
    } else {
      DecodePaddedTwo(bs[0], bs[1]);
      assert [bs[0], bs[1]] == bs;
    }
  }

  /** Longer inputs decode back group by group, given that the rest of the input does. */
  lemma DecodeEncodeLong(bs: seq<Byte>)
    requires |bs| >= 3
    requires Decode(Encode(bs[3..])) == Some(bs[3..])
    ensures Decode(Encode(bs)) == Some(bs)
  {
    EncodeShape(bs);
    DecodeGroupThen(bs[0], bs[1], bs[2], Encode(bs[3..]), bs[3..]);
    assert [bs[0], bs[1], bs[2]] + bs[3..] == bs;
  }

  /** Round trip of section 4 of RFC 4648: decoding an encoding gives the bytes back. */
  lemma {:induction false} DecodeEncode(bs: seq<Byte>)
    ensures Decode(Encode(bs)) == Some(bs)
    decreases |bs|
  {
    if |bs| == 0 {
    } else if |bs| <= 2 {
      DecodeEncodeShort(bs);
    } else {
      DecodeEncode(bs[3..]);
      DecodeEncodeLong(bs);
    }
  }
}
