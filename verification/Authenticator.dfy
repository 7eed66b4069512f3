/**
 * Authentication of XMPP identities: the decoding of user names into Xaya
 * accounts and the table of identities seen so far.
 */
module Authenticators {
  import opened Wrappers

  type Bytes = seq<bv8>

  predicate IsSimpleChar(c: bv8) {
    0x30 <= c <= 0x39 || 0x61 <= c <= 0x7a
  }

  /** The value of a lower-case hex digit, `None` for no digit. */
  function HexCharValue(c: bv8): Option<bv8> {
    if 0x30 <= c <= 0x39 then Some(c - 0x30)
    else if 0x61 <= c <= 0x66 then Some(10 + (c - 0x61))
    else None
  }

  const ENCODED_PREFIX: Bytes := [0x78, 0x2d]  // "x-"

  predicate AllSimple(s: Bytes) {
    forall i :: 0 <= i < |s| ==> IsSimpleChar(s[i])
  }

  function HexDigit(v: bv8): bv8 {
    if v < 10 then 0x30 + v else 0x57 + v
  }

  function Hex(d: Bytes): Bytes {
    if d == [] then [] else Hex(d[..|d| - 1]) + [HexDigit(d[|d| - 1] >> 4), HexDigit(d[|d| - 1] & 0xf)]
  }

  /** The one XMPP name that stands for an account, which the program never computes. */
  function EncodeName(account: Bytes): Bytes {
    if account != [] && AllSimple(account) then account else ENCODED_PREFIX + Hex(account)
  }

  /** The hex digits, which are in lower case. */
  const DIGITS: Bytes :=
    [0x30, 0x31, 0x32, 0x33, 0x34, 0x35, 0x36, 0x37, 0x38, 0x39, 0x61, 0x62, 0x63, 0x64, 0x65, 0x66]

  lemma DigitsAre(v: bv8)
    requires v < 16
    ensures HexDigit(v) == DIGITS[v as nat]
  {
  }

  /** A name of digits and lower-case letters only. */
  predicate IsPlain(name: Bytes) {
    name != [] && forall i :: 0 <= i < |name| ==> 0x30 <= name[i] <= 0x39 || 0x61 <= name[i] <= 0x7a
  }

  /**
   * The names of accounts, spelt out: exactly the plain ones stand for themselves,
   * and all others are "x-" and two hex digits for each byte.
   */
  lemma NamesAre(account: Bytes)
    ensures EncodeName(account) == account <==> IsPlain(account)
    ensures !IsPlain(account) ==>
              var name := EncodeName(account);
              && |name| == 2 + 2 * |account| && name[0] == 0x78 && name[1] == 0x2d
              && forall k :: 0 <= k < |account| ==>
                   && account[k] >> 4 < 16 && account[k] & 0xf < 16
                   && name[2 + 2 * k] == DIGITS[(account[k] >> 4) as nat]
                   && name[3 + 2 * k] == DIGITS[(account[k] & 0xf) as nat]
  {
    hide Hex, HexDigit, IsSimpleChar;
    assert IsPlain(account) <==> account != [] && AllSimple(account) by { PlainIsSimple(account); }
    HexLength(account);
    forall k | 0 <= k < |account|
      ensures account[k] >> 4 < 16 && account[k] & 0xf < 16
      ensures Hex(account)[2 * k] == DIGITS[(account[k] >> 4) as nat]
      ensures Hex(account)[2 * k + 1] == DIGITS[(account[k] & 0xf) as nat]
    {
      HexAt(account, k);
      SmallNibbles(account[k]);
      DigitsAre(account[k] >> 4);
      DigitsAre(account[k] & 0xf);
    }
  }

  lemma PlainIsSimple(s: Bytes)
    ensures IsPlain(s) <==> s != [] && AllSimple(s)
  {
  }

  lemma SmallNibbles(b: bv8)
    ensures b >> 4 < 16 && b & 0xf < 16
  {
  }

  lemma NibblesOfByte(b: bv8)
    ensures HexCharValue(HexDigit(b >> 4)) == Some(b >> 4)
    ensures HexCharValue(HexDigit(b & 0xf)) == Some(b & 0xf)
    ensures ((b >> 4) << 4) | (b & 0xf) == b
  {
    assert b >> 4 < 16 && b & 0xf < 16;
  }

  lemma ByteOfNibbles(hi: bv8, lo: bv8)
    requires hi < 16 && lo < 16
    ensures ((hi << 4) | lo) >> 4 == hi && ((hi << 4) | lo) & 0xf == lo
  {
  }

  lemma DigitOfValue(c: bv8)
    requires HexCharValue(c).Some?
    ensures HexCharValue(c).value < 16 && HexDigit(HexCharValue(c).value) == c
  {
  }

  lemma {:induction false} HexAt(d: Bytes, k: nat)
    requires k < |d|
    ensures |Hex(d)| == 2 * |d|
    ensures Hex(d)[2 * k] == HexDigit(d[k] >> 4) && Hex(d)[2 * k + 1] == HexDigit(d[k] & 0xf)
  {
    var n := |d| - 1;
    if n > 0 {
      HexAt(d[..n], if k < n then k else 0);
    }
  }

  lemma HexLength(d: Bytes)
    ensures |Hex(d)| == 2 * |d|
  {
    if d != [] {
      HexAt(d, 0);
    }
  }

  lemma HexIsValid(d: Bytes, i: nat)
    requires i < |Hex(d)|
    ensures HexCharValue(Hex(d)[i]).Some?
  {
    HexLength(d);
    HexAt(d, i / 2);
    NibblesOfByte(d[i / 2]);
    assert i == 2 * (i / 2) || i == 2 * (i / 2) + 1;
  }

  lemma {:induction false} HexInjective(a: Bytes, b: Bytes)
    requires Hex(a) == Hex(b)
    ensures a == b
  {
    HexLength(a);
    HexLength(b);
    forall k | 0 <= k < |a|
      ensures a[k] == b[k]
    {
      HexAt(a, k);
      HexAt(b, k);
      NibblesOfByte(a[k]);
      NibblesOfByte(b[k]);
    }
  }

  /** No two accounts share a name. */
  lemma EncodeInjective(a: Bytes, b: Bytes)
    requires EncodeName(a) == EncodeName(b)
    ensures a == b
  {
    var name := EncodeName(a);
    assert !IsSimpleChar(0x2d);
    if name == ENCODED_PREFIX + Hex(a) && name == ENCODED_PREFIX + Hex(b) {
      assert name[2..] == Hex(a) && name[2..] == Hex(b);
      HexInjective(a, b);
    } else {
      assert |name| >= 2 && name[1] == 0x2d ==> !AllSimple(name);
    }
  }

  lemma PlainNamesAreSimple(d: Bytes)
    ensures EncodeName(d) != []
    ensures EncodeName(d) == ENCODED_PREFIX + Hex(d) || (EncodeName(d) == d && AllSimple(d))
    ensures |EncodeName(d)| >= 2 && EncodeName(d)[..2] == ENCODED_PREFIX
            ==> EncodeName(d)[2..] == Hex(d) && !(d != [] && AllSimple(d))
  {
    assert (ENCODED_PREFIX + Hex(d))[2..] == Hex(d);
    assert !IsSimpleChar(ENCODED_PREFIX[1]);
    assert AllSimple(d) && |d| >= 2 ==> IsSimpleChar(d[..2][1]);
  }

  /**
   * The nibble-by-nibble loop over the part of a name after the prefix. It
   * yields the bytes whose hex form this is, and whether one of them is not simple.
   */
  method DecodeHex(hexPart: Bytes) returns (out: Option<Bytes>, foundNonSimple: bool)
    requires |hexPart| % 2 == 0
    ensures out.Some? ==> Hex(out.value) == hexPart && foundNonSimple == !AllSimple(out.value)
    ensures out.None? ==> forall d :: Hex(d) != hexPart
  {
    var decoded: Bytes := [];
    var cur: bv8 := 0;
    var inByte := false;
    foundNonSimple := false;
    for i := 0 to |hexPart|
      invariant |decoded| == i / 2 && inByte == (i % 2 == 1)
      invariant Hex(decoded) == hexPart[..2 * |decoded|]
      invariant if inByte then HexCharValue(hexPart[i - 1]).Some? && cur == HexCharValue(hexPart[i - 1]).value << 4
                else cur == 0
      invariant foundNonSimple == !AllSimple(decoded)
    {
      var c := hexPart[i];
      var val := HexCharValue(c);
      if val == None {
        forall d ensures Hex(d) != hexPart {
          if Hex(d) == hexPart { HexIsValid(d, i); }
        }
        return None, foundNonSimple;
      }
      DigitOfValue(c);
      cur := cur | val.value;
      if inByte {
        DigitOfValue(hexPart[i - 1]);
        ByteOfNibbles(HexCharValue(hexPart[i - 1]).value, val.value);
        HexAppend(decoded, cur, hexPart, i);
        SimpleAppend(decoded, cur);
        if !IsSimpleChar(cur) {
          foundNonSimple := true;
        }
        decoded := decoded + [cur];
        cur := 0;
        inByte := false;
      } else {
        cur := cur << 4;
        inByte := true;
      }
    }
    assert hexPart[..2 * |decoded|] == hexPart;
    out := Some(decoded);
  }

  lemma HexOfAppended(before: Bytes, b: bv8)
    ensures Hex(before + [b]) == Hex(before) + [HexDigit(b >> 4), HexDigit(b & 0xf)]
  {
    hide HexDigit;
    var after := before + [b];
    assert after[..|after| - 1] == before;
  }

  lemma TwoMore<T>(s: seq<T>, k: nat, x: T, y: T)
    requires k + 2 <= |s| && s[k] == x && s[k + 1] == y
    ensures s[..k + 2] == s[..k] + [x, y]
  {
  }

  lemma HexAppend(before: Bytes, b: bv8, hexPart: Bytes, i: nat)
    requires i < |hexPart| && i == 2 * |before| + 1
    requires Hex(before) == hexPart[..2 * |before|]
    requires HexDigit(b >> 4) == hexPart[i - 1] && HexDigit(b & 0xf) == hexPart[i]
    ensures Hex(before + [b]) == hexPart[..2 * |before| + 2]
  {
    hide Hex, HexDigit;
    HexOfAppended(before, b);
    TwoMore(hexPart, 2 * |before|, HexDigit(b >> 4), HexDigit(b & 0xf));
  }

  lemma SimpleAppend(before: Bytes, b: bv8)
    ensures AllSimple(before + [b]) <==> AllSimple(before) && IsSimpleChar(b)
  {
    var after := before + [b];
    assert forall k :: 0 <= k < |before| ==> after[k] == before[k];
    assert after[|before|] == b;
  }

  /**
   * Decodes a name. It accepts exactly the encodings of accounts and returns
   * the account, so it inverts `EncodeName` in both directions.
   */
  method DecodeName(name: Bytes) returns (decoded: Option<Bytes>)
    ensures decoded.Some? ==> EncodeName(decoded.value) == name
    ensures decoded.None? ==> forall d :: EncodeName(d) != name
  {
    forall d
      ensures EncodeName(d) == name ==>
                if |name| >= 2 && name[..2] == ENCODED_PREFIX then Hex(d) == name[2..] && !(d != [] && AllSimple(d))
                else name == d && d != [] && AllSimple(d)
    {
      PlainNamesAreSimple(d);
      assert (ENCODED_PREFIX + Hex(d))[..2] == ENCODED_PREFIX;
    }
    if name == [] {
      return None;
    }

    if |name| < 2 || name[..2] != ENCODED_PREFIX {
      for i := 0 to |name|
        invariant forall k :: 0 <= k < i ==> IsSimpleChar(name[k])
      {
        if !IsSimpleChar(name[i]) {
          return None;
        }
      }
      return Some(name);
    }

    var hexPart := name[2..];
    assert name == ENCODED_PREFIX + hexPart;
    if |hexPart| % 2 != 0 {
      forall d ensures EncodeName(d) != name { HexLength(d); }
      return None;
    }
    if hexPart == [] {
      return Some([]);
    }

    var out, foundNonSimple := DecodeHex(hexPart);
    if out == None {
      return None;
    }
    if !foundNonSimple {
      forall d ensures EncodeName(d) != name {
        if Hex(d) == hexPart {
          HexInjective(d, out.value);
          HexLength(d);
        }
      }
      return None;
    }
    return out;
  }

  datatype Jid = Jid(username: Bytes, server: string, resource: string)

  class Authenticator {
    const xidServers: set<string>
    var knownJids: map<Bytes, Jid>

    /** Every stored identity carries the account's own name on a trusted server. */
    ghost predicate Valid()
      reads this
    {
      forall a :: a in knownJids ==> knownJids[a].username == EncodeName(a) && knownJids[a].server in xidServers
    }

    constructor (servers: set<string>)
      ensures Valid() && xidServers == servers && knownJids == map[]
    {
      xidServers := servers;
      knownJids := map[];
    }

    method Authenticate(jid: Jid) returns (account: Option<Bytes>)
      requires Valid()
      modifies this
      ensures Valid()
      ensures account.Some? <==> jid.server in xidServers && exists a :: EncodeName(a) == jid.username
      ensures account.Some? ==> jid.username == EncodeName(account.value)
      ensures knownJids == if account.Some? then old(knownJids)[account.value := jid] else old(knownJids)
    {
      if jid.server !in xidServers {
        return None;
      }
      account := DecodeName(jid.username);
      if account == None {
        return None;
      }
      knownJids := knownJids[account.value := jid];
    }

    /** What is looked up for an account was authenticated as that account and no other. */
    method LookupJid(account: Bytes) returns (jid: Option<Jid>)
      requires Valid()
      ensures jid.Some? <==> account in knownJids
      ensures jid.Some? ==> jid.value.server in xidServers
                            && forall a :: EncodeName(a) == jid.value.username <==> a == account
    {
      if account !in knownJids {
        return None;
      }
      jid := Some(knownJids[account]);
      forall a ensures EncodeName(a) == jid.value.username <==> a == account {
        if EncodeName(a) == EncodeName(account) { EncodeInjective(a, account); }
      }
    }
  }
}
