/** The device id of the firmware: the station's MAC address turned into hexadecimal digits
    inside the buffer that held it. Characters are unsigned. */
module FirmwareId {
  import opened Options

  newtype byte = x: int | 0 <= x < 256

  const ZERO: byte := 48

  /** A digit above nine moves seven characters on, from ':' to 'A'. */
  function HexDigit(n: byte): byte
    requires n < 16
  {
    if n > 9 then n + 7 + ZERO else n + ZERO
  }

  function HexOf(mac: seq<byte>): seq<byte> {
    if mac == [] then [] else [HexDigit(mac[0] / 16), HexDigit(mac[0] % 16)] + HexOf(mac[1..])
  }

  /** The value of an uppercase digit. */
  function DigitValue(c: byte): byte {
    if 48 <= c <= 57 then c - 48 else if 65 <= c <= 70 then c - 55 else 0
  }

  function Unhex(digits: seq<byte>): seq<int> {
    if |digits| < 2 then []
    else [DigitValue(digits[0]) as int * 16 + DigitValue(digits[1]) as int] + Unhex(digits[2..])
  }

  function Values(mac: seq<byte>): seq<int> {
    seq(|mac|, i requires 0 <= i < |mac| => mac[i] as int)
  }

  const DIGITS := "0123456789ABCDEF"

  /** The digit is the character at that place of the hexadecimal alphabet. */
  lemma HexDigitMeaning(n: byte)
    requires n < 16
    ensures HexDigit(n) as int == DIGITS[n] as int
  {
    assert DIGITS[0] == '0' && DIGITS[1] == '1' && DIGITS[2] == '2' && DIGITS[3] == '3';
    assert DIGITS[4] == '4' && DIGITS[5] == '5' && DIGITS[6] == '6' && DIGITS[7] == '7';
    assert DIGITS[8] == '8' && DIGITS[9] == '9' && DIGITS[10] == 'A' && DIGITS[11] == 'B';
    assert DIGITS[12] == 'C' && DIGITS[13] == 'D' && DIGITS[14] == 'E' && DIGITS[15] == 'F';
  }

  lemma DigitRoundTrip(n: byte)
    requires n < 16
    ensures DigitValue(HexDigit(n)) == n
  {
  }

  /** Two digits a byte, in place, and the bytes can be read back from them. */
  lemma {:induction false} HexRoundTrip(mac: seq<byte>)
    ensures |HexOf(mac)| == 2 * |mac|
    ensures Unhex(HexOf(mac)) == Values(mac)
  {
    if mac != [] {
      HexRoundTrip(mac[1..]);
      DigitRoundTrip(mac[0] / 16);
      DigitRoundTrip(mac[0] % 16);
      assert HexOf(mac)[2..] == HexOf(mac[1..]);
      assert Values(mac) == [mac[0] as int] + Values(mac[1..]);
    }
  }

  /** Distinct addresses have distinct ids. */
  lemma HexInjective(a: seq<byte>, b: seq<byte>)
    requires HexOf(a) == HexOf(b)
    ensures a == b
  {
    HexRoundTrip(a);
    HexRoundTrip(b);
    assert Values(a) == Values(b);
    forall i | 0 <= i < |a| ensures a[i] == b[i] {
      assert Values(a)[i] == Values(b)[i];
    }
  }

  ghost predicate Digits(s: seq<byte>, mac: seq<byte>, k: nat)
    requires k < |mac| && 2 * k + 1 < |s|
  {
    s[2 * k] == HexDigit(mac[k] / 16) && s[2 * k + 1] == HexDigit(mac[k] % 16)
  }

  lemma {:induction false} HexFromDigits(s: seq<byte>, mac: seq<byte>)
    requires |s| == 2 * |mac| && forall k :: 0 <= k < |mac| ==> Digits(s, mac, k)
    ensures s == HexOf(mac)
  {
    if mac != [] {
      assert Digits(s, mac, 0);
      forall k | 0 <= k < |mac| - 1 ensures Digits(s[2..], mac[1..], k) {
        assert Digits(s, mac, k + 1);
      }
      HexFromDigits(s[2..], mac[1..]);
      assert s == [s[0], s[1]] + s[2..];
    }
  }

  class DeviceId {
    const myId: array<byte>
    var myIdDone: bool

    constructor ()
      ensures myId.Length == 13 && fresh(myId) && !myIdDone
    {
      myId := new byte[13](_ => 0);
      myIdDone := false;
    }

    /** Expands the six bytes at the front of the buffer to twelve digits and a NUL. Going
        down, each byte is read before a digit can overwrite it. */
    method Expand()
      requires myId.Length == 13
      modifies myId
      ensures myId[..] == HexOf(old(myId[..6])) + [0]
    {
      ghost var mac := myId[..6];
      var i := 5;
      while i >= 0
        invariant -1 <= i <= 5
        invariant forall k :: 0 <= k <= i ==> myId[k] == mac[k]
        invariant forall k :: i < k < 6 ==> Digits(myId[..12], mac, k)
      {
        ghost var before := myId[..12];
        var x := myId[i] % 16;
        if x > 9 {
          x := x + 7;
        }
        myId[i * 2 + 1] := x + ZERO;
        x := myId[i] / 16;
        if x > 9 {
          x := x + 7;
        }
        myId[i * 2] := x + ZERO;
        forall k | i < k < 6 ensures Digits(myId[..12], mac, k) {
          assert Digits(before, mac, k);
        }
        assert Digits(myId[..12], mac, i);
        i := i - 1;
      }
      myId[12] := 0;
      HexFromDigits(myId[..12], mac);
    }

    /** `mac` is what the radio reports, nothing when it reports no address. The first id that
        was made is kept for good. */
    method GetMyId(mac: Option<seq<byte>>) returns (ok: bool)
      requires myId.Length == 13 && (mac.Some? ==> |mac.value| == 6)
      modifies myId, this`myIdDone
      ensures ok <==> old(myIdDone) || mac.Some?
      ensures myIdDone == ok
      ensures myId[..] == if old(myIdDone) || mac.None? then old(myId[..]) else HexOf(mac.value) + [0]
    {
      if myIdDone {
        return true;
      }
      if mac.None? {
        return false;
      }
      for i := 0 to 6
        invariant myId[..i] == mac.value[..i]
      {
        myId[i] := mac.value[i];
      }
      assert mac.value[..6] == mac.value;
      Expand();
      myIdDone := true;
      return true;
    }
  }

  /** Later calls return the id of the first successful one, whatever the radio says then. */
  method IdIsStable(id: DeviceId, first: seq<byte>, later: Option<seq<byte>>) returns (before: seq<byte>,
          after: seq<byte>)
    requires id.myId.Length == 13 && !id.myIdDone && |first| == 6 && (later.Some? ==> |later.value| == 6)
    modifies id.myId, id`myIdDone
    ensures before == after == HexOf(first) + [0]
  {
    var ok := id.GetMyId(Some(first));
    before := id.myId[..];
    ok := id.GetMyId(later);
    after := id.myId[..];
  }
}
