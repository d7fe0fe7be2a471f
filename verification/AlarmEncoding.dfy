/**
 Alarm states as the delivery worker stores them: a severity, a status and a message of at
 most 512 bytes.  A longer message is cut at a UTF-8 character boundary and ends in "...".
 */
module AlarmEncoding {

  type Byte = b: int | 0 <= b < 256

  datatype AlarmState = AlarmState(severity: int, status: int, message: seq<Byte>)

  datatype Stored = Stored(severity: int, status: int, message: seq<Byte>)

  const MESSAGE_BYTES: nat := 512
  const ELLIPSIS: seq<Byte> := [46, 46, 46]

  /** The bytes 0x80..0xbf, which never start a character. */
  predicate Continuation(b: Byte) {
    128 <= b < 192
  }

  function Decode(s: Stored): AlarmState {
    AlarmState(s.severity, s.status, s.message)
  }

  /** Number of bytes announced by a leading byte, or 0 when the byte cannot lead a character. */
  function CharLength(lead: Byte): nat {
    if lead < 128 then 1
    else if 194 <= lead < 224 then 2
    else if 224 <= lead < 240 then 3
    else if 240 <= lead < 245 then 4
    else 0
  }

  /** A sequence of whole characters: a leading byte followed by as many continuation bytes as it announces. */
  predicate WellFormed(m: seq<Byte>) {
    m == [] ||
    var n := CharLength(m[0]);
    0 < n <= |m| && (forall i | 1 <= i < n :: Continuation(m[i])) && WellFormed(m[n..])
  }

  /** A prefix of a well-formed message is well formed exactly when the cut does not fall before a continuation byte. */
  lemma {:induction false} PrefixWellFormed(m: seq<Byte>, k: nat)
    requires WellFormed(m) && k <= |m|
    ensures WellFormed(m[..k]) <==> k == |m| || !Continuation(m[k])
  {
    if k == |m| {
      assert m[..k] == m;
    } else {
      var n := CharLength(m[0]);
      if k < n {
        if k == 0 {
          assert !Continuation(m[0]);
        } else {
          assert m[..k][0] == m[0];
        }
      } else {
        PrefixWellFormed(m[n..], k - n);
        assert m[..k][n..] == m[n..][..k - n];
        assert m[..k][0] == m[0];
      }
    }
  }

  /** What the stored form of a state must be. */
  ghost predicate IsEncoding(state: AlarmState, stored: Stored, truncated: bool) {
    && stored.severity == state.severity
    && stored.status == state.status
    && truncated == (|state.message| > MESSAGE_BYTES)
    && (!truncated ==> stored.message == state.message)
    && (truncated ==>
          exists k: nat :: k <= MESSAGE_BYTES - 3 && IsCut(state.message, k)
            && stored.message == state.message[..k] + ELLIPSIS)
  }

  /** k is the last position, among the first 510, where the message may be cut. */
  ghost predicate IsCut(m: seq<Byte>, k: nat) {
    && |m| > MESSAGE_BYTES
    && k <= MESSAGE_BYTES - 3
    && (k == 0 || !Continuation(m[k]))
    && forall j | k < j <= MESSAGE_BYTES - 3 :: Continuation(m[j])
  }

  /** Encodes a state, walking back from byte 509 past continuation bytes when the message is too long. */
  method Encode(state: AlarmState) returns (stored: Stored, truncated: bool)
    ensures IsEncoding(state, stored, truncated)
    ensures |stored.message| <= MESSAGE_BYTES
  {
    truncated := |state.message| > MESSAGE_BYTES;
    if !truncated {
      return Stored(state.severity, state.status, state.message), false;
    }
    var length := MESSAGE_BYTES - 3;
    while 0 < length && Continuation(state.message[length])
      invariant 0 <= length <= MESSAGE_BYTES - 3
      invariant forall j | length < j <= MESSAGE_BYTES - 3 :: Continuation(state.message[j])
    {
      length := length - 1;
    }
    assert IsCut(state.message, length);
    stored := Stored(state.severity, state.status, state.message[..length] + ELLIPSIS);
  }

  /** The encoding is a function of the state. */
  lemma EncodingUnique(state: AlarmState, a: Stored, b: Stored, ta: bool, tb: bool)
    requires IsEncoding(state, a, ta) && IsEncoding(state, b, tb)
    ensures a == b && ta == tb
  {
  }

  /**
   Encoding loses nothing exactly when the message fits.  When it does not fit and is UTF-8, what is
   kept is the longest run of whole characters that leaves room for the ellipsis.
   */
  lemma EncodingFaithful(state: AlarmState, stored: Stored, truncated: bool)
    requires IsEncoding(state, stored, truncated)
    ensures Decode(stored) == state <==> |state.message| <= MESSAGE_BYTES
    ensures truncated && WellFormed(state.message) ==>
              var kept := stored.message[..|stored.message| - 3];
              && stored.message == kept + ELLIPSIS
              && WellFormed(kept)
              && kept <= state.message
              && forall k: nat :: |kept| < k <= MESSAGE_BYTES - 3 ==> !WellFormed(state.message[..k])
  {
    if truncated {
      var k: nat :| k <= MESSAGE_BYTES - 3 && IsCut(state.message, k)
        && stored.message == state.message[..k] + ELLIPSIS;
      assert |stored.message| <= MESSAGE_BYTES;
      assert stored.message[..|stored.message| - 3] == state.message[..k];
      if WellFormed(state.message) {
        PrefixWellFormed(state.message, k);
        forall j: nat | k < j <= MESSAGE_BYTES - 3
          ensures !WellFormed(state.message[..j])
        {
          PrefixWellFormed(state.message, j);
        }
      }
    }
  }
}
