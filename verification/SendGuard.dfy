/** The claim a sender worker takes before it talks to SMTP: one key per message
    stored on the sending stream. */
module SendGuard {
  import opened Prelude
  import opened Strings

  function Digit(d: nat): (c: char)
    requires d < 10
    ensures '0' <= c <= '9'
  {
    '0' + d as char
  }

  /** strconv.FormatUint(n, 10). */
  function FormatUint(n: nat): (s: string)
    ensures |s| > 0
    ensures forall c :: c in s ==> '0' <= c <= '9'
  {
    if n < 10 then [Digit(n)] else FormatUint(n / 10) + [Digit(n % 10)]
  }

  /** The key of one stored message: its stream sequence, and a digest of the
      Envelope's email ID so that a recreated stream cannot alias an old claim. */
  function SendKey(sequence: nat, digest: string): string {
    FormatUint(sequence) + "." + digest
  }

  function DecimalValue(s: string): int {
    if |s| == 0 then 0 else 10 * DecimalValue(s[..|s| - 1]) + (s[|s| - 1] as int - '0' as int)
  }

  lemma {:induction false} FormatUintRoundTrip(n: nat)
    ensures DecimalValue(FormatUint(n)) == n
  {
    var s := FormatUint(n);
    if n >= 10 {
      FormatUintRoundTrip(n / 10);
      assert s[..|s| - 1] == FormatUint(n / 10);
    } else {
      assert s[..|s| - 1] == [];
    }
  }

  /** Two messages never share a key unless they share their sequence. */
  lemma SendKeysAreDistinct(a: nat, digestA: string, b: nat, digestB: string)
    ensures SendKey(a, digestA) == SendKey(b, digestB) <==> a == b && digestA == digestB
  {
    if SendKey(a, digestA) == SendKey(b, digestB) {
      SplitsOnce('.', FormatUint(a), digestA, FormatUint(b), digestB);
      FormatUintRoundTrip(a);
      FormatUintRoundTrip(b);
    }
  }

  /** What the bucket did with one Create. An unreachable bucket may still have
      stored the key before the answer was lost. */
  datatype Bucket = Reached | Unreachable(stored: bool)

  /** Create on the key/value bucket: of two callers, exactly one is told true. */
  class KVGuard {
    var claimed: set<string>

    constructor ()
      ensures claimed == {}
    {
      claimed := {};
    }

    method Claim(key: string, bucket: Bucket) returns (won: Result<bool, string>)
      modifies this
      ensures won == if bucket.Reached? then Ok(key !in old(claimed)) else Err("cannot claim " + key)
      ensures claimed == if bucket.Reached? || bucket.stored then old(claimed) + {key} else old(claimed)
    {
      if bucket.Reached? {
        won := Ok(key !in claimed);
        claimed := claimed + {key};
      } else {
        won := Err("cannot claim " + key);
        if bucket.stored {
          claimed := claimed + {key};
        }
      }
    }
  }
}
