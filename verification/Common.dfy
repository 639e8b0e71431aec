/** Small shared vocabulary of the model. */
module Common {

  datatype Option<+T> = None | Some(value: T)

  datatype Result<+T, +E> = Success(value: T) | Failure(error: E)

  /** Rust's `as u32` on an unsigned value: keep the low 32 bits. */
  function AsU32(n: nat): nat {
    n % 0x1_0000_0000
  }

  /** A number that fits 32 bits is kept, and any is shown below 2^32 and off by a multiple of it. */
  lemma AsU32Keeps(n: nat)
    ensures n <= 4294967295 ==> AsU32(n) == n
    ensures 0 <= AsU32(n) <= 4294967295 && exists k: nat :: n == AsU32(n) + k * 4294967296
  {
    assert n == n % 0x1_0000_0000 + n / 0x1_0000_0000 * 4294967296;
  }

  lemma SubsetCard<T>(a: set<T>, b: set<T>)
    requires a <= b
    ensures |a| <= |b|
  {
    assert b == a + (b - a);
  }

  const UPPER: string := "ABCDEFGHIJKLMNOPQRSTUVWXYZ"
  const LOWER: string := "abcdefghijklmnopqrstuvwxyz"
  const DIGITS: string := "0123456789"

  lemma UpperAt(i: nat)
    requires i < 26
    ensures UPPER[i] == (65 + i) as char
  {
  }

  lemma LowerAt(i: nat)
    requires i < 26
    ensures LOWER[i] == (97 + i) as char
  {
  }

  lemma DigitAt(i: nat)
    requires i < 10
    ensures DIGITS[i] == (48 + i) as char
  {
  }

  /** Which characters these three are. */
  lemma AlphabetIs(c: char)
    ensures c in UPPER <==> 'A' <= c <= 'Z'
    ensures c in LOWER <==> 'a' <= c <= 'z'
    ensures c in DIGITS <==> '0' <= c <= '9'
  {
    if 'A' <= c <= 'Z' {
      UpperAt(c as int - 65);
    }
    if 'a' <= c <= 'z' {
      LowerAt(c as int - 97);
    }
    if '0' <= c <= '9' {
      DigitAt(c as int - 48);
    }
    forall i: nat | i < 26 ensures 'A' <= UPPER[i] <= 'Z' && 'a' <= LOWER[i] <= 'z' {
      UpperAt(i);
      LowerAt(i);
    }
    forall i: nat | i < 10 ensures '0' <= DIGITS[i] <= '9' {
      DigitAt(i);
    }
  }
}
