/**
  The sequence counters of APMS and APMR.

  Both machines start a connection with the pair (0xffff, 0xfffe) and step with
  `(count + 1) & 0x7fff`.  The k-th PDU of a connection (k counts from 0) therefore
  carries 0xffff when k is 0 and (k - 1) modulo 0x8000 otherwise.
*/
module SequenceNumbers {

  const MODULUS := 0x8000

  /** The 16-bit number carried by the k-th PDU; -1 stands for "no PDU yet". */
  function SeqOf(k: int): nat
    requires -1 <= k
  {
    if k == -1 then 0xfffe else if k == 0 then 0xffff else (k - 1) % MODULUS
  }

  /** The increment in the C code; on an unsigned 16-bit count, `& 0x7fff` is `% 0x8000`. */
  function NextSeq(count: nat): nat {
    (count + 1) % MODULUS
  }

  /** The closed form follows the increment, wrap-around and start value included. */
  lemma NextSeqIsNextPdu(k: nat)
    ensures NextSeq(SeqOf(k)) == SeqOf(k + 1)
    ensures SeqOf(k) < 0x1_0000
  {
    if k == 0 {
    } else {
      var r := (k - 1) % MODULUS;
      assert k == r + 1 + MODULUS * ((k - 1) / MODULUS);
      assert k % MODULUS == (r + 1) % MODULUS;
    }
  }

  /** Exactly when two PDUs carry the same number. */
  lemma SameNumber(i: int, j: int)
    requires -1 <= i <= j
    ensures SeqOf(i) == SeqOf(j) <==> i == j || (1 <= i && (j - i) % MODULUS == 0)
  {
    if 1 <= i {
      var a, b := i - 1, j - 1;
      assert a == MODULUS * (a / MODULUS) + a % MODULUS;
      assert b == MODULUS * (b / MODULUS) + b % MODULUS;
      if a % MODULUS == b % MODULUS {
        assert j - i == MODULUS * (b / MODULUS - a / MODULUS);
      }
      if (j - i) % MODULUS == 0 {
        assert b == a + MODULUS * ((j - i) / MODULUS);
      }
    }
  }

  /** Within a window of one modulus the number identifies the PDU. */
  lemma NumberIdentifies(i: int, j: int)
    requires -1 <= i <= j < i + MODULUS
    ensures SeqOf(i) == SeqOf(j) <==> i == j
  {
    SameNumber(i, j);
  }
}
