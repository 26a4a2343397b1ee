/** Small value types shared by the models of the Go packages `p2p`, `p2p/nat` and `jsonrpc`. */
module Base {

  /** A value that may be absent: Go's nil pointer, nil interface or nil error. */
  datatype Option<+T> = None | Some(value: T)

  /** The `(value, error)` pair a Go function returns; `Err` carries the error's text. */
  datatype Result<+T> = Ok(value: T) | Err(msg: string)

  /** A parsed IP address (`net.IP`). Only its identity matters to the model. */
  datatype IP = IP(octets: seq<bv8>)

  /** The character of a decimal digit. */
  function DigitChar(d: nat): (c: char)
    requires d < 10
    ensures '0' <= c <= '9'
  {
    "0123456789"[d]
  }

  /** The decimal text of a natural number, without leading zeros. */
  function NatToDecimal(n: nat): (s: string)
    ensures 1 <= |s|
    ensures forall i :: 0 <= i < |s| ==> '0' <= s[i] <= '9'
    ensures |s| > 1 ==> s[0] != '0'
    decreases n
  {
    if n < 10 then [DigitChar(n)] else NatToDecimal(n / 10) + [DigitChar(n % 10)]
  }

  /** `strconv.Itoa`: decimal text with a leading '-' for negative numbers. */
  function Itoa(n: int): (s: string)
    ensures 1 <= |s|
    ensures (s[0] == '-') <==> n < 0
  {
    if n < 0 then "-" + NatToDecimal(-n) else NatToDecimal(n)
  }

  /** The index of the first element satisfying `stop`, or the length when none does:
      how far a loop that ends at the first such element gets. */
  function FirstWhere<T>(s: seq<T>, stop: T -> bool): (k: nat)
    ensures k <= |s|
    ensures forall j :: 0 <= j < k ==> !stop(s[j])
    ensures k < |s| ==> stop(s[k])
  {
    if s == [] then 0
    else if stop(s[0]) then 0
    else 1 + FirstWhere(s[1..], stop)
  }

  /** The first index satisfying `stop` is the only index before which nothing does. */
  lemma {:induction false} FirstWhereUnique<T>(s: seq<T>, stop: T -> bool, k: nat)
    requires k <= |s|
    requires forall j :: 0 <= j < k ==> !stop(s[j])
    requires k < |s| ==> stop(s[k])
    ensures FirstWhere(s, stop) == k
  {
    if s != [] && !stop(s[0]) {
      assert 0 < k;
      FirstWhereUnique(s[1..], stop, k - 1);
    }
  }
}
