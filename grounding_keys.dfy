/**
 * The positional key grammar of a grounding returned by the knowledge-base grounding query:
 * `r{i}d`, `r{i}r`, `r{i}v` bind the relation of edge `i` with its direction, `hop{i}v` its hop
 * relation and `e2{i}` its object entity. `{i}` is Python's `str(i)`, the decimal numeral.
 */
module GroundingKeys {

  /** A grounding: a dictionary from key strings to identifier strings. */
  type Grounding = map<string, string>

  const DIGITS := "0123456789"

  predicate IsDigit(c: char) {
    '0' <= c <= '9'
  }

  function Digit(d: nat): (c: char)
    requires d < 10
    ensures IsDigit(c)
    ensures forall e :: 0 <= e < 10 && e != d ==> c != DIGITS[e]
  {
    DIGITS[d]
  }

  /** `str(n)` for a non-negative integer. */
  function NatToString(n: nat): (s: string)
    ensures |s| > 0
    ensures forall k :: 0 <= k < |s| ==> IsDigit(s[k])
    ensures n < 10 <==> |s| == 1
    decreases n
  {
    if n < 10 then [Digit(n)] else NatToString(n / 10) + [Digit(n % 10)]
  }

  /** `"r{}d"`, `"r{}r"`, `"r{}v"` for marker `d`, `r`, `v`. */
  function RelationKey(i: nat, marker: char): string {
    "r" + NatToString(i) + [marker]
  }

  /** `"hop{}v"` */
  function HopKey(i: nat): string {
    "hop" + NatToString(i) + "v"
  }

  /** `"e2" + str(i)` */
  function ObjectKey(i: nat): string {
    "e2" + NatToString(i)
  }

  /** Distinct numbers have distinct decimal numerals. */
  lemma {:induction false} NatToStringInjective(m: nat, n: nat)
    requires NatToString(m) == NatToString(n)
    ensures m == n
    decreases m
  {
    var s := NatToString(m);
    if m >= 10 && n >= 10 {
      var sm, sn := NatToString(m / 10), NatToString(n / 10);
      assert s == sm + [Digit(m % 10)] == sn + [Digit(n % 10)];
      assert Digit(m % 10) == s[|s| - 1] == Digit(n % 10);
      assert m % 10 == n % 10;
      assert sm == s[..|s| - 1] == sn;
      NatToStringInjective(m / 10, n / 10);
    } else if m < 10 && n < 10 {
      assert Digit(m) == s[0] == Digit(n);
    }
  }

  /**
   * The key grammar is unambiguous: a key names one edge index and one kind of binding, so every
   * entry of a grounding is read by at most one edge and one field.
   */
  lemma KeysUnambiguous(i: nat, j: nat, a: char, b: char)
    ensures RelationKey(i, a) == RelationKey(j, b) ==> i == j && a == b
    ensures HopKey(i) == HopKey(j) ==> i == j
    ensures ObjectKey(i) == ObjectKey(j) ==> i == j
    ensures RelationKey(i, a) != HopKey(j) && RelationKey(i, a) != ObjectKey(j) && HopKey(i) != ObjectKey(j)
  {
    var si, sj := NatToString(i), NatToString(j);
    if RelationKey(i, a) == RelationKey(j, b) {
      var k := RelationKey(i, a);
      assert |si| == |sj|;
      assert si == k[1..|k| - 1] == sj;
      NatToStringInjective(i, j);
    }
    if HopKey(i) == HopKey(j) {
      var k := HopKey(i);
      assert si == k[3..|k| - 1] == sj;
      NatToStringInjective(i, j);
    }
    if ObjectKey(i) == ObjectKey(j) {
      var k := ObjectKey(i);
      assert si == k[2..] == sj;
      NatToStringInjective(i, j);
    }
    assert RelationKey(i, a)[0] == 'r' && HopKey(j)[0] == 'h' && ObjectKey(j)[0] == 'e';
    assert HopKey(i)[0] == 'h';
  }

  /** The key `hopup0v` is never one of the keys the code reads for any edge. */
  lemma HopupKeyNeverRead(i: nat, marker: char)
    ensures HopKey(i) != "hopup0v" && RelationKey(i, marker) != "hopup0v" && ObjectKey(i) != "hopup0v"
  {
    assert IsDigit(HopKey(i)[3]);
    assert RelationKey(i, marker)[0] == 'r' && ObjectKey(i)[0] == 'e';
  }
}
