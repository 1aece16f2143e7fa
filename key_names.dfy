/**
 * Key names built from a prefix and a Python int, as
 * `"cam{0}".format(n)` and `"imu%d" % n` build them, and the facts the
 * collections need about them: distinct numbers give distinct keys, and
 * the keys of the first n members are n distinct strings.
 */
module KeyNames {

  function Digit(n: nat): (c: char)
    requires n < 10
    ensures '0' <= c <= '9'
    ensures c as int - '0' as int == n
  {
    (n + '0' as int) as char
  }

  /** The decimal numeral of `n`, without leading zeros. */
  function NatToString(n: nat): (s: string)
    ensures |s| >= 1
    ensures n >= 10 ==> |s| >= 2
    ensures forall k :: 0 <= k < |s| ==> '0' <= s[k] <= '9'
  {
    if n < 10 then [Digit(n)] else NatToString(n / 10) + [Digit(n % 10)]
  }

  /** `str(i)` for a Python int. */
  function IntToString(i: int): (s: string)
    ensures |s| >= 1
  {
    if i < 0 then "-" + NatToString(-i) else NatToString(i)
  }

  /** The key `<prefix><i>`, e.g. `cam2` or `imu0`. */
  function Indexed(prefix: string, i: int): (k: string)
    ensures |k| > |prefix| && k[..|prefix|] == prefix
  {
    prefix + IntToString(i)
  }

  lemma {:induction false} NatToStringInjective(a: nat, b: nat)
    requires NatToString(a) == NatToString(b)
    ensures a == b
  {
    var sa, sb := NatToString(a), NatToString(b);
    if a < 10 && b < 10 {
      assert sa[0] == Digit(a) && sb[0] == Digit(b);
    } else if a < 10 || b < 10 {
      assert false;  // the numerals differ in length
    } else {
      var pa, pb := NatToString(a / 10), NatToString(b / 10);
      assert sa == pa + [Digit(a % 10)] && sb == pb + [Digit(b % 10)];
      assert |pa| == |pb|;
      assert pa == sa[..|sa| - 1] && pb == sb[..|sb| - 1];
      NatToStringInjective(a / 10, b / 10);
      assert sa[|sa| - 1] == Digit(a % 10) && sb[|sb| - 1] == Digit(b % 10);
    }
  }

  lemma IntToStringInjective(a: int, b: int)
    requires IntToString(a) == IntToString(b)
    ensures a == b
  {
    var sa, sb := IntToString(a), IntToString(b);
    // only the numeral of a negative number starts with '-'
    assert a < 0 <==> sa[0] == '-';
    assert b < 0 <==> sb[0] == '-';
    if a < 0 {
      assert NatToString(-a) == sa[1..] && NatToString(-b) == sb[1..];
      NatToStringInjective(-a, -b);
    } else {
      NatToStringInjective(a, b);
    }
  }

  /** Two keys with the same prefix are equal exactly when their numbers are. */
  lemma IndexedInjective(prefix: string, a: int, b: int)
    ensures Indexed(prefix, a) == Indexed(prefix, b) <==> a == b
  {
    if Indexed(prefix, a) == Indexed(prefix, b) {
      assert IntToString(a) == Indexed(prefix, a)[|prefix|..];
      assert IntToString(b) == Indexed(prefix, b)[|prefix|..];
      IntToStringInjective(a, b);
    }
  }

  /** The keys `<prefix>0` .. `<prefix><n-1>`. */
  function IndexedKeys(prefix: string, n: nat): set<string>
  {
    if n == 0 then {} else IndexedKeys(prefix, n - 1) + {Indexed(prefix, n - 1)}
  }

  /** `<prefix><i>` is among the first n keys exactly when 0 <= i < n. */
  lemma {:induction false} IndexedKeysMember(prefix: string, n: nat, i: int)
    ensures Indexed(prefix, i) in IndexedKeys(prefix, n) <==> 0 <= i < n
  {
    if n > 0 {
      IndexedKeysMember(prefix, n - 1, i);
      IndexedInjective(prefix, i, n - 1);
    }
  }

  /** The first n keys are n distinct strings. */
  lemma {:induction false} IndexedKeysCount(prefix: string, n: nat)
    ensures |IndexedKeys(prefix, n)| == n
  {
    if n > 0 {
      IndexedKeysCount(prefix, n - 1);
      IndexedKeysMember(prefix, n - 1, n - 1);
    }
  }
}
