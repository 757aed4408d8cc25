/**
 * Identifiers of the operations the executor creates itself: the synthetic root of an
 * unmanaged thread, drawn from a descending counter, and the build's own root operation.
 */
module Identifiers {

  /** `DefaultBuildOperationIdFactory.ROOT_BUILD_OPERATION_ID_VALUE`. */
  const RootBuildOperationId: int := 1

  /** The first identifier of the unmanaged-thread counter; later ones count down from it. */
  const FirstUnmanagedId: int := -1

  // ---------------------------------------------------------------------------------------------
  // Decimal text of a long (`OperationIdentifier.toString`, i.e. `Long.toString`)

  function DigitChar(d: nat): char
    requires d < 10
  {
    "0123456789"[d]
  }

  predicate IsDigit(c: char) {
    '0' <= c <= '9'
  }

  function DigitValue(c: char): nat
    requires IsDigit(c)
  {
    (c - '0') as nat
  }

  /** The decimal digits of `n`, most significant first, without leading zeros. */
  function NatToString(n: nat): (s: string)
    ensures |s| >= 1 && forall i :: 0 <= i < |s| ==> IsDigit(s[i])
    ensures |s| > 1 ==> s[0] != '0'
  {
    if n < 10 then [DigitChar(n)] else NatToString(n / 10) + [DigitChar(n % 10)]
  }

  /** `Long.toString`: a minus sign before the digits of a negative number. */
  function IntToString(i: int): string {
    if i < 0 then "-" + NatToString(-i) else NatToString(i)
  }

  /** The value of a string of decimal digits. */
  function ParseNat(s: string): nat
    requires forall i :: 0 <= i < |s| ==> IsDigit(s[i])
  {
    if |s| == 0 then 0 else ParseNat(s[..|s| - 1]) * 10 + DigitValue(s[|s| - 1])
  }

  /** An optionally signed string of decimal digits. */
  predicate IsIntText(s: string) {
    |s| >= 1 && (s[0] == '-' || IsDigit(s[0])) && forall i :: 1 <= i < |s| ==> IsDigit(s[i])
  }

  /** The value of an optionally signed string of decimal digits. */
  function ParseInt(s: string): int
    requires IsIntText(s)
  {
    if s[0] == '-' then -(ParseNat(s[1..]) as int) else ParseNat(s)
  }

  lemma {:induction false} ParseNatOfNatToString(n: nat)
    ensures ParseNat(NatToString(n)) == n
  {
    var s := NatToString(n);
    if n >= 10 {
      ParseNatOfNatToString(n / 10);
      assert s[..|s| - 1] == NatToString(n / 10);
    }
  }

  /** Parsing gives back the number: the decimal text of an identifier determines it. */
  lemma IntToStringRoundTrip(i: int)
    ensures IsIntText(IntToString(i)) && ParseInt(IntToString(i)) == i
  {
    var s := IntToString(i);
    if i < 0 {
      var digits := NatToString(-i);
      assert s == "-" + digits;
      assert s[1..] == digits;
      assert IsIntText(s);
      ParseNatOfNatToString(-i);
    } else {
      ParseNatOfNatToString(i);
    }
  }

  // ---------------------------------------------------------------------------------------------
  // Display name of an unmanaged thread's root (`UnmanagedThreadOperation.create`)

  const UnmanagedDisplayNamePrefix: string := "Unmanaged thread operation #"

  /**
   * The display name of a synthetic root: the prefix, the identifier in decimal and the thread
   * name in parentheses. The identifier can be read back from between the prefix and the
   * parenthesised thread name.
   */
  function UnmanagedDisplayName(id: int, threadName: string): (name: string)
    ensures UnmanagedDisplayNamePrefix <= name
    ensures var suffix := " (" + threadName + ")";
      |UnmanagedDisplayNamePrefix| + |suffix| < |name| &&
      name[|name| - |suffix|..] == suffix &&
      IsIntText(name[|UnmanagedDisplayNamePrefix|..|name| - |suffix|]) &&
      ParseInt(name[|UnmanagedDisplayNamePrefix|..|name| - |suffix|]) == id
  {
    var digits, suffix := IntToString(id), " (" + threadName + ")";
    IntToStringRoundTrip(id);
    var name := UnmanagedDisplayNamePrefix + digits + suffix;
    assert name[|UnmanagedDisplayNamePrefix|..|name| - |suffix|] == digits;
    name
  }

  /**
   * On one thread, different unmanaged identifiers give different display names: the name
   * reads the prefix, the identifier in decimal, and the thread name in parentheses.
   */
  lemma UnmanagedDisplayNameDeterminesId(a: int, b: int, threadName: string)
    requires UnmanagedDisplayName(a, threadName) == UnmanagedDisplayName(b, threadName)
    ensures a == b
  {
    var p, sa, sb, t := UnmanagedDisplayNamePrefix, IntToString(a), IntToString(b), " (" + threadName + ")";
    var na, nb := UnmanagedDisplayName(a, threadName), UnmanagedDisplayName(b, threadName);
    assert na == p + sa + t && nb == p + sb + t;
    assert |sa| == |sb|;
    assert na[|p|..|p| + |sa|] == sa;
    assert nb[|p|..|p| + |sb|] == sb;
    IntToStringRoundTrip(a);
    IntToStringRoundTrip(b);
  }
}
