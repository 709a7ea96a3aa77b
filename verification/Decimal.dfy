/** Decimal numerals, and the device and socket names built from them. */
module Decimal {

  function Digit(d: nat): char
    requires d < 10
  {
    ['0', '1', '2', '3', '4', '5', '6', '7', '8', '9'][d]
  }

  predicate IsDigit(c: char) {
    '0' <= c <= '9'
  }

  function DigitValue(c: char): nat
    requires IsDigit(c)
  {
    (c - '0') as nat
  }

  predicate AllDigits(text: string) {
    forall k :: 0 <= k < |text| ==> IsDigit(text[k])
  }

  /** The number a string of digits denotes. */
  function Value(digits: string): nat
    requires AllDigits(digits)
  {
    if |digits| == 0 then 0
    else Value(digits[..|digits| - 1]) * 10 + DigitValue(digits[|digits| - 1])
  }

  /** How an unsigned integer is printed. */
  function Print(n: nat): (text: string)
    ensures |text| > 0 && AllDigits(text) && Value(text) == n
  {
    if n < 10 then
      var text := [Digit(n)];
      assert text[..0] == [];
      text
    else
      var text := Print(n / 10) + [Digit(n % 10)];
      assert text[..|text| - 1] == Print(n / 10);
      text
  }

  function TapName(slot: nat): string {
    "tap" + Print(slot)
  }

  function SocketName(slot: nat): string {
    "vmm" + Print(slot) + ".sock"
  }

  /** Different slots have different tap devices and different sockets. */
  lemma SlotNamesAreDistinct(a: nat, b: nat)
    ensures TapName(a) == TapName(b) <==> a == b
    ensures SocketName(a) == SocketName(b) <==> a == b
    ensures var tap, digits := TapName(a), TapName(a)[3..];
            tap[..3] == "tap" && |digits| > 0 && AllDigits(digits) && Value(digits) == a
    ensures TapName(10) == "tap10" && SocketName(10) == "vmm10.sock"
  {
    assert Print(10) == "1" + "0" && Print(10) == "10";
    assert TapName(a)[3..] == Print(a) && TapName(b)[3..] == Print(b);
    var x, y := SocketName(a), SocketName(b);
    assert x[3..|x| - 5] == Print(a) && y[3..|y| - 5] == Print(b);
  }
}
