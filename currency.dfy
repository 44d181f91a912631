/** The digit-entry field (src/components/CurrencyInput.tsx). The field holds a
    non-negative decimal with a fixed number d of decimal places; keystrokes
    edit the scaled whole number n = value * 10^d one digit at a time at its
    right end. */
module Currency {
  import opened Wrappers

  /** `DELETE_KEY_CODE`: the key code of Backspace */
  const DeleteKeyCode: int := 8

  /** 10^d, the `decimalShift` */
  function Pow10(d: nat): (r: nat)
    ensures r >= 1
  {
    if d == 0 then 1 else 10 * Pow10(d - 1)
  }

  predicate IsDigit(c: char) {
    '0' <= c <= '9'
  }

  predicate IsDigitString(s: string) {
    forall i :: 0 <= i < |s| ==> IsDigit(s[i])
  }

  /** `VALID_FIRST = /^[1-9]{1}$/`: the key is exactly one non-zero digit */
  predicate ValidFirst(key: string) {
    |key| == 1 && '1' <= key[0] <= '9'
  }

  /** `VALID_NEXT = /^[0-9]{1}$/`: the key is exactly one digit */
  predicate ValidNext(key: string) {
    |key| == 1 && IsDigit(key[0])
  }

  function DigitValue(c: char): (k: nat)
    requires IsDigit(c)
    ensures k < 10
  {
    c as int - '0' as int
  }

  function DigitChar(k: nat): (c: char)
    requires k < 10
    ensures IsDigit(c) && DigitValue(c) == k
  {
    ('0' as int + k) as char
  }

  /** `n.toFixed(0)` for a whole number n: its decimal digits, with no leading
      zero unless n is 0 itself. */
  function DecimalString(n: nat): (s: string)
    ensures |s| >= 1 && IsDigitString(s)
    ensures s[0] == '0' ==> n == 0
  {
    if n < 10 then [DigitChar(n)] else DecimalString(n / 10) + [DigitChar(n % 10)]
  }

  /** `new BN(s)` for a string of decimal digits, read left to right. */
  function ParseDigits(s: string): (n: nat)
    requires IsDigitString(s)
    ensures n < Pow10(|s|)
  {
    if s == [] then 0 else 10 * ParseDigits(s[..|s| - 1]) + DigitValue(s[|s| - 1])
  }

  /** Reading a string with one more digit at its end shifts by one place. */
  lemma ParseAppendDigit(s: string, c: char)
    requires IsDigitString(s) && IsDigit(c)
    ensures IsDigitString(s + [c])
    ensures ParseDigits(s + [c]) == 10 * ParseDigits(s) + DigitValue(c)
  {
    assert (s + [c])[..|s|] == s;
  }

  /** Reading back what `toFixed(0)` wrote gives the number again. */
  lemma {:induction false} ParseDecimalString(n: nat)
    ensures ParseDigits(DecimalString(n)) == n
  {
    if n >= 10 {
      ParseDecimalString(n / 10);
      ParseAppendDigit(DecimalString(n / 10), DigitChar(n % 10));
    }
  }

  /** The digits of 10n + k, for n > 0, are those of n followed by k. */
  lemma DecimalStringAppend(n: nat, k: nat)
    requires n > 0 && k < 10
    ensures DecimalString(10 * n + k) == DecimalString(n) + [DigitChar(k)]
  {
    assert (10 * n + k) / 10 == n && (10 * n + k) % 10 == k;
  }

  /** The digits of n with the last one cut off, for n >= 10, are those of n div 10. */
  lemma DecimalStringDropLast(n: nat)
    requires n >= 10
    ensures DecimalString(n)[..|DecimalString(n)| - 1] == DecimalString(n / 10)
  {
    var s := DecimalString(n / 10);
    assert DecimalString(n) == s + [DigitChar(n % 10)];
    assert (s + [DigitChar(n % 10)])[..|s|] == s;
  }

  /** The early-return guard of `handleKeyDown`, for a field whose scaled
      value is n: at zero only a non-zero digit is taken; otherwise a digit or
      Backspace is. */
  predicate Ignored(n: nat, key: string, keyCode: int) {
    (n == 0 && !ValidFirst(key)) || (n != 0 && !ValidNext(key) && keyCode != DeleteKeyCode)
  }

  /** What a keystroke does to the scaled value: nothing when it is ignored,
      a digit k appended (10n + k) or the last digit dropped (n div 10). */
  function KeyTransition(n: nat, key: string, keyCode: int): Option<nat> {
    if Ignored(n, key, keyCode) then None
    else if keyCode != DeleteKeyCode then Some(10 * n + DigitValue(key[0]))
    else Some(n / 10)
  }

  /** At zero every key except 1-9 is ignored, '0' and Backspace included,
      and every key 1-9 is taken. */
  lemma ZeroTakesOnlyNonZeroDigits(key: string, keyCode: int)
    ensures KeyTransition(0, key, keyCode).None? <==> !ValidFirst(key)
    ensures KeyTransition(0, "0", keyCode).None?
    ensures KeyTransition(0, "Backspace", DeleteKeyCode).None?
  {
  }

  /** Away from zero a key is ignored exactly when it is neither a digit nor Backspace. */
  lemma NonZeroIgnoresStrayKeys(n: nat, key: string, keyCode: int)
    requires n != 0
    ensures KeyTransition(n, key, keyCode).None? <==> !ValidNext(key) && keyCode != DeleteKeyCode
  {
  }

  /** A taken digit k turns n into 10n + k: the display gains k at its right end. */
  lemma DigitAppends(n: nat, key: string, keyCode: int)
    requires KeyTransition(n, key, keyCode).Some? && keyCode != DeleteKeyCode
    ensures ValidNext(key)
    ensures KeyTransition(n, key, keyCode) == Some(10 * n + DigitValue(key[0]))
    ensures n > 0 ==> DecimalString(10 * n + DigitValue(key[0])) == DecimalString(n) + key
  {
    if n > 0 {
      DecimalStringAppend(n, DigitValue(key[0]));
      assert key == [DigitChar(DigitValue(key[0]))];
    }
  }

  /** A taken Backspace turns n into n div 10; a single digit becomes 0. */
  lemma BackspaceDrops(n: nat, key: string)
    requires n != 0
    ensures KeyTransition(n, key, DeleteKeyCode) == Some(n / 10)
    ensures n < 10 ==> KeyTransition(n, key, DeleteKeyCode) == Some(0)
  {
  }

  /** Backspace right after a taken digit restores the value before the digit. */
  lemma DigitThenBackspaceRestores(n: nat, key: string, keyCode: int, backspaceKey: string)
    requires keyCode != DeleteKeyCode
    requires KeyTransition(n, key, keyCode).Some?
    ensures KeyTransition(KeyTransition(n, key, keyCode).value, backspaceKey, DeleteKeyCode) == Some(n)
  {
    var m := KeyTransition(n, key, keyCode).value;
    assert m == 10 * n + DigitValue(key[0]);
    assert m != 0;
    assert m / 10 == n;
  }

  /** A keystroke: the `key` and `keyCode` of the keyboard event. */
  datatype Keystroke = Keystroke(key: string, keyCode: int)

  /** The keystroke of a digit key on the main row: its key code is the character code. */
  function DigitKeystroke(c: char): Keystroke {
    Keystroke([c], c as int)
  }

  /** Feeding keystrokes one after another; an ignored one changes nothing. */
  function TypeKeys(n: nat, keys: seq<Keystroke>): nat
    decreases |keys|
  {
    if keys == [] then n
    else
      var next := KeyTransition(n, keys[0].key, keys[0].keyCode);
      TypeKeys(next.GetOr(n), keys[1..])
  }

  lemma {:induction false} TypeKeysAppend(n: nat, a: seq<Keystroke>, b: seq<Keystroke>)
    ensures TypeKeys(n, a + b) == TypeKeys(TypeKeys(n, a), b)
    decreases |a|
  {
    if a == [] {
      assert a + b == b;
    } else {
      assert (a + b)[0] == a[0];
      assert (a + b)[1..] == a[1..] + b;
      var next := KeyTransition(n, a[0].key, a[0].keyCode);
      TypeKeysAppend(next.GetOr(n), a[1..], b);
    }
  }

  function DigitKeystrokes(s: string): (keys: seq<Keystroke>)
    ensures |keys| == |s|
  {
    seq(|s|, i requires 0 <= i < |s| => DigitKeystroke(s[i]))
  }

  /** Typing the digits of a whole number m >= 1 into an empty field enters m. */
  lemma {:induction false} TypingDigitsEntersNumber(m: nat)
    requires m >= 1
    ensures TypeKeys(0, DigitKeystrokes(DecimalString(m))) == m
  {
    if m < 10 {
      assert DigitKeystrokes(DecimalString(m)) == [DigitKeystroke(DigitChar(m))];
      assert KeyTransition(0, [DigitChar(m)], DigitChar(m) as int) == Some(m);
    } else {
      var s := DecimalString(m / 10);
      var c := DigitChar(m % 10);
      assert DecimalString(m) == s + [c];
      assert DigitKeystrokes(s + [c]) == DigitKeystrokes(s) + [DigitKeystroke(c)];
      TypingDigitsEntersNumber(m / 10);
      TypeKeysAppend(0, DigitKeystrokes(s), [DigitKeystroke(c)]);
      assert KeyTransition(m / 10, [c], c as int) == Some(10 * (m / 10) + m % 10);
    }
  }

  /** `props.decimalPlaces || 0`: missing decimal places mean 0. */
  function PlacesOrZero(decimalPlaces: Option<nat>): (d: nat)
    ensures decimalPlaces.None? ==> d == 0
    ensures decimalPlaces.Some? ==> d == decimalPlaces.value
  {
    decimalPlaces.GetOr(0)
  }

  /** A value the field can hold with d decimal places: non-negative and a
      whole multiple of 10^-d. */
  ghost predicate Representable(v: real, d: nat) {
    v >= 0.0 && (v * Pow10(d) as real).Floor as real == v * Pow10(d) as real
  }

  /** Every n / 10^d the field emits is representable with d places, and
      scaling it back gives n. */
  lemma ScaledIsRepresentable(n: nat, d: nat)
    ensures Representable(n as real / Pow10(d) as real, d)
    ensures (n as real / Pow10(d) as real) * Pow10(d) as real == n as real
    ensures n as real / Pow10(d) as real == 0.0 <==> n == 0
  {
    var p := Pow10(d) as real;
    assert (n as real / p) * p == n as real;
  }

  /** The digit branch of `handleKeyDown`: at zero the key alone is read,
      otherwise the digits of n followed by the key; either reads as 10n + k. */
  lemma AppendedKeyReads(n: nat, key: string)
    requires ValidNext(key) && (n == 0 ==> ValidFirst(key))
    ensures IsDigitString(if n == 0 then key else DecimalString(n) + key)
    ensures ParseDigits(if n == 0 then key else DecimalString(n) + key) == 10 * n + DigitValue(key[0])
  {
    if n == 0 {
      assert key == [] + [key[0]];
      ParseAppendDigit([], key[0]);
    } else {
      assert key == [key[0]];
      ParseDecimalString(n);
      ParseAppendDigit(DecimalString(n), key[0]);
    }
  }

  /** The Backspace branch of `handleKeyDown`: the digits of n less the last
      one read as n div 10, the empty string as 0. */
  lemma DroppedDigitReads(n: nat)
    ensures IsDigitString(DecimalString(n)[..|DecimalString(n)| - 1])
    ensures var s := DecimalString(n)[..|DecimalString(n)| - 1];
            (if s == "" then 0 else ParseDigits(s)) == n / 10
  {
    if n >= 10 {
      DecimalStringDropLast(n);
      ParseDecimalString(n / 10);
    }
  }

  /** The field of one line item. The held value is kept as its scaled whole
      number n = value * 10^d, so that it is representable by construction. */
  class CurrencyInput {
    var scaled: nat
    const decimalPlaces: nat

    /** The held value, n / 10^d: non-negative, a whole multiple of 10^-d, and
        n again once scaled back. */
    function Value(): (v: real)
      reads this
      ensures Representable(v, decimalPlaces)
      ensures v * Pow10(decimalPlaces) as real == scaled as real
      ensures v == 0.0 <==> scaled == 0
    {
      ScaledIsRepresentable(scaled, decimalPlaces);
      scaled as real / Pow10(decimalPlaces) as real
    }

    /** A field as the form first shows it: value 0, places `decimalPlaces || 0`. */
    constructor (decimalPlaces: Option<nat>)
      ensures scaled == 0 && Value() == 0.0
      ensures this.decimalPlaces == PlacesOrZero(decimalPlaces)
    {
      scaled := 0;
      this.decimalPlaces := PlacesOrZero(decimalPlaces);
    }

    /** `handleKeyDown`: an ignored key emits nothing and changes nothing; a
        taken key moves the scaled value as `KeyTransition` says and emits the
        new value, which the form hands back as the held value. */
    method KeyDown(key: string, keyCode: int) returns (emitted: Option<real>)
      modifies this
      ensures KeyTransition(old(scaled), key, keyCode).None? ==> emitted.None? && scaled == old(scaled)
      ensures KeyTransition(old(scaled), key, keyCode).Some? ==>
                scaled == KeyTransition(old(scaled), key, keyCode).value && emitted == Some(Value())
      ensures emitted.Some? ==> Representable(emitted.value, decimalPlaces)
    {
      var isZero := Value() == 0.0;
      if (isZero && !ValidFirst(key)) || (!isZero && !ValidNext(key) && keyCode != DeleteKeyCode) {
        return None;
      }
      var decimalShift := Pow10(decimalPlaces) as real;
      // `value.times(decimalShift).toFixed(0)`
      var valueString := DecimalString(scaled);
      var nextScaled: nat;
      if keyCode != DeleteKeyCode {
        AppendedKeyReads(scaled, key);
        var nextValueString := if isZero then key else valueString + key;
        nextScaled := ParseDigits(nextValueString);
      } else {
        DroppedDigitReads(scaled);
        var nextValueString := valueString[..|valueString| - 1];
        nextScaled := if nextValueString == "" then 0 else ParseDigits(nextValueString);
      }
      var nextValue := nextScaled as real / decimalShift;
      scaled := nextScaled;
      emitted := Some(nextValue);
    }
  }
}
