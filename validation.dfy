/**
 * The field rules shared by the checkout and login forms. The regular
 * expressions of the source are stated directly as string predicates.
 */
module Validation {
  import opened Text

  /**
   * `\S+@\S+\.\S+` matches with its `@` at `a` and its `.` at `b`. Because the
   * pattern is not anchored, each outer `\S+` run can shrink to the single
   * character next to the `@` or the `.`; the middle run is all of `s(a..b)`.
   */
  predicate EmailMatchAt(s: string, a: int, b: int) {
    1 <= a && a + 1 < b && b + 1 < |s|
    && s[a] == '@' && s[b] == '.'
    && !IsSpace(s[a - 1]) && !IsSpace(s[b + 1])
    && forall k :: a < k < b ==> !IsSpace(s[k])
  }

  /** `/\S+@\S+\.\S+/.test(s)`. */
  predicate EmailShaped(s: string) {
    exists a, b :: 0 <= a < b < |s| && EmailMatchAt(s, a, b)
  }

  /** The pattern is unanchored: text around an accepted address is accepted too. */
  lemma {:induction false} EmailShapedInContext(s: string, pre: string, post: string)
    requires EmailShaped(s)
    ensures EmailShaped(pre + s + post)
  {
    var a, b :| 0 <= a < b < |s| && EmailMatchAt(s, a, b);
    var t := pre + s + post;
    assert forall k :: 0 <= k < |s| ==> t[|pre| + k] == s[k];
    assert EmailMatchAt(t, |pre| + a, |pre| + b);
  }

  lemma EmailShapedExamples()
    ensures EmailShaped("user@shop.in")
    ensures !EmailShaped("user@shop")
  {
    assert EmailMatchAt("user@shop.in", 4, 9);
    assert forall a, b :: 0 <= a < b < |"user@shop"| ==> !EmailMatchAt("user@shop", a, b) by {
      forall a, b | 0 <= a < b < |"user@shop"| ensures !EmailMatchAt("user@shop", a, b) {
        assert "user@shop"[b] != '.';
      }
    }
  }

  lemma {:induction false} DigitsOnlyAppend(s: string, t: string)
    ensures DigitsOnly(s + t) == DigitsOnly(s) + DigitsOnly(t)
    decreases |s|
  {
    if s != [] {
      assert (s + t)[0] == s[0] && (s + t)[1..] == s[1..] + t;
      DigitsOnlyAppend(s[1..], t);
    } else {
      assert s + t == t;
    }
  }

  /** `/^\d{10}$/.test(phone.replace(/\D/g, ""))`. */
  predicate PhoneValid(s: string) {
    |DigitsOnly(s)| == 10
  }

  /** Separators between the digits of a phone number never change its validity. */
  lemma PhoneIgnoresSeparator(s: string, c: char, t: string)
    requires !IsDigit(c)
    ensures PhoneValid(s + [c] + t) <==> PhoneValid(s + t)
  {
    DigitsOnlyAppend(s + [c], t);
    DigitsOnlyAppend(s, [c]);
    DigitsOnlyAppend(s, t);
  }

  /** `/^\d{6}$/.test(pincode)`, on the untrimmed text. */
  predicate PincodeValid(s: string) {
    |s| == 6 && forall i :: 0 <= i < |s| ==> IsDigit(s[i])
  }

  /** Surrounding white space makes a pincode invalid, even though the required check trims. */
  lemma PincodePaddingRejected(s: string)
    ensures !PincodeValid(" " + s) && !PincodeValid(s + " ")
  {
    assert (" " + s)[0] == ' ';
    if |s + " "| == 6 {
      assert (s + " ")[5] == ' ';
    }
  }

  /** `password.length >= 6` (length counted in characters). */
  predicate PasswordLongEnough(s: string) {
    |s| >= 6
  }
}
