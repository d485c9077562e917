/**
 * The payment-field formatters of the checkout drawer (`pages/Cart.tsx`) and the card-number
 * sanitiser of the profile page (`pages/Profile.tsx`). They transform what was typed; none of
 * them validates anything.
 */
module CardFormat {
  import opened Text

  /** `s.replace(/\D/g, '').substring(0, n)`: the first `n` digits of what was typed. */
  function DigitsUpTo(s: string, n: nat): (r: string)
    ensures AllDigits(r) && |r| <= n
    ensures r <= DigitsOnly(s)
    ensures |DigitsOnly(s)| >= n ==> |r| == n
    ensures |DigitsOnly(s)| < n ==> r == DigitsOnly(s)
  {
    Prefix(DigitsOnly(s), n)
  }

  /** Sanitising a sanitised value changes nothing. */
  lemma DigitsUpToIdempotent(s: string, n: nat)
    ensures DigitsUpTo(DigitsUpTo(s, n), n) == DigitsUpTo(s, n)
  {
  }

  /** `value.match(/.{1,4}/g)?.join(' ') || value`: runs of four characters joined by single
      spaces; the empty string has no match and stays empty. */
  function GroupsOfFour(s: string): string
  {
    if |s| <= 4 then s else s[..4] + " " + GroupsOfFour(s[4..])
  }

  /** Grouping only inserts spaces, one after every fourth character but the last group. */
  lemma {:induction false} GroupsOfFourShape(s: string)
    requires AllDigits(s)
    ensures |s| == 0 ==> GroupsOfFour(s) == ""
    ensures |s| > 0 ==> |GroupsOfFour(s)| == |s| + (|s| - 1) / 4
    ensures forall i :: 0 <= i < |GroupsOfFour(s)| ==> (GroupsOfFour(s)[i] == ' ' <==> i % 5 == 4)
    ensures DigitsOnly(GroupsOfFour(s)) == s
  {
    var r := GroupsOfFour(s);
    if |s| > 4 {
      var rest := GroupsOfFour(s[4..]);
      GroupsOfFourShape(s[4..]);
      assert r == s[..4] + " " + rest;
      forall i | 0 <= i < |r|
        ensures r[i] == ' ' <==> i % 5 == 4
      {
        if i >= 5 {
          assert r[i] == rest[i - 5];
          assert (i - 5) % 5 == i % 5;
        }
      }
      DigitsOnlyAppend(s[..4] + " ", rest);
      DigitsOnlyAppend(s[..4], " ");
      assert DigitsOnly(" ") == "";
      assert s[..4] + s[4..] == s;
    } else {
      forall i | 0 <= i < |r|
        ensures r[i] != ' ' && i % 5 != 4
      {
        assert IsDigit(s[i]);
      }
    }
  }

  /** `handleCardNumberChange`: keep the digits, at most 16, in space-separated groups of four. */
  function FormatCardNumber(input: string): (r: string)
    ensures var n := |DigitsUpTo(input, 16)|; |r| == if n == 0 then 0 else n + (n - 1) / 4
    ensures |r| <= 19
    ensures |r| > 0 ==> r[|r| - 1] != ' '
    ensures forall i :: 0 <= i < |r| ==> (r[i] == ' ' <==> i % 5 == 4)
    ensures forall i :: 0 <= i < |r| ==> r[i] == ' ' || IsDigit(r[i])
    ensures DigitsOnly(r) == DigitsUpTo(input, 16)
  {
    var digits := DigitsUpTo(input, 16);
    GroupsOfFourShape(digits);
    var r := GroupsOfFour(digits);
    assert forall i :: 0 <= i < |r| ==> r[i] == ' ' || IsDigit(r[i]) by {
      forall i | 0 <= i < |r| && r[i] != ' '
        ensures IsDigit(r[i])
      {
        DigitsInGroups(digits, i);
      }
    }
    r
  }

  /** Every non-space character of a grouped digit string is a digit. */
  lemma {:induction false} DigitsInGroups(s: string, i: nat)
    requires AllDigits(s) && i < |GroupsOfFour(s)| && GroupsOfFour(s)[i] != ' '
    ensures IsDigit(GroupsOfFour(s)[i])
  {
    if |s| > 4 && i >= 5 {
      DigitsInGroups(s[4..], i - 5);
    }
  }

  /** Re-formatting a formatted card number changes nothing, so the handler is stable when it runs
      again on its own output plus one more keystroke's worth of text. */
  lemma FormatCardNumberIdempotent(input: string)
    ensures FormatCardNumber(FormatCardNumber(input)) == FormatCardNumber(input)
  {
    var r := FormatCardNumber(input);
    assert DigitsUpTo(r, 16) == DigitsUpTo(input, 16);
  }

  /** `handleExpiryChange`: keep at most four digits and put a `/` after the first two once there
      are two. */
  function FormatExpiry(input: string): (r: string)
    ensures |r| <= 5
    ensures DigitsOnly(r) == DigitsUpTo(input, 4)
    ensures |DigitsUpTo(input, 4)| >= 2 ==> |r| == |DigitsUpTo(input, 4)| + 1 && r[2] == '/'
    ensures |DigitsUpTo(input, 4)| < 2 ==> r == DigitsUpTo(input, 4)
  {
    var v := DigitsUpTo(input, 4);
    if |v| >= 2 then
      DigitsOnlyAppend(v[..2] + "/", v[2..]);
      DigitsOnlyAppend(v[..2], "/");
      assert DigitsOnly("/") == "";
      assert v[..2] + v[2..] == v;
      v[..2] + "/" + v[2..]
    else v
  }

  /** Two digits already show the slash: `"12"` becomes `"12/"`. */
  lemma ExpiryOfTwoDigits()
    ensures FormatExpiry("12") == "12/"
  {
    assert DigitsOnly("12") == "12" by {
      assert AllDigits("12");
    }
  }

  /** Re-formatting a formatted expiry changes nothing. */
  lemma FormatExpiryIdempotent(input: string)
    ensures FormatExpiry(FormatExpiry(input)) == FormatExpiry(input)
  {
    var r := FormatExpiry(input);
    assert DigitsUpTo(r, 4) == DigitsUpTo(input, 4);
  }
}
