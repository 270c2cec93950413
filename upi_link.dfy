/** The `upi://pay` deep link that the page builds from a submitted form, and a
    reference reader of that link that takes it apart again. */
module UpiLink {
  import opened Wrappers

  /** The scheme and the payee-address key that open every link. */
  const PayeePrefix: string := "upi://pay?pa="

  /** The key that separates the payee address from the payee name. */
  const NameKey: string := "&pn="

  /** The merchant code, transaction id, transaction reference and note keys,
      always emitted empty and in this order, then the amount key. */
  const EmptyKeys: string := "&mc=&tid=&tr=&tn=&am="

  /** The closing currency field; the currency is always INR. */
  const CurrencySuffix: string := "&cu=INR"

  /** The values a link carries. */
  datatype Payment = Payment(upiId: string, senderName: string, amount: string)

  /** The link template of the submit handler: the three values are pasted in
      verbatim, without escaping or percent-encoding. (The concatenation is
      grouped from the right; the string is the same.) */
  function BuildLink(upiId: string, senderName: string, amount: string): (r: string)
    ensures |r| == |PayeePrefix| + |upiId| + |NameKey| + |senderName| + |EmptyKeys| + |amount| + |CurrencySuffix|
    ensures PayeePrefix + upiId <= r
  {
    PayeePrefix + (upiId + (NameKey + (senderName + (EmptyKeys + (amount + CurrencySuffix)))))
  }

  /** After the payee prefix and the UPI id, every link carries the name field,
      then the four empty keys in order and the amount key, and closes with
      the amount and the INR currency field. */
  lemma BuildLinkShape(upiId: string, senderName: string, amount: string)
    ensures var link := BuildLink(upiId, senderName, amount);
      && link[|PayeePrefix| + |upiId|..][..|NameKey| + |senderName|] == NameKey + senderName
      && link[|PayeePrefix| + |upiId| + |NameKey| + |senderName|..][..|EmptyKeys|] == EmptyKeys
      && link[|link| - |CurrencySuffix| - |amount|..] == amount + CurrencySuffix
  {
  }

  /** The position of the first `c` in `s`, or `|s|` when there is none. */
  function IndexOf(s: string, c: char): (i: nat)
    ensures i <= |s|
    ensures i < |s| ==> s[i] == c
    ensures forall j :: 0 <= j < i ==> s[j] != c
  {
    if |s| == 0 then 0
    else if s[0] == c then 0
    else 1 + IndexOf(s[1..], c)
  }

  /** Splits `s` before its first `&`: the value of a field and what follows it. */
  function TakeValue(s: string): (r: (string, string))
  {
    var i := IndexOf(s, '&');
    (s[..i], s[i..])
  }

  /** Reads a link of the template's shape back into its three values;
      anything else is rejected. */
  function ParseLink(link: string): (r: Option<Payment>)
  {
    if !(PayeePrefix <= link) then None
    else
      var (upiId, afterPayee) := TakeValue(link[|PayeePrefix|..]);
      if !(NameKey <= afterPayee) then None
      else
        var (senderName, afterName) := TakeValue(afterPayee[|NameKey|..]);
        if !(EmptyKeys <= afterName) then None
        else
          var (amount, rest) := TakeValue(afterName[|EmptyKeys|..]);
          if rest != CurrencySuffix then None
          else Some(Payment(upiId, senderName, amount))
  }

  /** The two halves `TakeValue` returns make up its argument. */
  lemma TakeValueSplits(s: string)
    ensures TakeValue(s).0 + TakeValue(s).1 == s
  {
    var i := IndexOf(s, '&');
    assert s == s[..i] + s[i..];
  }

  /** A value free of `&` followed by a field separator is taken off whole. */
  lemma TakeValueAppend(value: string, rest: string)
    requires '&' !in value
    requires |rest| > 0 && rest[0] == '&'
    ensures TakeValue(value + rest) == (value, rest)
  {
    var s := value + rest;
    assert s[..|value|] == value;
    assert s[|value|..] == rest;
  }

  /** Every link built from values free of `&` reads back to exactly those values. */
  lemma ParseBuildLink(upiId: string, senderName: string, amount: string)
    requires '&' !in upiId && '&' !in senderName && '&' !in amount
    ensures ParseLink(BuildLink(upiId, senderName, amount)) == Some(Payment(upiId, senderName, amount))
  {
    var link := BuildLink(upiId, senderName, amount);
    var afterName := EmptyKeys + (amount + CurrencySuffix);
    var afterPayee := NameKey + (senderName + afterName);
    assert link[|PayeePrefix|..] == upiId + afterPayee;
    TakeValueAppend(upiId, afterPayee);
    assert afterPayee[|NameKey|..] == senderName + afterName;
    TakeValueAppend(senderName, afterName);
    assert afterName[|EmptyKeys|..] == amount + CurrencySuffix;
    TakeValueAppend(amount, CurrencySuffix);
  }

  /** A string that starts with `key` is `key` followed by the rest. */
  lemma HasKeySplits(s: string, key: string)
    requires key <= s
    ensures s == key + s[|key|..]
  {
    assert s == s[..|key|] + s[|key|..];
  }

  /** Every link the reader accepts is exactly the link built from what it read. */
  lemma BuildParsedLink(link: string)
    requires ParseLink(link).Some?
    ensures var p := ParseLink(link).value; BuildLink(p.upiId, p.senderName, p.amount) == link
  {
    var s0 := link[|PayeePrefix|..];
    var afterPayee := TakeValue(s0).1;
    var s1 := afterPayee[|NameKey|..];
    var afterName := TakeValue(s1).1;
    var s2 := afterName[|EmptyKeys|..];
    var p := Payment(TakeValue(s0).0, TakeValue(s1).0, TakeValue(s2).0);
    assert ParseLink(link) == Some(p) && TakeValue(s2).1 == CurrencySuffix;
    TakeValueSplits(s2);
    HasKeySplits(afterName, EmptyKeys);
    TakeValueSplits(s1);
    HasKeySplits(afterPayee, NameKey);
    TakeValueSplits(s0);
    HasKeySplits(link, PayeePrefix);
  }

  /** Built from values free of `&`, different values give different links. */
  lemma BuildLinkInjective(a: Payment, b: Payment)
    requires '&' !in a.upiId && '&' !in a.senderName && '&' !in a.amount
    requires '&' !in b.upiId && '&' !in b.senderName && '&' !in b.amount
    requires BuildLink(a.upiId, a.senderName, a.amount) == BuildLink(b.upiId, b.senderName, b.amount)
    ensures a == b
  {
    ParseBuildLink(a.upiId, a.senderName, a.amount);
    ParseBuildLink(b.upiId, b.senderName, b.amount);
  }

  /** Without escaping, an `&pn=` typed into the payee address moves the text
      after it into the name field: two different payments, one link. */
  lemma AmpersandCollision(upiId: string, senderName: string, amount: string)
    ensures BuildLink(upiId + NameKey + senderName, "", amount)
         == BuildLink(upiId, senderName + NameKey, amount)
  {
    var tail := EmptyKeys + (amount + CurrencySuffix);
    var moved := upiId + NameKey + senderName;
    assert BuildLink(moved, "", amount) == PayeePrefix + (moved + (NameKey + tail)) by {
      assert "" + tail == tail;
    }
    assert moved + (NameKey + tail) == upiId + (NameKey + ((senderName + NameKey) + tail));
  }
}
