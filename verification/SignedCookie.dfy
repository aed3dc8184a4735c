/** Signed cookies: `value.signature`, accepted under any configured secret. */
module SignedCookie {

  /** The keyed hash is opaque; all that is known is its base64 output alphabet. */
  type Mac = (string, string) -> string

  predicate Base64Char(c: char)
  {
    'A' <= c <= 'Z' || 'a' <= c <= 'z' || '0' <= c <= '9' || c == '+' || c == '/' || c == '='
  }

  ghost predicate Base64Mac(mac: Mac)
  {
    forall value: string, secret: string :: forall i :: 0 <= i < |mac(value, secret)| ==> Base64Char(mac(value, secret)[i])
  }

  predicate IsHex(c: char)
  {
    '0' <= c <= '9' || 'a' <= c <= 'f' || 'A' <= c <= 'F'
  }

  function HexValue(c: char): (v: int)
    requires IsHex(c)
    ensures 0 <= v < 16
  {
    if c <= '9' then c as int - '0' as int
    else if c <= 'F' then c as int - 'A' as int + 10
    else c as int - 'a' as int + 10
  }

  datatype Decoded = Text(s: string) | BadEscape

  function Before(head: string, rest: Decoded): Decoded
  {
    match rest
    case BadEscape => BadEscape
    case Text(s) => Text(head + s)
  }

  /** `url.PathUnescape`: every `%` must be followed by two hex digits. */
  function PathUnescape(s: string): Decoded
  {
    if s == "" then Text("")
    else if s[0] == '%' then
      if |s| >= 3 && IsHex(s[1]) && IsHex(s[2]) then
        Before([(HexValue(s[1]) * 16 + HexValue(s[2])) as char], PathUnescape(s[3..]))
      else BadEscape
    else Before([s[0]], PathUnescape(s[1..]))
  }

  /** The upper-case hex digits of a byte. */
  function HexDigit(v: int): (c: char)
    requires 0 <= v < 16
    ensures IsHex(c) && HexValue(c) == v
  {
    if v < 10 then (v + '0' as int) as char else (v - 10 + 'A' as int) as char
  }

  predicate IsByte(c: char)
  {
    c as int < 256
  }

  predicate Bytes(text: string)
  {
    forall i :: 0 <= i < |text| ==> IsByte(text[i])
  }

  /** Percent signs are escaped, and whatever else `which` says. */
  function Escape(text: string, which: char -> bool): string
    requires Bytes(text)
  {
    if text == "" then ""
    else
      (if text[0] == '%' || which(text[0]) then
         ['%', HexDigit(text[0] as int / 16), HexDigit(text[0] as int % 16)]
       else [text[0]]) + Escape(text[1..], which)
  }

  /** Unescaping undoes escaping, whichever characters were escaped. */
  lemma {:induction false} UnescapeEscape(text: string, which: char -> bool)
    requires Bytes(text)
    ensures PathUnescape(Escape(text, which)) == Text(text)
  {
    if text != "" {
      var c, rest := text[0], Escape(text[1..], which);
      UnescapeEscape(text[1..], which);
      assert text == [c] + text[1..];
      if c == '%' || which(c) {
        var high, low := HexDigit(c as int / 16), HexDigit(c as int % 16);
        var s := ['%', high, low] + rest;
        assert s[3..] == rest && s[1] == high && s[2] == low;
        assert HexValue(high) * 16 + HexValue(low) == c as int;
      } else {
        assert ([c] + rest)[1..] == rest;
      }
    }
  }

  /** An escape that is cut short or has other digits spoils the whole text. */
  lemma {:induction false} BadEscapeSpoils(head: string, tail: string)
    requires '%' !in head && !(|tail| >= 2 && IsHex(tail[0]) && IsHex(tail[1]))
    ensures PathUnescape(head + "%" + tail).BadEscape?
  {
    var s := head + "%" + tail;
    if head == "" {
      assert s[0] == '%' && (|tail| >= 2 ==> s[1] == tail[0] && s[2] == tail[1]);
    } else {
      BadEscapeSpoils(head[1..], tail);
      assert s[0] == head[0] && s[1..] == head[1..] + "%" + tail;
    }
  }

  /** `strings.LastIndex` for a dot. */
  function LastDot(s: string): (i: int)
    ensures -1 <= i < |s|
    ensures i >= 0 ==> s[i] == '.'
    ensures forall j :: i < j < |s| ==> s[j] != '.'
  {
    if s == "" then -1
    else if s[|s| - 1] == '.' then |s| - 1
    else LastDot(s[..|s| - 1])
  }

  /** `SignCookie`. */
  function Sign(mac: Mac, value: string, secret: string): string
  {
    value + "." + mac(value, secret)
  }

  datatype Opened = Value(value: string) | Rejected

  /** What a cookie says, before its signature is looked at. */
  function Presented(signed: string): string
  {
    if '%' in signed && PathUnescape(signed).Text? then PathUnescape(signed).s else signed
  }

  /** `VerifySignedCookie`. */
  function Verify(mac: Mac, signed: string, secret: string): Opened
  {
    var text := Presented(signed);
    var dot := LastDot(text);
    if dot <= 0 then Rejected
    else if text[dot + 1..] != mac(text[..dot], secret) then Rejected
    else Value(text[..dot])
  }

  /** The cookie says the value, with the signature that the secret gives it. */
  ghost predicate Signs(mac: Mac, signed: string, value: string, secret: string)
  {
    value != "" && Presented(signed) == value + "." + mac(value, secret)
  }

  /** A cookie opens to a value exactly if it carries the signature of that very value. */
  lemma OpensExactlyIfSigned(mac: Mac, signed: string, secret: string, value: string)
    requires Base64Mac(mac)
    ensures Verify(mac, signed, secret) == Value(value) <==> Signs(mac, signed, value, secret)
  {
    var text := Presented(signed);
    if Signs(mac, signed, value, secret) {
      LastDotBeforeSignature(value, mac(value, secret));
      assert text[..|value|] == value && text[|value| + 1..] == mac(value, secret);
    }
    if Verify(mac, signed, secret) == Value(value) {
      var dot := LastDot(text);
      assert text == text[..dot] + "." + text[dot + 1..];
    }
  }

  ghost predicate SomeSigns(mac: Mac, signed: string, value: string, secrets: seq<string>)
  {
    exists s :: s in secrets && Signs(mac, signed, value, s)
  }

  lemma SomeOpens(mac: Mac, signed: string, secrets: seq<string>, secret: string)
    requires secret in secrets && Verify(mac, signed, secret).Value?
    ensures Base64Mac(mac) ==> forall v :: Verify(mac, signed, secret) == Value(v) <==> SomeSigns(mac, signed, v, secrets)
  {
    if Base64Mac(mac) {
      forall v ensures Verify(mac, signed, secret) == Value(v) <==> SomeSigns(mac, signed, v, secrets) {
        OpensExactlyIfSigned(mac, signed, secret, v);
        if s :| s in secrets && Signs(mac, signed, v, s) {
          OpensExactlyIfSigned(mac, signed, s, v);
        }
      }
    }
  }

  lemma NoneOpens(mac: Mac, signed: string, secrets: seq<string>)
    requires forall s :: s in secrets ==> Verify(mac, signed, s).Rejected?
    ensures Base64Mac(mac) ==> forall v :: !SomeSigns(mac, signed, v, secrets)
  {
    if Base64Mac(mac) {
      forall v, s | s in secrets ensures !Signs(mac, signed, v, s) {
        OpensExactlyIfSigned(mac, signed, s, v);
      }
    }
  }

  /** `VerifySignedCookieAny`: the secrets are tried in order, the current one
      first. The value that comes back depends on the cookie alone, never on
      which secret matched, so a newly added secret takes nothing away. */
  method VerifyAny(mac: Mac, signed: string, secrets: seq<string>) returns (r: Opened)
    ensures r.Rejected? <==> forall s :: s in secrets ==> Verify(mac, signed, s).Rejected?
    ensures r.Value? ==> LastDot(Presented(signed)) > 0 && r.value == Presented(signed)[..LastDot(Presented(signed))]
    ensures Base64Mac(mac) ==> forall v :: r == Value(v) <==> SomeSigns(mac, signed, v, secrets)
  {
    for i := 0 to |secrets|
      invariant forall j :: 0 <= j < i ==> Verify(mac, signed, secrets[j]).Rejected?
    {
      var result := Verify(mac, signed, secrets[i]);
      if result.Value? {
        SomeOpens(mac, signed, secrets, secrets[i]);
        return result;
      }
    }
    NoneOpens(mac, signed, secrets);
    return Rejected;
  }

  lemma {:induction false} PlainUnescape(s: string)
    requires '%' !in s
    ensures PathUnescape(s) == Text(s)
  {
    if s != "" {
      PlainUnescape(s[1..]);
      assert s == [s[0]] + s[1..];
    }
  }

  function Followed(d: Decoded, tail: string): Decoded
  {
    match d
    case BadEscape => BadEscape
    case Text(s) => Text(s + tail)
  }

  lemma FollowedBefore(head: string, d: Decoded, tail: string)
    ensures Followed(Before(head, d), tail) == Before(head, Followed(d, tail))
  {
    if d.Text? {
      assert (head + d.s) + tail == head + (d.s + tail);
    }
  }

  /** A percent-free tail that does not start with a hex digit can neither
      complete nor break an escape in front of it. */
  lemma {:induction false} UnescapeAppend(s: string, tail: string)
    requires '%' !in tail && tail != "" && !IsHex(tail[0])
    ensures PathUnescape(s + tail) == Followed(PathUnescape(s), tail)
    decreases |s|
  {
    var all := s + tail;
    if s == "" {
      assert all == tail;
      PlainUnescape(tail);
    } else if s[0] == '%' {
      assert all[0] == '%' && |all| > |s|;
      assert forall i :: 0 <= i < |s| ==> all[i] == s[i];
      assert all[|s|] == tail[0];
      if |s| >= 3 && IsHex(s[1]) && IsHex(s[2]) {
        assert all[3..] == s[3..] + tail;
        UnescapeAppend(s[3..], tail);
        FollowedBefore([(HexValue(s[1]) * 16 + HexValue(s[2])) as char], PathUnescape(s[3..]), tail);
      }
    } else {
      assert all[0] == s[0] && all[1..] == s[1..] + tail;
      UnescapeAppend(s[1..], tail);
      FollowedBefore([s[0]], PathUnescape(s[1..]), tail);
    }
  }

  lemma {:induction false} UnescapeShrinks(s: string)
    requires PathUnescape(s).Text?
    ensures |PathUnescape(s).s| <= |s|
    ensures '%' in s ==> |PathUnescape(s).s| < |s|
    decreases |s|
  {
    if s != "" {
      if s[0] == '%' {
        UnescapeShrinks(s[3..]);
      } else {
        UnescapeShrinks(s[1..]);
        assert s == [s[0]] + s[1..];
      }
    }
  }

  lemma {:induction false} LastDotBeforeSignature(value: string, sig: string)
    requires '.' !in sig
    ensures LastDot(value + "." + sig) == |value|
  {
    var s := value + "." + sig;
    if sig != "" {
      var front := sig[..|sig| - 1];
      assert s[..|s| - 1] == value + "." + front;
      assert sig[|sig| - 1] in sig && s[|s| - 1] == sig[|sig| - 1];
      LastDotBeforeSignature(value, front);
    }
  }

  /** Unescaping works on the value in front of the signature alone. */
  lemma PresentedPrefix(value: string, sig: string)
    requires '%' !in sig
    ensures Presented(value + "." + sig) == Presented(value) + "." + sig
  {
    var tail := "." + sig;
    assert value + "." + sig == value + tail && tail[0] == '.';
    UnescapeAppend(value, tail);
    assert '%' in value + tail <==> '%' in value;
    var text := Presented(value);
    assert text + tail == text + "." + sig;
  }

  /** A cookie is read as it was before escaping, if it was escaped, and otherwise as it is. */
  lemma PresentedText(text: string, which: char -> bool)
    requires Bytes(text)
    ensures '%' in Escape(text, which) ==> Presented(Escape(text, which)) == text
    ensures '%' !in text ==> Presented(text) == text
    ensures PathUnescape(text).BadEscape? ==> Presented(text) == text
  {
    UnescapeEscape(text, which);
  }

  lemma PresentedAsIs(value: string)
    ensures Presented(value) == value <==> ('%' in value ==> PathUnescape(value).BadEscape?)
  {
    if '%' in value && PathUnescape(value).Text? {
      UnescapeShrinks(value);
    }
  }

  /** A signed value survives the round trip under its secret exactly when it is
      not empty and holds no `%` that starts a well-formed string of escapes. */
  lemma RoundTrip(mac: Mac, value: string, secret: string)
    requires Base64Mac(mac)
    ensures Verify(mac, Sign(mac, value, secret), secret) == Value(value)
            <==> value != "" && ('%' in value ==> PathUnescape(value).BadEscape?)
  {
    var sig, text := mac(value, secret), Presented(value);
    assert '.' !in sig && '%' !in sig;
    PresentedPrefix(value, sig);
    LastDotBeforeSignature(text, sig);
    PresentedAsIs(value);
    var whole := text + "." + sig;
    assert whole[..|text|] == text && whole[|text| + 1..] == sig;
  }

  /** A cookie signed under any configured secret opens to its value, whatever
      the other secrets are and wherever the secret stands among them. */
  method SignThenVerifyAny(mac: Mac, value: string, secret: string, secrets: seq<string>) returns (r: Opened)
    requires Base64Mac(mac) && secret in secrets
    requires value != "" && ('%' in value ==> PathUnescape(value).BadEscape?)
    ensures r == Value(value)
  {
    r := VerifyAny(mac, Sign(mac, value, secret), secrets);
    RoundTrip(mac, value, secret);
  }

  /** Rotation: an accepted cookie stays accepted, with the same value, when
      another secret is put in front. */
  method VerifyAfterRotation(mac: Mac, signed: string, secrets: seq<string>, newSecret: string)
    returns (before: Opened, after: Opened)
    ensures before.Value? ==> after == before
  {
    before := VerifyAny(mac, signed, secrets);
    after := VerifyAny(mac, signed, [newSecret] + secrets);
    if before.Value? {
      ghost var s :| s in secrets && Verify(mac, signed, s).Value?;
      assert s in [newSecret] + secrets;
    }
  }

}
