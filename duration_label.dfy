/**
 * The duration labels both pages print, "{m}m" and "{h}h {m}m", and a reader
 * for them, so that a formatter can be shown to lose nothing.
 */
module DurationLabel {
  import opened Wrappers
  import opened JsStrings
  import opened Decimal

  /** The text "{h}h {m}m". */
  function HoursLabel(hours: nat, minutes: nat): string {
    NatToString(hours) + "h " + NatToString(minutes) + "m"
  }

  /** The text "{n}m". */
  function MinutesLabel(n: int): string {
    IntToString(n) + "m"
  }

  /** The number of minutes a text denotes, if it is one. */
  function ParseDuration(text: string): Option<int> {
    if |text| == 0 || text[|text| - 1] != 'm' then None
    else
      var body := text[..|text| - 1];
      if 'h' in body then ParseHoursMinutes(body) else ParseInt(body)
  }

  /** "{h}h {m}" without the final "m". */
  function ParseHoursMinutes(body: string): Option<int>
    requires 'h' in body
  {
    var k := IndexOf(body, 'h');
    var hours, rest := body[..k], body[k + 1..];
    if |rest| > 0 && rest[0] == ' ' && ParseNat(hours).Some? && ParseNat(rest[1..]).Some?
    then Some(60 * ParseNat(hours).value + ParseNat(rest[1..]).value)
    else None
  }

  lemma ParseMinutesLabel(n: int)
    ensures ParseDuration(MinutesLabel(n)) == Some(n)
  {
    var text := MinutesLabel(n);
    assert text[..|text| - 1] == IntToString(n);
    assert 'h' !in IntToString(n) by {
      forall k | 0 <= k < |IntToString(n)| ensures IntToString(n)[k] != 'h' {
      }
    }
    IntToStringRoundTrip(n);
  }

  lemma ParseHoursLabel(hours: nat, minutes: nat)
    ensures ParseDuration(HoursLabel(hours, minutes)) == Some(60 * hours + minutes)
  {
    var h, m := NatToString(hours), NatToString(minutes);
    var text := HoursLabel(hours, minutes);
    var body := h + ("h " + m);
    assert text == body + "m";
    assert text[..|text| - 1] == body;
    assert 'h' in body by {
      assert body[|h|] == 'h';
    }
    ParseHoursMinutesOf(hours, minutes);
  }

  lemma ParseHoursMinutesOf(hours: nat, minutes: nat)
    ensures var body := NatToString(hours) + ("h " + NatToString(minutes));
      'h' in body && ParseHoursMinutes(body) == Some(60 * hours + minutes)
  {
    NatToStringRoundTrip(hours);
    NatToStringRoundTrip(minutes);
    ParseDigitsHoursMinutes(NatToString(hours), NatToString(minutes));
  }

  lemma ParseDigitsHoursMinutes(h: string, m: string)
    requires ParseNat(h).Some? && ParseNat(m).Some?
    ensures 'h' in h + ("h " + m)
    ensures ParseHoursMinutes(h + ("h " + m)) == Some(60 * ParseNat(h).value + ParseNat(m).value)
  {
    var body := h + ("h " + m);
    assert 'h' !in h by {
      forall k | 0 <= k < |h| ensures h[k] != 'h' {
        assert IsDigit(h[k]);
      }
    }
    assert ("h " + m)[0] == 'h';
    IndexOfAfterPrefix(h, "h " + m, 'h');
    var k := IndexOf(body, 'h');
    assert k == |h|;
    assert body[..k] == h;
    assert body[k + 1..] == ("h " + m)[1..];
    assert ("h " + m)[1..] == " " + m;
    assert (" " + m)[1..] == m;
  }
}
