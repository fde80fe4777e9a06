/** The string and arithmetic helpers of `src/utils.rs`: the human-readable
    track timestamp, the domain comparison used for source filtering, and the
    host part of the "now playing" footer. */
module Utils {
  import opened Types

  // ---------------------------------------------------------------------------
  // Decimal digits (Rust's `{}` and `{:02}` formatting of unsigned integers)
  // ---------------------------------------------------------------------------

  predicate IsDigit(c: char) { '0' <= c <= '9' }

  predicate AllDigits(s: string) { forall i :: 0 <= i < |s| ==> IsDigit(s[i]) }

  function DigitChar(d: nat): (c: char)
    requires d < 10
    ensures IsDigit(c) && c as int - '0' as int == d
  {
    ('0' as int + d) as char
  }

  function DigitValue(c: char): (d: nat)
    requires IsDigit(c)
    ensures d < 10
  {
    c as int - '0' as int
  }

  /** `{}` of an unsigned integer: the shortest decimal rendering, with no
      leading zero except for zero itself. */
  function Decimal(n: nat): (s: string)
    ensures 1 <= |s| && AllDigits(s)
    ensures |s| == 1 <==> n < 10
    ensures n == 0 ==> s == "0"
    ensures n > 0 ==> s[0] != '0'
    decreases n
  {
    if n < 10 then [DigitChar(n)] else Decimal(n / 10) + [DigitChar(n % 10)]
  }

  /** Reads a string of decimal digits back to its value. */
  function DecimalValue(s: string): nat
    requires AllDigits(s)
    decreases |s|
  {
    if s == [] then 0 else DecimalValue(s[..|s| - 1]) * 10 + DigitValue(s[|s| - 1])
  }

  lemma {:induction false} DecimalRoundTrip(n: nat)
    ensures DecimalValue(Decimal(n)) == n
    decreases n
  {
    var s := Decimal(n);
    if n >= 10 {
      assert s[..|s| - 1] == Decimal(n / 10);
      DecimalRoundTrip(n / 10);
    }
  }

  /** `{:02}` of a number below one hundred: two digits, zero-padded. */
  function Pad2(n: nat): (s: string)
    requires n < 100
    ensures |s| == 2 && AllDigits(s)
  {
    if n < 10 then "0" + Decimal(n) else Decimal(n)
  }

  lemma Pad2RoundTrip(n: nat)
    requires n < 100
    ensures DecimalValue(Pad2(n)) == n
  {
    DecimalRoundTrip(n);
    if n < 10 {
      var s := Pad2(n);
      assert s[..1] == "0";
      assert DecimalValue(s[..1]) == 0 by {
        assert s[..1][..0] == [];
      }
    }
  }

  // ---------------------------------------------------------------------------
  // get_human_readable_timestamp
  // ---------------------------------------------------------------------------

  const INFINITY: string := "\U{221E}"

  /** Splits whole seconds into hours, minutes below 60 and seconds below 60,
      computed as the source does (`% 60`, `/ 60 % 60`, `/ 3600`). */
  function Clock(secs: nat): (hms: (nat, nat, nat))
    ensures hms.1 < 60 && hms.2 < 60
    ensures hms.0 * 3600 + hms.1 * 60 + hms.2 == secs
  {
    var seconds := secs % 60;
    var minutes := (secs / 60) % 60;
    var hours := secs / 3600;
    assert hours == (secs / 60) / 60 by {
      var q := secs / 60;
      assert secs == 60 * q + seconds;
      assert q == 60 * (q / 60) + q % 60;
      assert secs == 3600 * (q / 60) + (60 * (q % 60) + seconds);
      assert 0 <= 60 * (q % 60) + seconds < 3600;
    }
    (hours, minutes, seconds)
  }

  /** The clock reading as text: "MM:SS" under an hour, "H:MM:SS" from one
      hour on. */
  function ClockText(hours: nat, minutes: nat, seconds: nat): (s: string)
    requires minutes < 60 && seconds < 60
    ensures hours < 1 ==> |s| == 5
    ensures hours >= 1 ==> |s| >= 7
  {
    if hours < 1 then Pad2(minutes) + ":" + Pad2(seconds)
    else Decimal(hours) + ":" + Pad2(minutes) + ":" + Pad2(seconds)
  }

  /** `get_human_readable_timestamp`: "∞" for no duration or `Duration::MAX`,
      "MM:SS" under an hour, "H:MM:SS" from one hour on. */
  function HumanTimestamp(d: Option<Duration>): (s: string)
    ensures s == INFINITY <==> d.None? || d.value == DURATION_MAX
    ensures d.Some? && d.value != DURATION_MAX && d.value.secs < 3600 ==> |s| == 5
    ensures d.Some? && d.value != DURATION_MAX && d.value.secs >= 3600 ==> |s| >= 7
  {
    match d
    case None => INFINITY
    case Some(duration) =>
      if duration == DURATION_MAX then INFINITY
      else
        var (hours, minutes, seconds) := Clock(duration.secs);
        ClockText(hours, minutes, seconds)
  }

  /** Reads a finite timestamp back to seconds. Only the canonical forms are
      accepted: "MM:SS", or "H:MM:SS" with the hours written without a
      leading zero, and minutes and seconds below 60 in both. */
  function ParseTimestamp(t: string): Option<nat>
  {
    if |t| == 5 && t[2] == ':' && AllDigits(t[..2]) && AllDigits(t[3..])
       && DecimalValue(t[..2]) < 60 && DecimalValue(t[3..]) < 60 then
      Some(DecimalValue(t[..2]) * 60 + DecimalValue(t[3..]))
    else if |t| >= 7 && t[|t| - 6] == ':' && t[|t| - 3] == ':' && t[0] != '0'
            && AllDigits(t[..|t| - 6]) && AllDigits(t[|t| - 5..|t| - 3]) && AllDigits(t[|t| - 2..])
            && DecimalValue(t[|t| - 5..|t| - 3]) < 60 && DecimalValue(t[|t| - 2..]) < 60 then
      Some(DecimalValue(t[..|t| - 6]) * 3600
           + DecimalValue(t[|t| - 5..|t| - 3]) * 60
           + DecimalValue(t[|t| - 2..]))
    else None
  }

  /** Every finite duration other than `Duration::MAX` is rendered so that its
      whole seconds can be read back: nothing is lost but the nanoseconds. */
  lemma TimestampRoundTrip(d: Duration)
    requires d != DURATION_MAX
    ensures ParseTimestamp(HumanTimestamp(Some(d))) == Some(d.secs)
  {
    var (hours, minutes, seconds) := Clock(d.secs);
    var t := HumanTimestamp(Some(d));
    Pad2RoundTrip(minutes);
    Pad2RoundTrip(seconds);
    if hours < 1 {
      assert t == Pad2(minutes) + ":" + Pad2(seconds);
      assert t[..2] == Pad2(minutes);
      assert t[3..] == Pad2(seconds);
    } else {
      DecimalRoundTrip(hours);
      var h := Decimal(hours);
      assert t == h + ":" + Pad2(minutes) + ":" + Pad2(seconds);
      assert t[..|t| - 6] == h;
      assert t[|t| - 5..|t| - 3] == Pad2(minutes);
      assert t[|t| - 2..] == Pad2(seconds);
      assert t[|t| - 6] == ':' && t[|t| - 3] == ':';
    }
  }

  /** A digit string without a leading zero is the rendering of its value. */
  lemma {:induction false} DecimalCanonical(s: string)
    requires |s| >= 1 && AllDigits(s) && s[0] != '0'
    ensures DecimalValue(s) >= 1 && Decimal(DecimalValue(s)) == s
    decreases |s|
  {
    var last := s[|s| - 1];
    var d := DigitValue(last);
    assert DigitChar(d) == last;
    if |s| == 1 {
      assert s[..0] == [];
      assert s == [last];
    } else {
      var init := s[..|s| - 1];
      assert init[0] == s[0];
      DecimalCanonical(init);
      var v := DecimalValue(init);
      assert DecimalValue(s) == v * 10 + d;
      assert (v * 10 + d) / 10 == v && (v * 10 + d) % 10 == d;
      assert s == init + [last];
    }
  }

  /** Two digits are the zero-padded rendering of their value. */
  lemma Pad2Canonical(s: string)
    requires |s| == 2 && AllDigits(s)
    ensures DecimalValue(s) < 100 && Pad2(DecimalValue(s)) == s
  {
    assert s[..1][..0] == [];
    var d0 := DigitValue(s[0]);
    var d1 := DigitValue(s[1]);
    assert DecimalValue(s[..1]) == d0;
    assert DecimalValue(s) == d0 * 10 + d1;
    if s[0] == '0' {
      assert DigitChar(d1) == s[1];
      assert s == "0" + [s[1]];
    } else {
      DecimalCanonical(s);
    }
  }

  /** Hours, minutes below 60 and seconds below 60 are the clock of the
      seconds they add up to. */
  lemma ClockUnique(hours: nat, minutes: nat, seconds: nat)
    requires minutes < 60 && seconds < 60
    ensures Clock(hours * 3600 + minutes * 60 + seconds) == (hours, minutes, seconds)
  {
    var n := hours * 3600 + minutes * 60 + seconds;
    var q := hours * 60 + minutes;
    assert n == q * 60 + seconds;
    assert n % 60 == seconds && n / 60 == q;
    assert q % 60 == minutes && q / 60 == hours;
    assert n / 3600 == hours;
  }

  /** A duration whose seconds add up from a clock reading is rendered as
      that reading. */
  lemma RenderClock(secs: nat, hours: nat, minutes: nat, seconds: nat)
    requires minutes < 60 && seconds < 60 && secs == hours * 3600 + minutes * 60 + seconds
    ensures HumanTimestamp(Some(Duration(secs, 0))) == ClockText(hours, minutes, seconds)
  {
    ClockUnique(hours, minutes, seconds);
  }

  /** Canonical minute and second fields are the rendering of the duration
      they spell. */
  lemma ShortCanonical(secs: nat, ms: string, ss: string)
    requires |ms| == 2 && AllDigits(ms) && DecimalValue(ms) < 60
    requires |ss| == 2 && AllDigits(ss) && DecimalValue(ss) < 60
    requires secs == DecimalValue(ms) * 60 + DecimalValue(ss)
    ensures HumanTimestamp(Some(Duration(secs, 0))) == ms + ":" + ss
  {
    Pad2Canonical(ms);
    Pad2Canonical(ss);
    RenderClock(secs, 0, DecimalValue(ms), DecimalValue(ss));
  }

  /** Canonical hour, minute and second fields are the rendering of the
      duration they spell. */
  lemma LongCanonical(secs: nat, hs: string, ms: string, ss: string)
    requires |hs| >= 1 && AllDigits(hs) && hs[0] != '0'
    requires |ms| == 2 && AllDigits(ms) && DecimalValue(ms) < 60
    requires |ss| == 2 && AllDigits(ss) && DecimalValue(ss) < 60
    requires secs == DecimalValue(hs) * 3600 + DecimalValue(ms) * 60 + DecimalValue(ss)
    ensures HumanTimestamp(Some(Duration(secs, 0))) == hs + ":" + ms + ":" + ss
  {
    DecimalCanonical(hs);
    Pad2Canonical(ms);
    Pad2Canonical(ss);
    RenderClock(secs, DecimalValue(hs), DecimalValue(ms), DecimalValue(ss));
  }

  /** A clock text is its fields joined by colons. */
  lemma SplitShortClock(t: string)
    requires |t| == 5 && t[2] == ':'
    ensures t == t[..2] + ":" + t[3..]
  {
  }

  lemma SplitLongClock(t: string)
    requires |t| >= 7 && t[|t| - 6] == ':' && t[|t| - 3] == ':'
    ensures t == t[..|t| - 6] + ":" + t[|t| - 5..|t| - 3] + ":" + t[|t| - 2..]
  {
  }

  /** Every text the parser accepts is the rendering of the seconds it reads,
      so together with `TimestampRoundTrip` each finite duration has exactly
      one accepted text and `HumanTimestamp` produces it. */
  lemma TimestampCanonical(t: string)
    requires ParseTimestamp(t).Some?
    ensures HumanTimestamp(Some(Duration(ParseTimestamp(t).value, 0))) == t
  {
    var secs := ParseTimestamp(t).value;
    if |t| == 5 && t[2] == ':' && AllDigits(t[..2]) && AllDigits(t[3..])
       && DecimalValue(t[..2]) < 60 && DecimalValue(t[3..]) < 60 {
      ShortCanonical(secs, t[..2], t[3..]);
      SplitShortClock(t);
    } else {
      var hs, ms, ss := t[..|t| - 6], t[|t| - 5..|t| - 3], t[|t| - 2..];
      assert hs[0] == t[0];
      LongCanonical(secs, hs, ms, ss);
      SplitLongClock(t);
    }
  }

  // ---------------------------------------------------------------------------
  // compare_domains
  // ---------------------------------------------------------------------------

  predicate EndsWith(s: string, suffix: string)
  {
    |suffix| <= |s| && s[|s| - |suffix|..] == suffix
  }

  /** `compare_domains(domain, subdomain)`: equal, or `subdomain` ends with
      `domain`, as written (no check that the match starts at a label). */
  function CompareDomains(domain: string, subdomain: string): (r: bool)
    ensures r <==> EndsWith(subdomain, domain)
  {
    subdomain == domain || EndsWith(subdomain, domain)
  }

  /** The domain comparison holds exactly when `domain` is a suffix of
      `subdomain`: some prefix followed by `domain` spells `subdomain`. */
  lemma CompareDomainsIsSuffix(domain: string, subdomain: string)
    ensures CompareDomains(domain, subdomain) ==>
              subdomain == subdomain[..|subdomain| - |domain|] + domain
    ensures forall prefix: string ::
              subdomain == prefix + domain ==> CompareDomains(domain, subdomain)
  {
    forall prefix: string | subdomain == prefix + domain
      ensures CompareDomains(domain, subdomain)
    {
      assert subdomain[|subdomain| - |domain|..] == domain;
    }
  }

  /** As written, a host that merely ends in the same letters is accepted:
      "notyoutube.com" passes as a subdomain of "youtube.com". */
  lemma CompareDomainsIgnoresLabelBoundary()
    ensures CompareDomains("youtube.com", "notyoutube.com")
    ensures !CompareDomainsOnLabel("youtube.com", "notyoutube.com")
  {
    assert "notyoutube.com"[3..] == "youtube.com";
    assert "notyoutube.com"[2..] != ".youtube.com" by {
      assert "notyoutube.com"[2..][0] == 't';
    }
  }

  /** The evidently intended comparison: equal, or a proper subdomain, so the
      match must start right after a dot. */
  function CompareDomainsOnLabel(domain: string, subdomain: string): bool
  {
    subdomain == domain || EndsWith(subdomain, "." + domain)
  }

  /** The corrected comparison accepts exactly `domain` and the hosts that
      are some labels followed by a dot and `domain`, and it never accepts
      more than the comparison as written. */
  lemma CompareDomainsOnLabelSpec(domain: string, subdomain: string)
    ensures CompareDomainsOnLabel(domain, subdomain) ==>
              subdomain == domain ||
              subdomain == subdomain[..|subdomain| - |domain| - 1] + "." + domain
    ensures forall labels: string ::
              subdomain == labels + "." + domain ==> CompareDomainsOnLabel(domain, subdomain)
    ensures CompareDomainsOnLabel(domain, subdomain) ==> CompareDomains(domain, subdomain)
  {
    if EndsWith(subdomain, "." + domain) {
      var n := |subdomain| - |domain| - 1;
      assert subdomain[n..] == "." + domain;
      assert subdomain == subdomain[..n] + subdomain[n..];
      assert subdomain[|subdomain| - |domain|..] == ("." + domain)[1..];
    }
    forall labels: string | subdomain == labels + "." + domain
      ensures CompareDomainsOnLabel(domain, subdomain)
    {
      assert subdomain[|subdomain| - |domain| - 1..] == "." + domain;
    }
  }

  // ---------------------------------------------------------------------------
  // get_footer_info (host part only)
  // ---------------------------------------------------------------------------

  const WWW: string := "www."
  const STREAMING_VIA: string := "Streaming via "
  const FAVICON_URL: string := "https://www.google.com/s2/favicons?domain="

  /** "www." starts at position `i` of `s`. */
  predicate WwwAt(s: string, i: nat)
  {
    i + 4 <= |s| && s[i] == 'w' && s[i + 1] == 'w' && s[i + 2] == 'w' && s[i + 3] == '.'
  }

  /** `host.replace("www.", "")`: scan left to right and drop every
      non-overlapping "www." that the scan meets. */
  function StripWww(s: string): (r: string)
    ensures |r| <= |s| && (|s| - |r|) % 4 == 0
    decreases |s|
  {
    if |s| < 4 then s
    else if WwwAt(s, 0) then StripWww(s[4..])
    else [s[0]] + StripWww(s[1..])
  }

  /** A host without any "www." is left as it is. */
  lemma {:induction false} StripWwwKeepsPlainHost(s: string)
    requires forall i: nat :: !WwwAt(s, i)
    ensures StripWww(s) == s
    decreases |s|
  {
    if |s| >= 4 {
      assert !WwwAt(s, 0);
      forall i: nat ensures !WwwAt(s[1..], i) {
        assert !WwwAt(s, i + 1);
      }
      StripWwwKeepsPlainHost(s[1..]);
      assert s == [s[0]] + s[1..];
    }
  }

  /** Position `k` of `s` belongs to some occurrence of "www." in `s`. */
  predicate InWww(s: string, k: nat)
  {
    WwwAt(s, k) || (k >= 1 && WwwAt(s, k - 1)) || (k >= 2 && WwwAt(s, k - 2)) || (k >= 3 && WwwAt(s, k - 3))
  }

  /** The characters of `s` from position `k` on that belong to no
      occurrence of "www.", in their order. */
  ghost function OutsideWww(s: string, k: nat): seq<char>
    requires k <= |s|
    decreases |s| - k
  {
    if k == |s| then [] else (if InWww(s, k) then [] else [s[k]]) + OutsideWww(s, k + 1)
  }

  /** Two occurrences of "www." never overlap: the "." that ends one is not
      a "w". */
  lemma WwwNeverOverlaps(s: string, j: nat, i: nat)
    requires WwwAt(s, j) && WwwAt(s, i) && j < i
    ensures j + 4 <= i
  {
  }

  /** From a position that is not inside an occurrence that started earlier,
      the scan keeps exactly the characters outside every "www.". */
  lemma {:induction false} StripWwwFrom(s: string, k: nat)
    requires k <= |s|
    requires !(k >= 1 && WwwAt(s, k - 1)) && !(k >= 2 && WwwAt(s, k - 2)) && !(k >= 3 && WwwAt(s, k - 3))
    ensures StripWww(s[k..]) == OutsideWww(s, k)
    decreases |s| - k
  {
    if k == |s| {
      assert s[k..] == [];
    } else if WwwAt(s, k) {
      assert WwwAt(s[k..], 0);
      StripWwwDrops(s, k);
      assert OutsideWww(s, k) == OutsideWww(s, k + 1);
      assert OutsideWww(s, k + 1) == OutsideWww(s, k + 2);
      assert OutsideWww(s, k + 2) == OutsideWww(s, k + 3);
      assert OutsideWww(s, k + 3) == OutsideWww(s, k + 4);
      StripWwwFrom(s, k + 4);
    } else {
      assert !WwwAt(s[k..], 0);
      StripWwwKeeps(s, k);
      assert !InWww(s, k);
      StripWwwFrom(s, k + 1);
    }
  }

  /** `replace("www.", "")` removes every occurrence of "www." in the host,
      not only a leading one, and keeps all other characters in order. */
  lemma StripWwwRemovesEveryWww(s: string)
    ensures StripWww(s) == OutsideWww(s, 0)
  {
    assert s[0..] == s;
    StripWwwFrom(s, 0);
  }

  /** The footer pair: "Streaming via <host>" and the favicon service URL,
      both for the host without any of its "www." occurrences. */
  function FooterInfo(host: string): (r: (string, string))
    ensures r.0 == STREAMING_VIA + OutsideWww(host, 0)
    ensures r.1 == FAVICON_URL + OutsideWww(host, 0)
  {
    StripWwwRemovesEveryWww(host);
    var domain := StripWww(host);
    (STREAMING_VIA + domain, FAVICON_URL + domain)
  }

  /** A leading "www." is dropped from the footer and nothing else changes for
      an otherwise plain host. */
  lemma FooterDropsLeadingWww(host: string)
    requires forall i: nat :: !WwwAt(host, i)
    ensures FooterInfo(WWW + host) == (STREAMING_VIA + host, FAVICON_URL + host)
    ensures FooterInfo(host) == FooterInfo(WWW + host)
  {
    assert WwwAt(WWW + host, 0);
    assert (WWW + host)[4..] == host;
    StripWwwKeepsPlainHost(host);
  }

  /** The scan keeps a character that does not start a "www.". */
  lemma StripWwwKeeps(s: string, k: nat)
    requires k < |s| && !WwwAt(s[k..], 0)
    ensures StripWww(s[k..]) == [s[k]] + StripWww(s[k + 1..])
  {
    assert s[k..][1..] == s[k + 1..];
  }

  /** The scan drops a "www." it meets. */
  lemma StripWwwDrops(s: string, k: nat)
    requires k <= |s| && WwwAt(s[k..], 0)
    ensures StripWww(s[k..]) == StripWww(s[k + 4..])
  {
    assert s[k..][4..] == s[k + 4..];
  }

  /** Dropping one "www." can join its neighbours into a new one, which the
      left-to-right scan does not revisit: "wwwww.w.com" becomes "www.com". */
  lemma StripWwwCanLeaveWww(rest: string)
    ensures StripWww("wwwww.w." + rest) == WWW + StripWww(rest)
  {
    var s := "wwwww.w." + rest;
    StripWwwKeeps(s, 7);
    StripWwwKeeps(s, 6);
    StripWwwDrops(s, 2);
    StripWwwKeeps(s, 1);
    StripWwwKeeps(s, 0);
    assert s[0..] == s;
    assert s[8..] == rest;
    assert s[0] == 'w' && s[1] == 'w' && s[6] == 'w' && s[7] == '.';
    SpelledWww(StripWww(rest));
  }

  /** "www." spelled out character by character. */
  lemma SpelledWww(r: string)
    ensures ['w'] + (['w'] + (['w'] + (['.'] + r))) == WWW + r
  {
  }
}
